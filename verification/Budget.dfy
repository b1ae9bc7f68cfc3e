/**
 The ledger's clamps at zero. In budget they never fire, so the ledger is plain
 arithmetic; a market BUY that spends past its user's reserved cash fires one and
 creates exactly the excess.
 */
module Budget {
  import opened Types
  import opened Matching
  import opened EngineState
  import opened Invariant
  import opened StepInvariant
  import opened MatchInvariant
  import opened Shares
  import opened Cash
  import opened Walk
  import Sums

  // ---------------------------------------------------------------------
  // The ledger without clamps
  // ---------------------------------------------------------------------

  function Debit(h: Holding, amount: int): Holding {
    Holding(h.available, h.reserved - amount)
  }

  function ExactUnlock(orders: Orders, id: Id, amount: int): Orders {
    if id in orders then orders[id := orders[id].(locked := orders[id].locked - amount)] else orders
  }

  /** Settlement as double-entry arithmetic: four transfers and two lock reductions. */
  function ExactSettle(s: State, t: Trade): State {
    s.(balances := s.balances[t.buyer := Debit(Get(s.balances, t.buyer), t.Cost())]
                             [t.seller := Credit(Get(s.balances, t.seller), t.Cost())],
       positions := s.positions[t.BuyerKey() := Credit(Get(s.positions, t.BuyerKey()), t.quantity)]
                               [t.SellerKey() := Debit(Get(s.positions, t.SellerKey()), t.quantity)],
       orders := ExactUnlock(ExactUnlock(s.orders, t.BuyOrder(), t.Cost()), t.SellOrder(), t.quantity))
  }

  function ExactSettleAll(s: State, trades: seq<Trade>): State
    decreases trades
  {
    if trades == [] then s else ExactSettleAll(ExactSettle(s, trades[0]), trades[1..])
  }

  function ExactRelease(s: State, id: Id): State
    requires id in s.orders
  {
    var o := s.orders[id];
    var s1 :=
      if o.terms.side.Buy?
      then SetBalance(s, o.terms.user, Credit(Debit(Get(s.balances, o.terms.user), o.locked), o.locked))
      else SetPosition(s, KeyOf(o.terms), Credit(Debit(Get(s.positions, KeyOf(o.terms)), o.locked), o.locked));
    s1.(orders := s1.orders[id := o.(locked := 0)])
  }

  lemma SettleBalancesExact(s: State, t: Trade)
    requires Sound(t) && Get(s.balances, t.buyer).reserved >= t.Cost()
    ensures Settle(s, t).balances == ExactSettle(s, t).balances
  {
    var h := Get(s.balances, t.buyer);
    assert TakeReserved(h, t.Cost()) == Debit(h, t.Cost());
    GetSet(s.balances, t.buyer, Debit(h, t.Cost()), t.seller);
  }

  lemma SettlePositionsExact(s: State, t: Trade)
    requires Sound(t) && Get(s.positions, t.SellerKey()).reserved >= t.quantity
    ensures Settle(s, t).positions == ExactSettle(s, t).positions
  {
    var h := Get(s.positions, t.BuyerKey());
    GetSet(s.positions, t.BuyerKey(), Credit(h, t.quantity), t.SellerKey());
    assert TakeReserved(Get(s.positions, t.SellerKey()), t.quantity) == Debit(Get(s.positions, t.SellerKey()), t.quantity);
  }

  lemma SettleLocksExact(s: State, t: Trade)
    requires Settleable(s.orders, t)
    requires s.orders[t.BuyOrder()].locked >= t.Cost() && s.orders[t.SellOrder()].locked >= t.quantity
    ensures Settle(s, t).orders == ExactSettle(s, t).orders
  {
    hide Settle;
    SettleOrders(s, t);
  }

  lemma SettleExact(s: State, t: Trade)
    requires Settleable(s.orders, t)
    requires Get(s.balances, t.buyer).reserved >= t.Cost() && s.orders[t.BuyOrder()].locked >= t.Cost()
    requires Get(s.positions, t.SellerKey()).reserved >= t.quantity && s.orders[t.SellOrder()].locked >= t.quantity
    ensures Settle(s, t) == ExactSettle(s, t)
  {
    hide Settle;
    SettleBalancesExact(s, t);
    SettlePositionsExact(s, t);
    SettleLocksExact(s, t);
    SettleBooks(s, t);
  }

  /** No clamp fires while a match settles. */
  lemma {:induction false} SettleAllExact(s: State, trades: seq<Trade>, hot: set<Id>)
    requires OrdersOk(s) && AllSettleable(s.orders, trades)
    requires CashOk(s, trades, hot) && SharesOk(s, trades, hot)
    ensures SettleAll(s, trades) == ExactSettleAll(s, trades)
    decreases trades
  {
    hide Settle, ExactSettle, OrdersOk, Settleable, BuyOk, SellOk;
    if trades != [] {
      var t, rest := trades[0], trades[1..];
      assert trades == [t] + rest;
      assert Settleable(s.orders, t);
      forall i | 0 <= i < |rest| ensures Sound(rest[i]) && Settleable(s.orders, rest[i]) {
        assert Settleable(s.orders, trades[i + 1]);
        SettleableSound(s.orders, trades[i + 1]);
      }
      SettleCash(s, t, rest, hot);
      SettleShares(s, t, rest, hot);
      SettleExact(s, t);
      SettleSameButLocks(s, t);
      SettleKeepsSettleable(s, t, rest);
      SettleAllExact(Settle(s, t), rest, hot);
    }
  }

  /** No clamp fires when an order is released, and only an open lock moves anything. */
  lemma ReleaseExact(s: State, id: Id)
    requires OrdersOk(s) && id in s.orders && s.orders[id].locked > 0
    requires forall user: Id :: CashSlack(s, user) >= 0
    requires forall key: PositionKey :: ShareSlack(s, key) >= 0
    ensures Release(s, id) == ExactRelease(s, id)
  {
    var o := s.orders[id];
    if o.terms.side.Buy? {
      ReservedCashCovers(s, id);
    } else {
      ReservedCovers(s, id);
    }
  }

  /** In budget, matching is the match loop followed by clamp-free arithmetic. */
  lemma MatchExact(s: State, id: Id)
    requires Ready(s, id) && CashOk(s, [], {}) && SharesOk(s, [], {}) && InBudget(s, id)
    ensures var s2 := ExactSettleAll(Traded(s, id), TradesOf(s, id));
            && id in s2.orders
            && Match(s, id) == (if !s2.orders[id].Live() && s2.orders[id].locked > 0 then ExactRelease(s2, id) else s2)
  {
    hide MatchLoop, Traded, TradesOf, Settle, ExactSettle, InBudget, QueueOk, Rests, Uncrossed, AccountsOk, OrderOk, ExactRelease;
    var s1 := Traded(s, id);
    TradedWf(s, id);
    TradedCash(s, id);
    TradedShares(s, id);
    TradedSettleable(s, id);
    SettleAllExact(s1, TradesOf(s, id), {id});
    SettleAllCash(s1, TradesOf(s, id), {id});
    SettleAllShares(s1, TradesOf(s, id), {id});
    SettleAllSameButLocks(s1, TradesOf(s, id));
    var s2 := SettleAll(s1, TradesOf(s, id));
    if s2.orders[id].locked > 0 {
      ReleaseExact(s2, id);
    }
    NotRejected(s2, id);
  }

  lemma NotRejected(s: State, id: Id)
    requires OrdersOk(s) && id in s.orders
    ensures !s.orders[id].status.Rejected? && s.orders[id].locked >= 0
  {
    assert OrderOk(s.orders[id]);
  }

  // ---------------------------------------------------------------------
  // Over budget
  // ---------------------------------------------------------------------

  /** Trades in which one order of one user buys everything. */
  ghost predicate AllBoughtBy(orders: Orders, trades: seq<Trade>, id: Id, user: Id) {
    forall i :: 0 <= i < |trades| ==>
      Settleable(orders, trades[i]) && trades[i].BuyOrder() == id && trades[i].buyer == user
  }

  /** One purchase: reserved cash and lock go down to zero at most; the shortfall is new money. */
  lemma SpendOne(s: State, t: Trade)
    requires Settleable(s.orders, t) && Get(s.balances, t.buyer).reserved >= 0
    ensures var s' := Settle(s, t);
            && Get(s'.balances, t.buyer).reserved == Clamp(Get(s.balances, t.buyer).reserved - t.Cost())
            && s'.orders[t.BuyOrder()].locked == Clamp(s.orders[t.BuyOrder()].locked - t.Cost())
            && CashTotal(s'.balances) == CashTotal(s.balances) + Clamp(t.Cost() - Get(s.balances, t.buyer).reserved)
  {
    hide CashTotal, Get;
    SettleBalance(s, t, t.buyer);
    SettleLock(s, t, t.BuyOrder());
    CostPositive(t);
    var h, cost := Get(s.balances, t.buyer), t.Cost();
    var short := Clamp(cost - h.reserved);
    assert TakeReserved(h, cost) == Holding(h.available, h.reserved - cost + short);
    CashTotalShift(s.balances, t.buyer, TakeReserved(h, cost), short - cost);
    var b1 := s.balances[t.buyer := TakeReserved(h, cost)];
    CashTotalShift(b1, t.seller, Credit(Get(b1, t.seller), cost), cost);
  }

  lemma {:induction false} SpendDown(s: State, trades: seq<Trade>, id: Id, user: Id)
    requires OrdersOk(s) && id in s.orders && AllBoughtBy(s.orders, trades, id, user)
    requires Get(s.balances, user).reserved >= 0
    ensures var s' := SettleAll(s, trades);
            && Get(s'.balances, user).reserved == Clamp(Get(s.balances, user).reserved - Spend(trades, id))
            && s'.orders[id].locked == Clamp(s.orders[id].locked - Spend(trades, id))
            && CashTotal(s'.balances) == CashTotal(s.balances) + Clamp(Spend(trades, id) - Get(s.balances, user).reserved)
    decreases trades
  {
    hide Settle, Settleable, OrderOk, Get, CashTotal;
    NotRejected(s, id);
    if trades != [] {
      var t, rest := trades[0], trades[1..];
      assert Settleable(s.orders, t);
      forall i | 0 <= i < |rest|
        ensures Settleable(s.orders, rest[i]) && Sound(rest[i]) && rest[i].BuyOrder() == id && rest[i].buyer == user
      {
        assert Settleable(s.orders, trades[i + 1]);
        SettleableSound(s.orders, trades[i + 1]);
      }
      SpendOne(s, t);
      SettleSameButLocks(s, t);
      SettleKeepsSettleable(s, t, rest);
      SpendDown(Settle(s, t), rest, id, user);
      SettleableSound(s.orders, t);
      CostPositive(t);
      SpendNonNegative(rest, id);
    }
  }

  lemma MarketTrades(s: State, id: Id)
    requires Ready(s, id) && s.orders[id].terms.side.Buy?
    ensures AllBoughtBy(Traded(s, id).orders, TradesOf(s, id), id, s.orders[id].terms.user)
  {
    hide MatchLoop, Traded, TradesOf, Settleable;
    TradedSettleable(s, id);
    forall i | 0 <= i < |TradesOf(s, id)|
      ensures TradesOf(s, id)[i].BuyOrder() == id && TradesOf(s, id)[i].buyer == s.orders[id].terms.user
    {
      TradeSound(s, id, i);
    }
  }

  /** Matching a market BUY creates the cash by which its trades cost more than its user has reserved. */
  lemma MarketBuyCreates(s: State, id: Id)
    requires Ready(s, id) && CashOk(s, [], {})
    requires s.orders[id].terms.side.Buy? && s.orders[id].terms.kind.Market?
    ensures CashTotal(Match(s, id).balances) == CashTotal(s.balances)
              + Clamp(Spend(TradesOf(s, id), id) - Get(s.balances, s.orders[id].terms.user).reserved)
  {
    hide MatchLoop, Traded, TradesOf, Settle, QueueOk, Rests, Uncrossed, AccountsOk, OrderOk, CashTotal, Get, Release;
    var user := s.orders[id].terms.user;
    var s1, trades := Traded(s, id), TradesOf(s, id);
    TradedWf(s, id);
    TradedFields(s, id);
    TradedTaker(s, id);
    MarketTrades(s, id);
    UserSolvent(s, user);
    SpendDown(s1, trades, id, user);
    var s2 := SettleAll(s1, trades);
    SettleAllSameButLocks(s1, trades);
    assert Bare(s2.orders[id]) == Bare(s1.orders[id]);
    NotRejected(s2, id);
    ReservedCashCovers(s, id);
    ReleaseKeepsTotal(s2, id);
  }

  /**
   Read off the book before the match: a market BUY creates exactly the cash by which
   walking the book costs more than its user has reserved. So the total is conserved if
   and only if that walk costs at most the reserved cash.
   */
  lemma MarketBuyCash(s: State, id: Id)
    requires Ready(s, id) && CashOk(s, [], {})
    requires s.orders[id].terms.side.Buy? && s.orders[id].terms.kind.Market?
    ensures var reserved := Get(s.balances, s.orders[id].terms.user).reserved;
            && CashTotal(Match(s, id).balances) == CashTotal(s.balances) + Clamp(CostOfWalking(s, id) - reserved)
            && (CashTotal(Match(s, id).balances) == CashTotal(s.balances) <==> CostOfWalking(s, id) <= reserved)
  {
    hide Match, TradesOf, CostOfWalking, CashTotal, CashOk, Wf, Get;
    MarketBuyCreates(s, id);
    SpendIsWalk(s, id);
  }

  /** Releasing a BUY whose lock is covered keeps the cash total. */
  lemma ReleaseKeepsTotal(s: State, id: Id)
    requires id in s.orders && s.orders[id].terms.side.Buy?
    requires s.orders[id].locked <= Get(s.balances, s.orders[id].terms.user).reserved
    ensures CashTotal(Release(s, id).balances) == CashTotal(s.balances)
  {
    hide CashTotal, Get;
    var lock, user := s.orders[id].locked, s.orders[id].terms.user;
    var h := Get(s.balances, user);
    if lock > 0 {
      assert Unfreeze(h, lock) == Holding(h.available + lock, h.reserved - lock);
      CashTotalShift(s.balances, user, Unfreeze(h, lock), 0);
    }
  }

  lemma UserSolvent(s: State, user: Id)
    requires Wf(s)
    ensures Get(s.balances, user).Solvent()
  {
  }

  // ---------------------------------------------------------------------
  // States in which it happens
  // ---------------------------------------------------------------------

  function Offer(price: int): Order {
    Order(Terms(1, 1, 1, Limit, Yes, Sell, 1, price), 0, 1, Pending, 1)
  }

  /** A market order carries no price. */
  const TAKE := Order(Terms(2, 1, 2, OrderType.Market, Yes, Buy, 1, 0), 0, 1, Pending, 0)


  /** One share for sale, and a market BUY of a user without cash about to be matched. */
  function Unfunded(price: int): State {
    State(map[1 := Books(OrderBook([], [1]), EMPTY_BOOK)], map[1 := Offer(price), 2 := TAKE],
          map[], map[PositionKey(1, 1, Yes) := Holding(0, 1)], {2}, map[1 := 0], 1, 0)
  }

  lemma UnfundedResting(price: int, event: Id, outcome: Outcome, side: Side)
    ensures Resting(Unfunded(price), event, outcome, side) ==
            if event == 1 && outcome == Yes && side == Sell then [1] else []
  {
  }

  lemma UnfundedQueue(price: int, event: Id, outcome: Outcome, side: Side)
    ensures QueueOk(Unfunded(price), event, outcome, side)
  {
    hide Resting;
    UnfundedResting(price, event, outcome, side);
  }

  lemma UnfundedUncrossed(price: int, event: Id, outcome: Outcome)
    ensures Uncrossed(Unfunded(price), event, outcome)
  {
    hide Resting, Unfunded;
    UnfundedResting(price, event, outcome, Buy);
  }

  lemma UnfundedOrders(price: int)
    requires price > 0
    ensures OrdersOk(Unfunded(price)) && InflightOk(Unfunded(price)) && AccountsOk(Unfunded(price))
    ensures forall id | id in Unfunded(price).orders :: Rests(Unfunded(price), id)
  {
    hide Resting;
    UnfundedResting(price, 1, Yes, Sell);
  }

  lemma UnfundedCashOk(price: int)
    ensures CashOk(Unfunded(price), [], {})
  {
    var s := Unfunded(price);
    forall user: Id ensures CashSlack(s, user) >= 0 {
      Sums.Zero(BuyWeights(s.orders, user));
    }
  }

  lemma UnfundedReady(price: int)
    requires price > 0
    ensures Ready(Unfunded(price), 2)
  {
    hide QueueOk, Uncrossed, OrdersOk, InflightOk, AccountsOk, Rests;
    var s := Unfunded(price);
    UnfundedOrders(price);
    forall event, outcome, side ensures QueueOk(s, event, outcome, side) {
      UnfundedQueue(price, event, outcome, side);
    }
    forall event, outcome ensures Uncrossed(s, event, outcome) {
      UnfundedUncrossed(price, event, outcome);
    }
    IsReady(s, 2);
  }

  /** A round against a single order that can trade. */
  lemma SinglePair(orders: Orders, r: Id, inc: Id, next: nat)
    requires inc in orders && r in orders && orders[inc].remaining > 0 && Eligible(orders, r, inc)
    ensures var a := TryPair(orders, [r], inc, next);
            a.Pair? && a.maker == r
  {
    hide DropStale, FirstEligible, CanMatch;
    var live := DropStale(orders, [r]);
    assert |live| == 0 ==> Stale(orders[[r][0]]);
    assert live == [r];
    assert FirstEligible(orders, live, inc) == 0;
  }

  /** The only round of the match: one share at the offered price. */
  lemma UnfundedPair(price: int)
    ensures var s := Unfunded(price);
            var a := TryPair(s.orders, [1], 2, 0);
            && a.Pair? && a.trade == BuildTrade(TAKE.terms, Offer(price).terms, 1, 0)
            && a.orders[2].remaining == 0
  {
    hide TryPair, DropStale, FirstEligible;
    var orders := Unfunded(price).orders;
    SinglePair(orders, 1, 2, 0);
    PairEffect(orders, [1], 2, 0);
  }

  lemma UnfundedCost(price: int)
    requires Matchable(Unfunded(price), 2)
    ensures Spend(TradesOf(Unfunded(price), 2), 2) == price
  {
    hide DropStale, FirstEligible, Resting;
    var s := Unfunded(price);
    UnfundedResting(price, 1, Yes, Sell);
    UnfundedPair(price);
    var a := TryPair(s.orders, [1], 2, 0);
    var t := a.trade;
    assert MatchLoop(a.orders, a.queue, 2, 1).trades == [];
    assert TradesOf(s, 2) == [t];
    assert Spend([t][1..], 2) == 0;
  }

  /** The market BUY buys the share for money it does not have, and the seller is paid in full. */
  lemma OverBudgetCreatesCash(price: int)
    requires price > 0
    ensures Ready(Unfunded(price), 2) && CashOk(Unfunded(price), [], {})
    ensures CashTotal(Match(Unfunded(price), 2).balances) == CashTotal(Unfunded(price).balances) + price
  {
    hide Match, TradesOf, CashTotal, CashOk, MatchLoop, Wf;
    UnfundedReady(price);
    UnfundedCashOk(price);
    UnfundedCost(price);
    MarketBuyCreates(Unfunded(price), 2);
  }
}
