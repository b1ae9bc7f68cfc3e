/**
 A run in which a resting BUY keeps a surplus, for any ask price below any limit: user
 2 bids for two shares, buys one below the limit, rests with the other, and is filled
 by user 3. The same run shows whose orders the transaction rows carry.
 */
module Bargain {
  import opened Types
  import opened Matching
  import opened PriceTime
  import opened EngineState
  import opened Invariant
  import opened MatchInvariant
  import opened Shares
  import opened Cash
  import opened Runs
  import opened Lifecycle
  import opened Priority
  import opened Outcomes
  import opened Surplus
  import opened Database
  import Budget
  import Window
  import Sums

  // ---------------------------------------------------------------------
  // Whose orders the transaction rows carry
  // ---------------------------------------------------------------------

  /**
   The buyer's row carries an order of the buyer, and the seller's row an order of the
   seller, if and only if the incoming order buys; otherwise each carries the other's.
   */
  lemma RowsCarryOwnOrders(s: State, id: Id, i: nat)
    requires Ready(s, id) && i < |TradesOf(s, id)|
    ensures var t := TradesOf(s, id)[i];
            && BuyerRow(t).user == t.buyer && SellerRow(t).user == t.seller
            && BuyerRow(t).order in s.orders && SellerRow(t).order in s.orders
            && (s.orders[BuyerRow(t).order].terms.user == t.buyer <==> s.orders[id].terms.side.Buy?)
            && (s.orders[SellerRow(t).order].terms.user == t.seller <==> s.orders[id].terms.side.Buy?)
  {
    hide MatchLoop, TradesOf, QueueOk, Rests, Uncrossed, AccountsOk;
    TradeSound(s, id, i);
  }

  // ---------------------------------------------------------------------
  // The run
  // ---------------------------------------------------------------------

  function Ask(price: int): Order {
    Order(Terms(1, 1, 1, Limit, Yes, Sell, 1, price), 0, 1, Pending, 1)
  }

  function Bid(limit: int): Order {
    Order(Terms(2, 1, 2, Limit, Yes, Buy, 2, limit), 0, 2, Pending, 2 * limit)
  }

  function Sale(limit: int): Order {
    Order(Terms(3, 1, 3, Limit, Yes, Sell, 1, limit), 0, 1, Pending, 1)
  }

  /** One share for sale, and a bid and another sale admitted and about to be matched. */
  function Start(price: int, limit: int): State {
    State(map[1 := Books(OrderBook([], [1]), EMPTY_BOOK)], map[1 := Ask(price), 2 := Bid(limit), 3 := Sale(limit)],
          map[2 := Holding(0, 2 * limit)],
          map[PositionKey(1, 1, Yes) := Holding(0, 1), PositionKey(3, 1, Yes) := Holding(0, 1)],
          {2, 3}, map[1 := 0], 1, 0)
  }

  lemma StartResting(price: int, limit: int, event: Id, outcome: Outcome, side: Side)
    ensures Resting(Start(price, limit), event, outcome, side) ==
            if event == 1 && outcome == Yes && side == Sell then [1] else []
  {
  }

  lemma StartQueue(price: int, limit: int, event: Id, outcome: Outcome, side: Side)
    ensures QueueOk(Start(price, limit), event, outcome, side)
  {
    hide Resting;
    StartResting(price, limit, event, outcome, side);
  }

  lemma StartUncrossed(price: int, limit: int, event: Id, outcome: Outcome)
    ensures Uncrossed(Start(price, limit), event, outcome)
  {
    hide Resting, Start;
    StartResting(price, limit, event, outcome, Buy);
  }

  lemma StartOrders(price: int, limit: int)
    requires 0 < price < limit
    ensures OrdersOk(Start(price, limit)) && InflightOk(Start(price, limit)) && AccountsOk(Start(price, limit))
    ensures forall id | id in Start(price, limit).orders :: Rests(Start(price, limit), id)
  {
    hide Resting;
    StartResting(price, limit, 1, Yes, Sell);
  }

  lemma StartLocks(price: int, limit: int, user: Id)
    ensures CashSlack(Start(price, limit), user) == 0
  {
    var s := Start(price, limit);
    var w := BuyWeights(s.orders, user);
    assert w == map[1 := 0, 2 := if user == 2 then 2 * limit else 0, 3 := 0];
    Sums.Remove(w, 2);
    Sums.Zero(w - {2});
  }

  lemma StartOk(price: int, limit: int)
    requires 0 < price < limit
    ensures Ready(Start(price, limit), 2) && Window.Waiting(Start(price, limit), 3)
    ensures CashOk(Start(price, limit), [], {})
  {
    hide QueueOk, Uncrossed, OrdersOk, InflightOk, AccountsOk, Rests, CashSlack;
    var s := Start(price, limit);
    StartOrders(price, limit);
    forall event, outcome, side ensures QueueOk(s, event, outcome, side) {
      StartQueue(price, limit, event, outcome, side);
    }
    forall event, outcome ensures Uncrossed(s, event, outcome) {
      StartUncrossed(price, limit, event, outcome);
    }
    forall user: Id ensures CashSlack(s, user) >= 0 {
      StartLocks(price, limit, user);
    }
    IsReady(s, 2);
  }

  /** The bid buys the one share for sale, at its price. */
  lemma FirstTrade(price: int, limit: int)
    requires 0 < price < limit && Matchable(Start(price, limit), 2)
    ensures TradesOf(Start(price, limit), 2) == [BuildTrade(Bid(limit).terms, Ask(price).terms, 1, 0)]
  {
    hide DropStale, FirstEligible, Resting, TryPair;
    var s := Start(price, limit);
    StartResting(price, limit, 1, Yes, Sell);
    Budget.SinglePair(s.orders, 1, 2, 0);
    PairEffect(s.orders, [1], 2, 0);
    var a := TryPair(s.orders, [1], 2, 0);
    PairEmpties(s.orders, 1, 2, 0);
    EmptyQueue(a.orders, 2, 1);
  }

  /** A round that fills the only queued order leaves an empty queue. */
  lemma PairEmpties(orders: Orders, r: Id, inc: Id, next: nat)
    requires inc in orders && r in orders && TryPair(orders, [r], inc, next).Pair?
    requires orders[r].remaining <= orders[inc].remaining
    ensures TryPair(orders, [r], inc, next).queue == []
  {
    hide DropStale, FirstEligible, Eligible, Stale;
    var live := DropStale(orders, [r]);
    var i := FirstEligible(orders, live, inc);
    assert i == 0 && live == [r];
    assert RemoveAt(live, 0) == [];
  }

  lemma EmptyQueue(orders: Orders, inc: Id, next: nat)
    requires inc in orders
    ensures MatchLoop(orders, [], inc, next).trades == []
  {
  }

  /** After its own match the bid rests with one share to go, and its lock is above that share's worth. */
  lemma Halfway(price: int, limit: int)
    requires 0 < price < limit
    ensures Ready(Start(price, limit), 2)
    ensures var s1 := Match(Start(price, limit), 2);
            && Wf(s1) && CashOk(s1, [], {}) && Window.Waiting(s1, 3) && s1.orders[3] == Sale(limit)
            && s1.orders.Keys == {1, 2, 3} && s1.orders[1].terms == Ask(price).terms && s1.orders[2].terms == Bid(limit).terms
            && s1.orders[2].remaining == 1 && s1.orders[2].filled == 1 && s1.orders[2].locked == 2 * limit - price
            && 2 in Resting(s1, 1, Yes, Buy)
  {
    hide MatchLoop, Match, TradesOf, QueueOk, Rests, Uncrossed, AccountsOk, CashOk, Matchable, OrdersOk, InflightOk, Resting;
    var s := Start(price, limit);
    StartOk(price, limit);
    FirstTrade(price, limit);
    MatchWf(s, 2);
    MatchCash(s, 2);
    Window.MatchWaiting(s, 2, 3);
    MatchFills(s, 2, 2);
    MatchTerms(s, 2, 1);
    MatchTerms(s, 2, 2);
    MatchOutcome(s, 2);
    OneTrade(price, limit);
    HalfwayFields(Match(s, 2), limit);
    TakerLock(s, 2);
  }

  lemma OneTrade(price: int, limit: int)
    ensures var trades := [BuildTrade(Bid(limit).terms, Ask(price).terms, 1, 0)];
            Quantity(trades, 2) == 1 && Spend(trades, 2) == price
  {
    var trades := [BuildTrade(Bid(limit).terms, Ask(price).terms, 1, 0)];
    assert trades[1..] == [];
  }

  lemma HalfwayFields(s: State, limit: int)
    requires Wf(s) && 2 in s.orders && s.orders[2].terms == Bid(limit).terms && s.orders[2].filled == 1
    ensures s.orders[2].remaining == 1
  {
    hide QueueOk, Rests, Uncrossed, AccountsOk;
    assert OrderOk(s.orders[2]);
  }

  /** The sale meets the bid, the only order on the other side, and fills it. */
  lemma SecondMatch(s: State, limit: int)
    requires Wf(s) && Window.Waiting(s, 3) && s.orders.Keys == {1, 2, 3}
    requires s.orders[3] == Sale(limit) && s.orders[1].terms.side.Sell? && s.orders[2].terms == Bid(limit).terms
    requires s.orders[2].remaining == 1 && 2 in Resting(s, 1, Yes, Buy)
    ensures Ready(s, 3)
    ensures |TradesOf(s, 3)| > 0 && Quantity(TradesOf(s, 3), 2) == 1
  {
    hide MatchLoop, Match, Traded, TradesOf, Rests, Uncrossed, AccountsOk, OrderOk, Resting, Liquidity;
    IsReady(s, 3);
    var t := s.orders[3].terms;
    assert QueueOk(s, 1, Yes, Buy);
    QueueMember(s, 1, Yes, Buy, 2);
    MatchFillsMaximally(s, 3);
    TradedQuantity(s, 3, 3);
    EnoughLiquidity(s, limit);
    forall i | 0 <= i < |TradesOf(s, 3)| ensures TradesOf(s, 3)[i].taker == 3 && TradesOf(s, 3)[i].maker == 2 {
      TradeSound(s, 3, i);
      QueueMember(s, 1, Yes, Buy, TradesOf(s, 3)[i].maker);
    }
    BothSides(TradesOf(s, 3));
  }

  lemma EnoughLiquidity(s: State, limit: int)
    requires 2 in s.orders && 3 in s.orders && s.orders[3].terms == Sale(limit).terms && s.orders[2].terms == Bid(limit).terms
    requires s.orders[2].remaining == 1 && Belongs(s, 2, 1, Yes, Buy)
    ensures Liquidity(s.orders, Pool(s, s.orders[3].terms), 3) >= 1
  {
    var w := Weights(s.orders, Pool(s, s.orders[3].terms), 3);
    assert Eligible(s.orders, 2, 3);
    forall x | x in w ensures w[x] >= 0 {
    }
    Sums.AtMostSum(w, 2);
  }

  lemma {:induction false} BothSides(trades: seq<Trade>)
    requires forall i :: 0 <= i < |trades| ==> trades[i].taker == 3 && trades[i].maker == 2
    ensures Quantity(trades, 2) == Quantity(trades, 3)
  {
    if trades != [] {
      BothSides(trades[1..]);
    }
  }

  /**
   For every price below every limit, from a well-formed state in budget: the bid ends
   filled, with the difference of limit and price still locked. The last trade's rows
   carry each the other user's order.
   */
  lemma SurplusRemains(price: int, limit: int)
    requires 0 < price < limit
    ensures Wf(Start(price, limit)) && CashOk(Start(price, limit), [], {})
    ensures IsRun(Start(price, limit), [MatchNow(2), MatchNow(3)])
    ensures var last := Run(Start(price, limit), [MatchNow(2), MatchNow(3)]);
            2 in last.orders && last.orders[2].status.Filled? && last.orders[2].locked == limit - price
    ensures var s1 := Match(Start(price, limit), 2);
            && Ready(s1, 3) && |TradesOf(s1, 3)| > 0
            && var t := TradesOf(s1, 3)[0];
               && BuyerRow(t).order in s1.orders && s1.orders[BuyerRow(t).order].terms.user != t.buyer
               && SellerRow(t).order in s1.orders && s1.orders[SellerRow(t).order].terms.user != t.seller
  {
    hide MatchLoop, Match, TradesOf, Matchable, QueueOk, Rests, Uncrossed, AccountsOk, CashOk, Start, Resting, BuyerRow, SellerRow;
    var s := Start(price, limit);
    StartOk(price, limit);
    Halfway(price, limit);
    var s1 := Match(s, 2);
    SecondMatch(s1, limit);
    MakerLock(s1, 3, 2);
    MatchFills(s1, 3, 2);
    MatchWf(s1, 3);
    MatchTerms(s1, 3, 2);
    assert OrderOk(Match(s1, 3).orders[2]);
    RowsCarryOwnOrders(s1, 3, 0);
    TwoMatches(s);
  }

  lemma TwoMatches(s: State)
    requires Enabled(s, MatchNow(2)) && Enabled(Match(s, 2), MatchNow(3))
    ensures IsRun(s, [MatchNow(2), MatchNow(3)])
    ensures Run(s, [MatchNow(2), MatchNow(3)]) == Match(Match(s, 2), 3)
  {
    hide Match, Matchable;
    var steps := [MatchNow(2), MatchNow(3)];
    assert steps[1..] == [MatchNow(3)] && [MatchNow(3)][1..] == [];
  }
}
