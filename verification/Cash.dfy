/**
 Cash reservations. In runs where every market BUY executes within its lock,
 reserved cash covers the locks of BUY orders, a live limit BUY locks at least
 its remainder at its limit price, and cash is neither created nor destroyed.
 */
module Cash {
  import opened Types
  import opened Matching
  import opened EngineState
  import opened Invariant
  import opened StepInvariant
  import opened MatchInvariant
  import opened Shares
  import Sums

  // ---------------------------------------------------------------------
  // Sums
  // ---------------------------------------------------------------------

  /** What an order locks of one user's cash. */
  function BuyLock(o: Order, user: Id): int {
    if o.terms.side.Buy? && o.terms.user == user then o.locked else 0
  }

  ghost function BuyWeights(orders: Orders, user: Id): map<Id, int> {
    map id | id in orders :: BuyLock(orders[id], user)
  }

  /** The total locked of one user's cash by all orders. */
  ghost function BuyLocks(orders: Orders, user: Id): int {
    Sums.Sum(BuyWeights(orders, user))
  }

  lemma BuyLocksSet(orders: Orders, id: Id, o: Order, user: Id)
    ensures BuyLocks(orders[id := o], user)
         == BuyLocks(orders, user) + BuyLock(o, user) - (if id in orders then BuyLock(orders[id], user) else 0)
  {
    assert BuyWeights(orders[id := o], user) == BuyWeights(orders, user)[id := BuyLock(o, user)];
    Sums.Update(BuyWeights(orders, user), id, BuyLock(o, user));
  }

  /** Reserved cash that no order's lock accounts for. */
  ghost function CashSlack(s: State, user: Id): int {
    Get(s.balances, user).reserved - BuyLocks(s.orders, user)
  }

  ghost function CashWeights(balances: map<Id, Holding>): map<Id, int> {
    map u | u in balances :: balances[u].Total()
  }

  /** All cash in the engine. */
  ghost function CashTotal(balances: map<Id, Holding>): int {
    Sums.Sum(CashWeights(balances))
  }

  /** A change of one holding's total by d changes the cash total by d. */
  lemma CashTotalShift(balances: map<Id, Holding>, user: Id, h: Holding, d: int)
    requires h.Total() == Get(balances, user).Total() + d
    ensures CashTotal(balances[user := h]) == CashTotal(balances) + d
  {
    assert CashWeights(balances[user := h]) == CashWeights(balances)[user := h.Total()];
    Sums.Update(CashWeights(balances), user, h.Total());
  }

  /** What trades spend on behalf of one BUY order. */
  function Spend(trades: seq<Trade>, id: Id): int {
    if trades == [] then 0
    else (if trades[0].BuyOrder() == id then trades[0].Cost() else 0) + Spend(trades[1..], id)
  }

  lemma SpendFirst(t: Trade, pending: seq<Trade>, id: Id)
    ensures Spend([t] + pending, id) == Spend(pending, id) + (if t.BuyOrder() == id then t.Cost() else 0)
  {
    assert ([t] + pending)[1..] == pending;
  }

  lemma {:induction false} SpendNonNegative(pending: seq<Trade>, id: Id)
    requires forall i :: 0 <= i < |pending| ==> Sound(pending[i])
    ensures Spend(pending, id) >= 0
  {
    if pending != [] {
      CostPositive(pending[0]);
      SpendNonNegative(pending[1..], id);
    }
  }

  // ---------------------------------------------------------------------
  // The reservation invariant, with trades still to be settled
  // ---------------------------------------------------------------------

  /** The cash a BUY still has to protect; a market BUY protects only what it spends. */
  function CashNeed(o: Order, hot: bool): int {
    if o.terms.kind.Market? || (o.status.Canceled? && !hot) then 0 else o.remaining * o.terms.price
  }

  ghost predicate BuyOk(s: State, pending: seq<Trade>, hot: set<Id>, id: Id)
    requires id in s.orders
  {
    s.orders[id].terms.side.Buy? ==>
      && s.orders[id].locked >= CashNeed(s.orders[id], id in hot) + Spend(pending, id)
      && (s.orders[id].status.Canceled? && id !in hot ==> s.orders[id].locked == 0)
  }

  ghost predicate CashOk(s: State, pending: seq<Trade>, hot: set<Id>) {
    && (forall id | id in s.orders :: BuyOk(s, pending, hot, id))
    && (forall user: Id :: CashSlack(s, user) >= 0)
  }

  /** Slack of every user and the cash total are the same. */
  ghost predicate SameCash(s: State, s': State) {
    && (forall user: Id :: CashSlack(s', user) == CashSlack(s, user))
    && CashTotal(s'.balances) == CashTotal(s.balances)
  }

  /** Reserved cash covers any one order's lock. */
  lemma ReservedCashCovers(s: State, id: Id)
    requires OrdersOk(s) && id in s.orders && s.orders[id].terms.side.Buy?
    requires CashSlack(s, s.orders[id].terms.user) >= 0
    ensures Get(s.balances, s.orders[id].terms.user).reserved >= s.orders[id].locked
  {
    var user := s.orders[id].terms.user;
    var w := BuyWeights(s.orders, user);
    forall x | x in w ensures w[x] >= 0 {
      assert OrderOk(s.orders[x]);
    }
    Sums.AtMostSum(w, id);
    assert w[id] == s.orders[id].locked;
  }

  // ---------------------------------------------------------------------
  // Settlement
  // ---------------------------------------------------------------------

  lemma SettleBuyLocks(s: State, t: Trade, user: Id)
    requires Settleable(s.orders, t) && s.orders[t.BuyOrder()].locked >= t.Cost()
    ensures BuyLocks(Settle(s, t).orders, user)
         == BuyLocks(s.orders, user) - (if user == t.buyer then t.Cost() else 0)
  {
    hide Settle;
    SettleOrders(s, t);
    var b, a := s.orders[t.BuyOrder()], s.orders[t.SellOrder()];
    var b' := b.(locked := Clamp(b.locked - t.Cost()));
    BuyLocksSet(s.orders, t.BuyOrder(), b', user);
    BuyLocksSet(s.orders[t.BuyOrder() := b'], t.SellOrder(), a.(locked := Clamp(a.locked - t.quantity)), user);
  }

  lemma SettleBalance(s: State, t: Trade, user: Id)
    requires Sound(t)
    ensures Get(Settle(s, t).balances, user) ==
            if user == t.buyer then TakeReserved(Get(s.balances, user), t.Cost())
            else if user == t.seller then Credit(Get(s.balances, user), t.Cost())
            else Get(s.balances, user)
  {
  }

  /** Paying a seller from a buyer's reserved cash keeps the total. */
  lemma MoveCash(balances: map<Id, Holding>, buyer: Id, seller: Id, cost: int)
    requires buyer != seller && Get(balances, buyer).reserved >= cost
    ensures var b1 := balances[buyer := TakeReserved(Get(balances, buyer), cost)];
            CashTotal(b1[seller := Credit(Get(b1, seller), cost)]) == CashTotal(balances)
  {
    hide CashTotal, Get;
    var h := Get(balances, buyer);
    assert TakeReserved(h, cost) == Holding(h.available, h.reserved - cost);
    CashTotalShift(balances, buyer, TakeReserved(h, cost), -cost);
    var b1 := balances[buyer := TakeReserved(h, cost)];
    CashTotalShift(b1, seller, Credit(Get(b1, seller), cost), cost);
  }

  lemma SettleCashTotal(s: State, t: Trade)
    requires Sound(t) && Get(s.balances, t.buyer).reserved >= t.Cost()
    ensures CashTotal(Settle(s, t).balances) == CashTotal(s.balances)
  {
    hide CashTotal;
    MoveCash(s.balances, t.buyer, t.seller, t.Cost());
  }

  /** The buyer's reserved cash and the buying order's lock cover the trade. */
  lemma BuyerCovered(s: State, t: Trade, pending: seq<Trade>, hot: set<Id>)
    requires OrdersOk(s) && Settleable(s.orders, t) && CashOk(s, [t] + pending, hot)
    requires forall i :: 0 <= i < |pending| ==> Sound(pending[i])
    ensures Get(s.balances, t.buyer).reserved >= s.orders[t.BuyOrder()].locked >= t.Cost()
  {
    var id := t.BuyOrder();
    assert BuyOk(s, [t] + pending, hot, id);
    assert OrderOk(s.orders[id]);
    SpendFirst(t, pending, id);
    SpendNonNegative(pending, id);
    ReservedCashCovers(s, id);
  }

  lemma SettleBuyOk(s: State, t: Trade, pending: seq<Trade>, hot: set<Id>, x: Id)
    requires OrdersOk(s) && Settleable(s.orders, t) && CashOk(s, [t] + pending, hot) && x in s.orders
    requires s.orders[t.BuyOrder()].locked >= t.Cost()
    ensures BuyOk(Settle(s, t), pending, hot, x)
  {
    hide Settle;
    assert BuyOk(s, [t] + pending, hot, x);
    SettleLock(s, t, x);
    SpendFirst(t, pending, x);
    CostPositive(t);
  }

  /** Settling one trade moves exactly its cost; no clamp on the cash side fires. */
  lemma SettleCash(s: State, t: Trade, pending: seq<Trade>, hot: set<Id>)
    requires OrdersOk(s) && Settleable(s.orders, t) && CashOk(s, [t] + pending, hot)
    requires forall i :: 0 <= i < |pending| ==> Sound(pending[i])
    ensures CashOk(Settle(s, t), pending, hot) && SameCash(s, Settle(s, t))
    ensures Get(s.balances, t.buyer).reserved >= t.Cost()
    ensures s.orders[t.BuyOrder()].locked >= t.Cost()
  {
    hide Settle, Settleable;
    var s' := Settle(s, t);
    BuyerCovered(s, t, pending, hot);
    SettleableSound(s.orders, t);
    SettleableBuyer(s.orders, t);
    forall user: Id ensures CashSlack(s', user) == CashSlack(s, user) {
      SettleBuyLocks(s, t, user);
      SettleBalance(s, t, user);
    }
    SettleCashTotal(s, t);
    forall x | x in s'.orders ensures BuyOk(s', pending, hot, x) {
      SettleBuyOk(s, t, pending, hot, x);
    }
  }

  lemma SettleableBuyer(orders: Orders, t: Trade)
    requires Settleable(orders, t)
    ensures t.BuyOrder() in orders && orders[t.BuyOrder()].terms.user == t.buyer
  {
  }

  /** Settling a whole match keeps every user's slack and the total. */
  lemma {:induction false} SettleAllCash(s: State, trades: seq<Trade>, hot: set<Id>)
    requires OrdersOk(s) && AllSettleable(s.orders, trades) && CashOk(s, trades, hot)
    ensures CashOk(SettleAll(s, trades), [], hot) && SameCash(s, SettleAll(s, trades))
    decreases trades
  {
    hide Settle, OrdersOk, Settleable, BuyOk;
    if trades != [] {
      var t, rest := trades[0], trades[1..];
      assert trades == [t] + rest;
      assert Settleable(s.orders, t);
      forall i | 0 <= i < |rest| ensures Sound(rest[i]) && Settleable(s.orders, rest[i]) {
        assert Settleable(s.orders, trades[i + 1]);
        SettleableSound(s.orders, trades[i + 1]);
      }
      SettleCash(s, t, rest, hot);
      SettleSameButLocks(s, t);
      SettleKeepsSettleable(s, t, rest);
      SettleAllCash(Settle(s, t), rest, hot);
    }
  }

  // ---------------------------------------------------------------------
  // Release
  // ---------------------------------------------------------------------

  lemma ReleaseBuyOk(s: State, id: Id, x: Id)
    requires OrdersOk(s) && id in s.orders && CashOk(s, [], {id}) && x in s.orders
    requires s.orders[id].status.Filled? || s.orders[id].status.Canceled?
    ensures BuyOk(Release(s, id), [], {}, x)
  {
    assert BuyOk(s, [], {id}, x);
    assert OrderOk(s.orders[x]);
  }

  /** Releasing a finished order returns its lock and keeps the invariant. */
  lemma ReleaseCash(s: State, id: Id)
    requires OrdersOk(s) && id in s.orders && CashOk(s, [], {id})
    requires s.orders[id].status.Filled? || s.orders[id].status.Canceled?
    ensures CashOk(Release(s, id), [], {}) && SameCash(s, Release(s, id))
  {
    hide BuyOk, CashTotal;
    var o := s.orders[id];
    var s' := Release(s, id);
    forall x | x in s'.orders ensures BuyOk(s', [], {}, x) {
      ReleaseBuyOk(s, id, x);
    }
    if o.locked > 0 && o.terms.side.Buy? {
      ReservedCashCovers(s, id);
      CashTotalShift(s.balances, o.terms.user, Unfreeze(Get(s.balances, o.terms.user), o.locked), 0);
    }
    forall user: Id ensures CashSlack(s', user) == CashSlack(s, user) {
      BuyLocksSet(s.orders, id, o.(locked := 0), user);
    }
  }

  // ---------------------------------------------------------------------
  // Steps
  // ---------------------------------------------------------------------

  /** The cash an order locks when it is admitted. */
  function LockedCash(r: Reservation, t: Terms): int {
    if r.Reserved? && t.side.Buy? then r.lock else 0
  }

  lemma ReserveReservedCash(s: State, t: Terms, user: Id)
    ensures var r := Reserve(s, t);
            Get(r.state.balances, user).reserved
            == Get(s.balances, user).reserved + (if user == t.user then LockedCash(r, t) else 0)
  {
  }

  lemma ReserveCashTotal(s: State, t: Terms)
    ensures CashTotal(Reserve(s, t).state.balances) == CashTotal(s.balances)
  {
    hide CashTotal, Get;
    if t.side.Buy? {
      var h := Get(s.balances, t.user);
      var cost := if t.kind.Market? then h.available else t.quantity * t.price;
      CashTotalShift(s.balances, t.user, h, 0);
      CashTotalShift(s.balances, t.user, Holding(h.available - cost, h.reserved + cost), 0);
    }
  }

  /** A BUY locks its quantity at its limit, or everything available for a market order. */
  lemma ReserveBuyLock(s: State, t: Terms)
    requires AccountsOk(s)
    ensures t.side.Buy? && Reserve(s, t).Reserved? ==>
              Reserve(s, t).lock == (if t.kind.Market? then Get(s.balances, t.user).available else t.quantity * t.price)
    ensures t.side.Buy? && t.kind.Market? && Reserve(s, t).Reserved? ==> Reserve(s, t).lock >= 0
  {
    assert Get(s.balances, t.user).Solvent();
  }

  lemma AdmitCash(s: State, r: Request, freshId: Id)
    requires Wf(s) && CashOk(s, [], {})
    ensures CashOk(Admit(s, r, freshId).state, [], {}) && SameCash(s, Admit(s, r, freshId).state)
  {
    hide Validate, QueueOk, Rests, Uncrossed, AccountsOk, Reserve, CashTotal, BuyLocks;
    var a := Admit(s, r, freshId);
    var s' := a.state;
    var v := Validate(r, OrderId(r, freshId));
    if v.Ok? {
      ReserveBooks(s, v.value);
      ReserveBuyLock(s, v.value);
      ReserveCashTotal(s, v.value);
    }
    forall x | x in s'.orders ensures BuyOk(s', [], {}, x) {
      if x in s.orders {
        assert BuyOk(s, [], {}, x);
      }
    }
    forall user: Id ensures CashSlack(s', user) == CashSlack(s, user) {
      if v.Ok? {
        ReserveReservedCash(s, v.value, user);
      }
      if a.Admitted? {
        BuyLocksSet(s.orders, OrderId(r, freshId), a.order, user);
      }
    }
  }

  /** A failed emit loses the order and leaves its lock as slack. */
  lemma EmitFailsCash(s: State, id: Id)
    requires Wf(s) && id in s.inflight && CashOk(s, [], {})
    ensures CashOk(EmitFails(s, id), [], {})
    ensures forall user: Id :: CashSlack(EmitFails(s, id), user) == CashSlack(s, user) + BuyLock(s.orders[id], user)
  {
    var s' := EmitFails(s, id);
    assert OrderOk(s.orders[id]);
    forall x | x in s'.orders ensures BuyOk(s', [], {}, x) {
      assert BuyOk(s, [], {}, x);
    }
    forall user: Id ensures CashSlack(s', user) == CashSlack(s, user) + BuyLock(s.orders[id], user) {
      assert BuyWeights(s'.orders, user) == BuyWeights(s.orders, user) - {id};
      Sums.Remove(BuyWeights(s.orders, user), id);
    }
  }

  lemma WithdrawnCash(s: State, id: Id)
    requires Wf(s) && id in s.orders && s.orders[id].Live() && CashOk(s, [], {})
    ensures CashOk(Withdrawn(s, id), [], {id}) && SameCash(s, Withdrawn(s, id))
  {
    hide QueueOk, Rests, Uncrossed, AccountsOk, RemoveId;
    var s' := Withdrawn(s, id);
    forall x | x in s'.orders ensures BuyOk(s', [], {id}, x) {
      assert BuyOk(s, [], {}, x);
    }
    forall user: Id ensures CashSlack(s', user) == CashSlack(s, user) {
      BuyLocksSet(s.orders, id, s.orders[id].(status := Canceled), user);
    }
  }

  lemma CancelCash(s: State, id: Id, event: Id)
    requires Wf(s) && CashOk(s, [], {})
    ensures CashOk(Cancel(s, id, event).state, [], {}) && SameCash(s, Cancel(s, id, event).state)
  {
    hide CashOk, Release, QueueOk, Rests, Uncrossed, AccountsOk;
    if Cancel(s, id, event).result.Ok? {
      WithdrawnWf(s, id);
      WithdrawnCash(s, id);
      ReleaseCash(Withdrawn(s, id), id);
    }
  }

  // ---------------------------------------------------------------------
  // Matching within budget
  // ---------------------------------------------------------------------

  /** A market BUY spends at most what it locked. */
  ghost predicate InBudget(s: State, id: Id)
    requires Matchable(s, id)
  {
    s.orders[id].terms.side.Buy? && s.orders[id].terms.kind.Market? ==>
      Spend(TradesOf(s, id), id) <= s.orders[id].locked
  }

  /** A limit BUY spends at most its limit price per share. */
  lemma {:induction false} SpendWithinLimit(orders: Orders, trades: seq<Trade>, id: Id)
    requires id in orders && orders[id].terms.side.Buy? && orders[id].terms.kind.Limit?
    requires AllSettleable(orders, trades)
    ensures Spend(trades, id) <= Quantity(trades, id) * orders[id].terms.price
  {
    if trades != [] {
      var t, price := trades[0], orders[id].terms.price;
      assert Settleable(orders, t);
      forall i | 0 <= i < |trades[1..]| ensures Settleable(orders, trades[1..][i]) {
        assert Settleable(orders, trades[i + 1]);
      }
      SpendWithinLimit(orders, trades[1..], id);
      var n := Quantity(trades[1..], id);
      if t.BuyOrder() == id {
        ScaleByPrice(t.quantity, t.price, price);
        assert (t.quantity + n) * price == t.quantity * price + n * price;
      } else {
        assert !t.Names(id);
      }
    }
  }

  lemma ScaleByPrice(n: int, p: int, limit: int)
    requires n > 0 && p <= limit
    ensures n * p <= n * limit
  {
  }

  /** Only the buying side of a trade spends. */
  lemma {:induction false} SpendOfUnnamed(trades: seq<Trade>, id: Id)
    requires forall i :: 0 <= i < |trades| ==> Sound(trades[i])
    requires Quantity(trades, id) == 0
    ensures Spend(trades, id) == 0
  {
    if trades != [] {
      QuantityNonNegative(trades[1..], id);
      SpendOfUnnamed(trades[1..], id);
    }
  }

  lemma TradesSound(s: State, id: Id)
    requires Ready(s, id)
    ensures forall i :: 0 <= i < |TradesOf(s, id)| ==> Sound(TradesOf(s, id)[i])
  {
    hide TradesOf, Sound;
    forall i | 0 <= i < |TradesOf(s, id)| ensures Sound(TradesOf(s, id)[i]) {
      TradeSound(s, id, i);
    }
  }

  /** A market order other than the one being matched does not trade. */
  lemma OtherMarketIdle(s: State, id: Id, x: Id)
    requires Ready(s, id) && x in s.orders && x != id && s.orders[x].terms.kind.Market?
    ensures Spend(TradesOf(s, id), x) == 0
  {
    hide MatchLoop, Traded, TradesOf;
    var t := s.orders[id].terms;
    assert QueueOk(s, t.event, t.outcome, t.side.Opposite());
    if x in Facing(s, t) {
      QueueMember(s, t.event, t.outcome, t.side.Opposite(), x);
    }
    TradedOther(s, id, x);
    TradedQuantity(s, id, x);
    TradesSound(s, id);
    SpendOfUnnamed(TradesOf(s, id), x);
  }

  /** After the loop, every BUY locks its remainder at its limit and what its trades will cost. */
  lemma TradedBuyOk(s: State, id: Id, x: Id)
    requires Ready(s, id) && CashOk(s, [], {}) && InBudget(s, id) && x in s.orders
    ensures BuyOk(Traded(s, id), TradesOf(s, id), {id}, x)
  {
    hide MatchLoop, Traded, TradesOf, Wf;
    var s', trades := Traded(s, id), TradesOf(s, id);
    var o, o' := s.orders[x], s'.orders[x];
    TradedOrder(s, id, x);
    TradedQuantity(s, id, x);
    assert BuyOk(s, [], {}, x);
    if x != id {
      TradedCanceled(s, id, x);
    }
    if o.terms.side.Buy? {
      if o.terms.kind.Market? {
        if x != id {
          OtherMarketIdle(s, id, x);
        }
      } else {
        TradesSettleable(s, id);
        SpendWithinLimit(s.orders, trades, x);
        var n, p := Quantity(trades, x), o.terms.price;
        assert o'.remaining * p + n * p == o.remaining * p;
        if o.status.Canceled? {
          TradesSound(s, id);
          SpendOfUnnamed(trades, x);
        }
      }
    }
  }

  lemma TradedCash(s: State, id: Id)
    requires Ready(s, id) && CashOk(s, [], {}) && InBudget(s, id)
    ensures CashOk(Traded(s, id), TradesOf(s, id), {id}) && SameCash(s, Traded(s, id))
  {
    hide MatchLoop, Traded, TradesOf, Wf, BuyOk, InBudget;
    var s' := Traded(s, id);
    TradedFields(s, id);
    forall x | x in s'.orders ensures BuyOk(s', TradesOf(s, id), {id}, x) {
      TradedBuyOk(s, id, x);
    }
    forall user: Id ensures CashSlack(s', user) == CashSlack(s, user) {
      forall x | x in s.orders ensures BuyLock(s'.orders[x], user) == BuyLock(s.orders[x], user) {
        TradedOrder(s, id, x);
      }
      assert BuyWeights(s'.orders, user) == BuyWeights(s.orders, user);
    }
  }

  /** Matching within budget keeps every user's slack and the cash total. */
  lemma MatchCash(s: State, id: Id)
    requires Wf(s) && id in s.inflight && CashOk(s, [], {})
    requires Matchable(s, id) && Keyed(s.orders) && InBudget(s, id)
    ensures CashOk(Match(s, id), [], {}) && SameCash(s, Match(s, id))
  {
    hide MatchLoop, Traded, CashOk, QueueOk, Rests, Uncrossed, AccountsOk, Settle, Release, OrderOk, InBudget;
    if s.orders[id].status.Pending? {
      IsReady(s, id);
      TradedCash(s, id);
      TradedSettleable(s, id);
      TradedWf(s, id);
      var s1 := Traded(s, id);
      SettleAllCash(s1, TradesOf(s, id), {id});
      SettleAllSameButLocks(s1, TradesOf(s, id));
      var s2 := SettleAll(s1, TradesOf(s, id));
      if s2.orders[id].status.Filled? || s2.orders[id].status.Canceled? {
        ReleaseCash(s2, id);
      } else {
        CoolCash(s2, id);
      }
    } else {
      OpenCash(s, s.(inflight := s.inflight - {id}));
    }
  }

  lemma CoolCash(s: State, id: Id)
    requires CashOk(s, [], {id}) && id in s.orders && !s.orders[id].status.Canceled?
    ensures CashOk(s, [], {})
  {
    forall x | x in s.orders ensures BuyOk(s, [], {}, x) {
      assert BuyOk(s, [], {id}, x);
    }
  }

  /** A step that leaves orders and balances alone. */
  lemma OpenCash(s: State, s': State)
    requires CashOk(s, [], {}) && s'.orders == s.orders && s'.balances == s.balances
    ensures CashOk(s', [], {}) && SameCash(s, s')
  {
    forall x | x in s'.orders ensures BuyOk(s', [], {}, x) {
      assert BuyOk(s, [], {}, x);
    }
    forall user: Id ensures CashSlack(s', user) == CashSlack(s, user) {
    }
  }

  /** Opening an account adds exactly the starting balance, and only the first time. */
  lemma UserCreatedCash(s: State, user: Id)
    requires CashOk(s, [], {})
    ensures var s' := UserCreated(s, user);
            && CashOk(s', [], {})
            && (forall u: Id :: CashSlack(s', u) == CashSlack(s, u))
            && CashTotal(s'.balances) == CashTotal(s.balances)
                 + (if user != NO_ID && user !in s.balances then DEFAULT_STARTING_BALANCE else 0)
  {
    var s' := UserCreated(s, user);
    forall x | x in s'.orders ensures BuyOk(s', [], {}, x) {
      assert BuyOk(s, [], {}, x);
    }
    forall u: Id ensures CashSlack(s', u) == CashSlack(s, u) {
    }
    if user != NO_ID && user !in s.balances {
      CashTotalShift(s.balances, user, Holding(DEFAULT_STARTING_BALANCE, 0), DEFAULT_STARTING_BALANCE);
    }
  }
}
