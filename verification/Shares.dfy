/**
 Share reservations. Reserved shares always cover the locks of SELL orders, a
 live SELL locks exactly its remainder, and no step of the engine creates or
 destroys shares. This needs no budget condition.
 */
module Shares {
  import opened Types
  import opened Matching
  import opened EngineState
  import opened Invariant
  import opened StepInvariant
  import opened MatchInvariant
  import Sums

  // ---------------------------------------------------------------------
  // Sums
  // ---------------------------------------------------------------------

  /** What an order locks of one position. */
  function SellLock(o: Order, key: PositionKey): int {
    if o.terms.side.Sell? && KeyOf(o.terms) == key then o.locked else 0
  }

  ghost function SellWeights(orders: Orders, key: PositionKey): map<Id, int> {
    map id | id in orders :: SellLock(orders[id], key)
  }

  /** The total locked of one position by all orders. */
  ghost function SellLocks(orders: Orders, key: PositionKey): int {
    Sums.Sum(SellWeights(orders, key))
  }

  lemma SellLocksSet(orders: Orders, id: Id, o: Order, key: PositionKey)
    ensures SellLocks(orders[id := o], key)
         == SellLocks(orders, key) + SellLock(o, key) - (if id in orders then SellLock(orders[id], key) else 0)
  {
    assert SellWeights(orders[id := o], key) == SellWeights(orders, key)[id := SellLock(o, key)];
    Sums.Update(SellWeights(orders, key), id, SellLock(o, key));
  }

  /** Reserved shares that no order's lock accounts for. */
  ghost function ShareSlack(s: State, key: PositionKey): int {
    Get(s.positions, key).reserved - SellLocks(s.orders, key)
  }

  function Counted(key: PositionKey, event: Id, outcome: Outcome, h: Holding): int {
    if key.event == event && key.outcome == outcome then h.Total() else 0
  }

  ghost function ShareWeights(positions: map<PositionKey, Holding>, event: Id, outcome: Outcome): map<PositionKey, int> {
    map key | key in positions :: Counted(key, event, outcome, positions[key])
  }

  /** All shares of one outcome of one event. */
  ghost function ShareTotal(positions: map<PositionKey, Holding>, event: Id, outcome: Outcome): int {
    Sums.Sum(ShareWeights(positions, event, outcome))
  }

  lemma ShareTotalSet(positions: map<PositionKey, Holding>, key: PositionKey, h: Holding, event: Id, outcome: Outcome)
    ensures ShareTotal(positions[key := h], event, outcome)
         == ShareTotal(positions, event, outcome)
            + Counted(key, event, outcome, h) - Counted(key, event, outcome, Get(positions, key))
  {
    var w := ShareWeights(positions, event, outcome);
    assert ShareWeights(positions[key := h], event, outcome) == w[key := Counted(key, event, outcome, h)];
    Sums.Update(w, key, Counted(key, event, outcome, h));
  }

  // ---------------------------------------------------------------------
  // The reservation invariant, with trades still to be settled
  // ---------------------------------------------------------------------

  /** The shares an order still has to protect; hot marks an order about to be released. */
  function ShareNeed(o: Order, hot: bool): int {
    if o.status.Canceled? && !hot then 0 else o.remaining
  }

  ghost predicate SellOk(s: State, pending: seq<Trade>, hot: set<Id>, id: Id)
    requires id in s.orders
  {
    s.orders[id].terms.side.Sell? ==>
      s.orders[id].locked == ShareNeed(s.orders[id], id in hot) + Quantity(pending, id)
  }

  ghost predicate SharesOk(s: State, pending: seq<Trade>, hot: set<Id>) {
    && (forall id | id in s.orders :: SellOk(s, pending, hot, id))
    && (forall key: PositionKey :: ShareSlack(s, key) >= 0)
  }

  /** Slack and totals of every position are the same. */
  ghost predicate SameShares(s: State, s': State) {
    && (forall key: PositionKey :: ShareSlack(s', key) == ShareSlack(s, key))
    && (forall event, outcome :: ShareTotal(s'.positions, event, outcome) == ShareTotal(s.positions, event, outcome))
  }

  /** Reserved shares cover any one order's lock. */
  lemma ReservedCovers(s: State, id: Id)
    requires OrdersOk(s) && id in s.orders && s.orders[id].terms.side.Sell?
    requires ShareSlack(s, KeyOf(s.orders[id].terms)) >= 0
    ensures Get(s.positions, KeyOf(s.orders[id].terms)).reserved >= s.orders[id].locked
  {
    var key := KeyOf(s.orders[id].terms);
    var w := SellWeights(s.orders, key);
    forall x | x in w ensures w[x] >= 0 {
      assert OrderOk(s.orders[x]);
    }
    Sums.AtMostSum(w, id);
    assert w[id] == s.orders[id].locked;
  }

  // ---------------------------------------------------------------------
  // Settlement
  // ---------------------------------------------------------------------

  /** The two orders of a trade, by side. */
  lemma FitsSides(orders: Orders, t: Trade)
    requires Fits(orders, t) && orders[t.maker].terms.side == orders[t.taker].terms.side.Opposite()
    requires orders[t.maker].terms.event == orders[t.taker].terms.event
    requires orders[t.taker].terms.id == t.taker && orders[t.maker].terms.id == t.maker
    ensures t.BuyOrder() in orders && t.SellOrder() in orders
    ensures orders[t.BuyOrder()].terms.side.Buy? && orders[t.BuyOrder()].terms.user == t.buyer
    ensures orders[t.SellOrder()].terms.side.Sell? && KeyOf(orders[t.SellOrder()].terms) == t.SellerKey()
  {
  }

  /** A trade ready to settle: it names a BUY and a SELL of its buyer and seller. */
  ghost predicate Settleable(orders: Orders, t: Trade) {
    && Sound(t)
    && t.BuyOrder() in orders && t.SellOrder() in orders
    && orders[t.BuyOrder()].terms.side.Buy? && orders[t.BuyOrder()].terms.user == t.buyer
    && orders[t.SellOrder()].terms.side.Sell? && KeyOf(orders[t.SellOrder()].terms) == t.SellerKey()
    && (orders[t.BuyOrder()].terms.kind.Limit? ==> t.price <= orders[t.BuyOrder()].terms.price)
  }

  /** The lock of each order after settlement. */
  lemma SettleLock(s: State, t: Trade, x: Id)
    requires Settleable(s.orders, t) && x in s.orders
    ensures Settle(s, t).orders[x] ==
            if x == t.BuyOrder() then s.orders[x].(locked := Clamp(s.orders[x].locked - t.Cost()))
            else if x == t.SellOrder() then s.orders[x].(locked := Clamp(s.orders[x].locked - t.quantity))
            else s.orders[x]
  {
  }

  lemma SettleOrders(s: State, t: Trade)
    requires Settleable(s.orders, t)
    ensures var b, a := s.orders[t.BuyOrder()], s.orders[t.SellOrder()];
            Settle(s, t).orders == s.orders[t.BuyOrder() := b.(locked := Clamp(b.locked - t.Cost()))]
                                           [t.SellOrder() := a.(locked := Clamp(a.locked - t.quantity))]
  {
    var b, a := s.orders[t.BuyOrder()], s.orders[t.SellOrder()];
    var orders := s.orders[t.BuyOrder() := b.(locked := Clamp(b.locked - t.Cost()))]
                          [t.SellOrder() := a.(locked := Clamp(a.locked - t.quantity))];
    forall x | x in s.orders ensures Settle(s, t).orders[x] == orders[x] {
      SettleLock(s, t, x);
    }
    assert orders.Keys == s.orders.Keys;
    assert Settle(s, t).orders == orders;
  }

  lemma SettleSellLocks(s: State, t: Trade, key: PositionKey)
    requires Settleable(s.orders, t) && s.orders[t.SellOrder()].locked >= t.quantity
    ensures SellLocks(Settle(s, t).orders, key)
         == SellLocks(s.orders, key) - (if key == t.SellerKey() then t.quantity else 0)
  {
    hide Settle;
    SettleOrders(s, t);
    var b, a := s.orders[t.BuyOrder()], s.orders[t.SellOrder()];
    var b' := b.(locked := Clamp(b.locked - t.Cost()));
    SellLocksSet(s.orders, t.BuyOrder(), b', key);
    SellLocksSet(s.orders[t.BuyOrder() := b'], t.SellOrder(), a.(locked := Clamp(a.locked - t.quantity)), key);
  }

  lemma SettlePosition(s: State, t: Trade, key: PositionKey)
    requires Sound(t)
    ensures Get(Settle(s, t).positions, key) ==
            if key == t.BuyerKey() then Credit(Get(s.positions, key), t.quantity)
            else if key == t.SellerKey() then TakeReserved(Get(s.positions, key), t.quantity)
            else Get(s.positions, key)
  {
  }

  /** Moving shares between two holders of one outcome keeps its total. */
  lemma MoveShares(
      positions: map<PositionKey, Holding>, to: PositionKey, from: PositionKey, n: int, event: Id, outcome: Outcome)
    requires to.user != from.user && to.event == from.event && to.outcome == from.outcome
    requires Get(positions, from).reserved >= n
    ensures var p1 := positions[to := Credit(Get(positions, to), n)];
            ShareTotal(p1[from := TakeReserved(Get(p1, from), n)], event, outcome) == ShareTotal(positions, event, outcome)
  {
    hide ShareTotal, Get;
    var d := if to.event == event && to.outcome == outcome then n else 0;
    ShareTotalShift(positions, to, Credit(Get(positions, to), n), event, outcome, d);
    var p1 := positions[to := Credit(Get(positions, to), n)];
    var h := Get(p1, from);
    GetSet(positions, to, Credit(Get(positions, to), n), from);
    assert TakeReserved(h, n) == Holding(h.available, h.reserved - n);
    ShareTotalShift(p1, from, TakeReserved(h, n), event, outcome, -d);
  }

  /** A change of one holding's total by d changes the outcome's total by d. */
  lemma ShareTotalShift(
      positions: map<PositionKey, Holding>, key: PositionKey, h: Holding, event: Id, outcome: Outcome, d: int)
    requires if key.event == event && key.outcome == outcome then h.Total() == Get(positions, key).Total() + d else d == 0
    ensures ShareTotal(positions[key := h], event, outcome) == ShareTotal(positions, event, outcome) + d
  {
    hide ShareTotal;
    ShareTotalSet(positions, key, h, event, outcome);
  }

  lemma SettleShareTotal(s: State, t: Trade, event: Id, outcome: Outcome)
    requires Sound(t) && Get(s.positions, t.SellerKey()).reserved >= t.quantity
    ensures ShareTotal(Settle(s, t).positions, event, outcome) == ShareTotal(s.positions, event, outcome)
  {
    hide ShareTotal;
    MoveShares(s.positions, t.BuyerKey(), t.SellerKey(), t.quantity, event, outcome);
  }

  lemma QuantityFirst(t: Trade, pending: seq<Trade>, id: Id)
    ensures Quantity([t] + pending, id) == Quantity(pending, id) + (if t.Names(id) then t.quantity else 0)
  {
    assert ([t] + pending)[1..] == pending;
  }

  lemma {:induction false} QuantityNonNegative(pending: seq<Trade>, id: Id)
    requires forall i :: 0 <= i < |pending| ==> Sound(pending[i])
    ensures Quantity(pending, id) >= 0
  {
    if pending != [] {
      QuantityNonNegative(pending[1..], id);
    }
  }

  /** Settling one trade moves exactly its shares; no clamp on the share side fires. */
  lemma SettleShares(s: State, t: Trade, pending: seq<Trade>, hot: set<Id>)
    requires OrdersOk(s) && Settleable(s.orders, t) && SharesOk(s, [t] + pending, hot)
    requires forall i :: 0 <= i < |pending| ==> Sound(pending[i])
    ensures SharesOk(Settle(s, t), pending, hot) && SameShares(s, Settle(s, t))
    ensures Get(s.positions, t.SellerKey()).reserved >= t.quantity
    ensures s.orders[t.SellOrder()].locked >= t.quantity
  {
    hide Settle, Settleable;
    var s' := Settle(s, t);
    var id := t.SellOrder();
    assert Settleable(s.orders, t);
    SellerCovered(s, t, pending, hot);
    forall key: PositionKey ensures ShareSlack(s', key) == ShareSlack(s, key) {
      SettleableSound(s.orders, t);
      SettleSellLocks(s, t, key);
      SettlePosition(s, t, key);
    }
    forall event, outcome
      ensures ShareTotal(s'.positions, event, outcome) == ShareTotal(s.positions, event, outcome)
    {
      SettleableSound(s.orders, t);
      SettleShareTotal(s, t, event, outcome);
    }
    forall x | x in s'.orders ensures SellOk(s', pending, hot, x) {
      SettleSellOk(s, t, pending, hot, x);
    }
  }

  lemma SettleableSound(orders: Orders, t: Trade)
    requires Settleable(orders, t)
    ensures Sound(t) && t.BuyerKey() != t.SellerKey()
  {
  }

  lemma SellerCovered(s: State, t: Trade, pending: seq<Trade>, hot: set<Id>)
    requires OrdersOk(s) && Settleable(s.orders, t) && SharesOk(s, [t] + pending, hot)
    requires forall i :: 0 <= i < |pending| ==> Sound(pending[i])
    ensures Get(s.positions, t.SellerKey()).reserved >= s.orders[t.SellOrder()].locked >= t.quantity
  {
    var id := t.SellOrder();
    assert SellOk(s, [t] + pending, hot, id);
    assert OrderOk(s.orders[id]);
    QuantityFirst(t, pending, id);
    QuantityNonNegative(pending, id);
    ReservedCovers(s, id);
  }

  lemma SettleSellOk(s: State, t: Trade, pending: seq<Trade>, hot: set<Id>, x: Id)
    requires OrdersOk(s) && Settleable(s.orders, t) && SharesOk(s, [t] + pending, hot) && x in s.orders
    requires s.orders[t.SellOrder()].locked >= t.quantity
    ensures SellOk(Settle(s, t), pending, hot, x)
  {
    hide Settle;
    assert SellOk(s, [t] + pending, hot, x);
    SettleLock(s, t, x);
    QuantityFirst(t, pending, x);
  }

  /** Trades that are all ready to settle; readiness depends on order terms only. */
  ghost predicate AllSettleable(orders: Orders, trades: seq<Trade>) {
    forall i :: 0 <= i < |trades| ==> Settleable(orders, trades[i])
  }

  lemma AllSettleableByTerms(orders: Orders, orders': Orders, trades: seq<Trade>)
    requires AllSettleable(orders, trades) && orders.Keys <= orders'.Keys
    requires forall x | x in orders :: orders'[x].terms == orders[x].terms
    ensures AllSettleable(orders', trades)
  {
    forall i | 0 <= i < |trades| ensures Settleable(orders', trades[i]) {
      assert Settleable(orders, trades[i]);
    }
  }

  lemma SettleKeepsSettleable(s: State, t: Trade, trades: seq<Trade>)
    requires OrdersOk(s) && AllSettleable(s.orders, trades)
    ensures AllSettleable(Settle(s, t).orders, trades)
  {
    hide Settle, Settleable;
    SettleSameButLocks(s, t);
    forall x | x in s.orders ensures Settle(s, t).orders[x].terms == s.orders[x].terms {
      assert Bare(Settle(s, t).orders[x]) == Bare(s.orders[x]);
    }
    AllSettleableByTerms(s.orders, Settle(s, t).orders, trades);
  }

  /** Settling a whole match keeps every position's slack and total. */
  lemma {:induction false} SettleAllShares(s: State, trades: seq<Trade>, hot: set<Id>)
    requires OrdersOk(s) && AllSettleable(s.orders, trades) && SharesOk(s, trades, hot)
    ensures SharesOk(SettleAll(s, trades), [], hot) && SameShares(s, SettleAll(s, trades))
    decreases trades
  {
    hide Settle, OrdersOk, Settleable, SellOk;
    if trades != [] {
      var t, rest := trades[0], trades[1..];
      assert trades == [t] + rest;
      assert Settleable(s.orders, t);
      forall i | 0 <= i < |rest| ensures Sound(rest[i]) && Settleable(s.orders, rest[i]) {
        assert Settleable(s.orders, trades[i + 1]);
        SettleableSound(s.orders, trades[i + 1]);
      }
      SettleShares(s, t, rest, hot);
      SettleSameButLocks(s, t);
      SettleKeepsSettleable(s, t, rest);
      SettleAllShares(Settle(s, t), rest, hot);
    }
  }

  // ---------------------------------------------------------------------
  // Release
  // ---------------------------------------------------------------------

  /** Releasing a finished order returns its lock and keeps the invariant. */
  lemma ReleaseShares(s: State, id: Id)
    requires OrdersOk(s) && id in s.orders && SharesOk(s, [], {id})
    requires s.orders[id].status.Filled? || s.orders[id].status.Canceled?
    ensures SharesOk(Release(s, id), [], {}) && SameShares(s, Release(s, id))
  {
    var o := s.orders[id];
    var s' := Release(s, id);
    assert SellOk(s, [], {id}, id);
    assert OrderOk(o);
    forall x | x in s'.orders ensures SellOk(s', [], {}, x) {
      assert SellOk(s, [], {id}, x);
    }
    if o.locked > 0 && o.terms.side.Sell? {
      ReservedCovers(s, id);
    }
    forall key: PositionKey ensures ShareSlack(s', key) == ShareSlack(s, key) {
      SellLocksSet(s.orders, id, o.(locked := 0), key);
    }
    forall event, outcome
      ensures ShareTotal(s'.positions, event, outcome) == ShareTotal(s.positions, event, outcome)
    {
      ShareTotalSet(s.positions, KeyOf(o.terms), Unfreeze(Get(s.positions, KeyOf(o.terms)), o.locked), event, outcome);
    }
  }

  // ---------------------------------------------------------------------
  // Steps
  // ---------------------------------------------------------------------

  /** The shares an order locks when it is admitted. */
  function LockedShares(r: Reservation, t: Terms): int {
    if r.Reserved? && t.side.Sell? then r.lock else 0
  }

  /** A reservation moves exactly its lock into reserved shares. */
  lemma ReserveReserved(s: State, t: Terms, key: PositionKey)
    ensures var r := Reserve(s, t);
            Get(r.state.positions, key).reserved
            == Get(s.positions, key).reserved + (if key == KeyOf(t) then LockedShares(r, t) else 0)
  {
  }

  lemma ReserveShareTotal(s: State, t: Terms, event: Id, outcome: Outcome)
    ensures ShareTotal(Reserve(s, t).state.positions, event, outcome) == ShareTotal(s.positions, event, outcome)
  {
    hide ShareTotal, Get;
    if t.side.Sell? {
      var h := Get(s.positions, KeyOf(t));
      ShareTotalShift(s.positions, KeyOf(t), h, event, outcome, 0);
      ShareTotalShift(s.positions, KeyOf(t), Holding(h.available - t.quantity, h.reserved + t.quantity), event, outcome, 0);
    }
  }

  /** A SELL reservation locks the whole quantity. */
  lemma ReserveSellLock(s: State, t: Terms)
    ensures t.side.Sell? && Reserve(s, t).Reserved? ==> Reserve(s, t).lock == t.quantity
  {
  }

  lemma AdmitShares(s: State, r: Request, freshId: Id)
    requires Wf(s) && SharesOk(s, [], {})
    ensures SharesOk(Admit(s, r, freshId).state, [], {}) && SameShares(s, Admit(s, r, freshId).state)
  {
    hide Validate, Wf, Reserve, ShareTotal, SellLocks;
    var a := Admit(s, r, freshId);
    var s' := a.state;
    var v := Validate(r, OrderId(r, freshId));
    if v.Ok? {
      ReserveBooks(s, v.value);
      ReserveSellLock(s, v.value);
    }
    forall x | x in s'.orders ensures SellOk(s', [], {}, x) {
      if x in s.orders {
        assert SellOk(s, [], {}, x);
      }
    }
    forall key: PositionKey ensures ShareSlack(s', key) == ShareSlack(s, key) {
      if v.Ok? {
        ReserveReserved(s, v.value, key);
      }
      if a.Admitted? {
        SellLocksSet(s.orders, OrderId(r, freshId), a.order, key);
      }
    }
    forall event, outcome
      ensures ShareTotal(s'.positions, event, outcome) == ShareTotal(s.positions, event, outcome)
    {
      if v.Ok? {
        ReserveShareTotal(s, v.value, event, outcome);
      }
    }
  }

  /** A failed emit loses the order and leaves its lock as slack. */
  lemma EmitFailsShares(s: State, id: Id)
    requires Wf(s) && id in s.inflight && SharesOk(s, [], {})
    ensures SharesOk(EmitFails(s, id), [], {})
    ensures forall key: PositionKey ::
              ShareSlack(EmitFails(s, id), key) == ShareSlack(s, key) + SellLock(s.orders[id], key)
  {
    var s' := EmitFails(s, id);
    assert OrderOk(s.orders[id]);
    forall x | x in s'.orders ensures SellOk(s', [], {}, x) {
      assert SellOk(s, [], {}, x);
    }
    forall key: PositionKey ensures ShareSlack(s', key) == ShareSlack(s, key) + SellLock(s.orders[id], key) {
      assert SellWeights(s'.orders, key) == SellWeights(s.orders, key) - {id};
      Sums.Remove(SellWeights(s.orders, key), id);
    }
  }

  lemma WithdrawnShares(s: State, id: Id)
    requires Wf(s) && id in s.orders && s.orders[id].Live() && SharesOk(s, [], {})
    ensures SharesOk(Withdrawn(s, id), [], {id}) && SameShares(s, Withdrawn(s, id))
  {
    hide QueueOk, Rests, Uncrossed, AccountsOk, RemoveId;
    var s' := Withdrawn(s, id);
    forall x | x in s'.orders ensures SellOk(s', [], {id}, x) {
      assert SellOk(s, [], {}, x);
    }
    forall key: PositionKey ensures ShareSlack(s', key) == ShareSlack(s, key) {
      SellLocksSet(s.orders, id, s.orders[id].(status := Canceled), key);
    }
  }

  lemma CancelShares(s: State, id: Id, event: Id)
    requires Wf(s) && SharesOk(s, [], {})
    ensures SharesOk(Cancel(s, id, event).state, [], {}) && SameShares(s, Cancel(s, id, event).state)
  {
    hide SharesOk, Release, QueueOk, Rests, Uncrossed, AccountsOk;
    if Cancel(s, id, event).result.Ok? {
      WithdrawnWf(s, id);
      WithdrawnShares(s, id);
      ReleaseShares(Withdrawn(s, id), id);
    }
  }

  /** The trades of a match are ready to settle. */
  lemma TradesSettleable(s: State, id: Id)
    requires Ready(s, id)
    ensures AllSettleable(s.orders, TradesOf(s, id))
  {
    hide MatchLoop, TradesOf;
    var terms := s.orders[id].terms;
    forall i | 0 <= i < |TradesOf(s, id)| ensures Settleable(s.orders, TradesOf(s, id)[i]) {
      TradeSound(s, id, i);
      var t := TradesOf(s, id)[i];
      assert QueueOk(s, terms.event, terms.outcome, terms.side.Opposite());
      QueueMember(s, terms.event, terms.outcome, terms.side.Opposite(), t.maker);
      FitsSides(s.orders, t);
    }
  }

  lemma TradedSettleable(s: State, id: Id)
    requires Ready(s, id)
    ensures AllSettleable(Traded(s, id).orders, TradesOf(s, id))
  {
    hide MatchLoop, TradesOf, Traded, Settleable;
    TradesSettleable(s, id);
    forall x | x in s.orders ensures Traded(s, id).orders[x].terms == s.orders[x].terms {
      TradedOrder(s, id, x);
    }
    AllSettleableByTerms(s.orders, Traded(s, id).orders, TradesOf(s, id));
  }

  /** How far the loop moved one order. */
  lemma TradedQuantity(s: State, id: Id, x: Id)
    requires Ready(s, id) && x in s.orders
    ensures var s' := Traded(s, id);
            && s'.orders[x].remaining == s.orders[x].remaining - Quantity(TradesOf(s, id), x)
            && s'.orders[x].filled == s.orders[x].filled + Quantity(TradesOf(s, id), x)
  {
    hide MatchLoop, Traded;
    TradedFields(s, id);
    MatchAccounts(s.orders, Facing(s, s.orders[id].terms), id, s.nextTrade);
    var m := LoopOf(s, id);
    assert Shifted(s.orders[x], m.orders[x], Quantity(m.trades, x), x == id);
  }

  /** The status of an order the loop did not match itself is never set to canceled. */
  lemma TradedCanceled(s: State, id: Id, x: Id)
    requires Ready(s, id) && x in s.orders && x != id
    ensures Traded(s, id).orders[x].status.Canceled? <==> s.orders[x].status.Canceled?
    ensures s.orders[x].status.Canceled? ==> Quantity(TradesOf(s, id), x) == 0
  {
    hide MatchLoop, Traded;
    TradedFields(s, id);
    var t := s.orders[id].terms;
    MatchAccounts(s.orders, Facing(s, t), id, s.nextTrade);
    var m := LoopOf(s, id);
    assert Shifted(s.orders[x], m.orders[x], Quantity(m.trades, x), false);
    if x in Facing(s, t) {
      assert QueueOk(s, t.event, t.outcome, t.side.Opposite());
      QueueMember(s, t.event, t.outcome, t.side.Opposite(), x);
    } else {
      MatchIgnores(s.orders, Facing(s, t), id, s.nextTrade, x);
    }
  }

  /** After the loop, every SELL still locks its remainder and what its trades will take. */
  lemma TradedShares(s: State, id: Id)
    requires Ready(s, id) && SharesOk(s, [], {})
    ensures SharesOk(Traded(s, id), TradesOf(s, id), {id}) && SameShares(s, Traded(s, id))
  {
    hide MatchLoop, Traded, TradesOf, Wf;
    var s' := Traded(s, id);
    TradedFields(s, id);
    forall x | x in s'.orders ensures SellOk(s', TradesOf(s, id), {id}, x) {
      TradedOrder(s, id, x);
      TradedQuantity(s, id, x);
      assert SellOk(s, [], {}, x);
      if x != id {
        TradedCanceled(s, id, x);
      }
    }
    forall key: PositionKey ensures ShareSlack(s', key) == ShareSlack(s, key) {
      forall x | x in s.orders ensures SellLock(s'.orders[x], key) == SellLock(s.orders[x], key) {
        TradedOrder(s, id, x);
      }
      assert SellWeights(s'.orders, key) == SellWeights(s.orders, key);
    }
  }

  /** Matching, over budget or not, keeps every position's slack and total. */
  lemma MatchShares(s: State, id: Id)
    requires Wf(s) && id in s.inflight && SharesOk(s, [], {})
    ensures Matchable(s, id) && Keyed(s.orders)
    ensures SharesOk(Match(s, id), [], {}) && SameShares(s, Match(s, id))
  {
    hide MatchLoop, Traded, SharesOk, QueueOk, Rests, Uncrossed, AccountsOk, Settle, Release, OrderOk;
    WfMatchable(s, id);
    if s.orders[id].status.Pending? {
      IsReady(s, id);
      TradedShares(s, id);
      TradedSettleable(s, id);
      TradedWf(s, id);
      var s1 := Traded(s, id);
      SettleAllShares(s1, TradesOf(s, id), {id});
      SettleAllSameButLocks(s1, TradesOf(s, id));
      var s2 := SettleAll(s1, TradesOf(s, id));
      if s2.orders[id].status.Filled? || s2.orders[id].status.Canceled? {
        ReleaseShares(s2, id);
      } else {
        CoolShares(s2, id);
      }
    } else {
      UnflightShares(s, id);
    }
  }

  /** An order that is not canceled need not be marked hot. */
  lemma CoolShares(s: State, id: Id)
    requires SharesOk(s, [], {id}) && id in s.orders && !s.orders[id].status.Canceled?
    ensures SharesOk(s, [], {})
  {
    forall x | x in s.orders ensures SellOk(s, [], {}, x) {
      assert SellOk(s, [], {id}, x);
    }
  }

  lemma UnflightShares(s: State, id: Id)
    requires SharesOk(s, [], {})
    ensures var s' := s.(inflight := s.inflight - {id});
            SharesOk(s', [], {}) && SameShares(s, s')
  {
    var s' := s.(inflight := s.inflight - {id});
    forall x | x in s'.orders ensures SellOk(s', [], {}, x) {
      assert SellOk(s, [], {}, x);
    }
    forall key: PositionKey ensures ShareSlack(s', key) == ShareSlack(s, key) {
    }
  }

  /** Opening an account or a market does not touch shares. */
  lemma OpenShares(s: State, s': State)
    requires SharesOk(s, [], {}) && s'.orders == s.orders && s'.positions == s.positions
    ensures SharesOk(s', [], {}) && SameShares(s, s')
  {
    forall x | x in s'.orders ensures SellOk(s', [], {}, x) {
      assert SellOk(s, [], {}, x);
    }
    forall key: PositionKey ensures ShareSlack(s', key) == ShareSlack(s, key) {
    }
  }
}
