/**
 What every reachable engine state keeps, whatever the interleaving of handlers:
 well-formed orders, books that hold exactly the live limit orders in strict
 price-time order, and no crossing pair of different users.
 */
module Invariant {
  import opened Types
  import opened Matching
  import opened EngineState

  predicate OrderOk(o: Order) {
    && o.terms.quantity > 0
    && o.filled >= 0 && o.remaining >= 0 && o.filled + o.remaining == o.terms.quantity
    && (o.terms.kind.Limit? ==> o.terms.price > 0)
    && !o.status.Rejected?
    && (o.status.Filled? <==> o.remaining == 0)
    && (o.status.Pending? ==> o.filled == 0)
    && (o.status.Partial? ==> o.filled > 0)
    && o.locked >= 0
  }

  ghost predicate OrdersOk(s: State) {
    && Keyed(s.orders)
    && forall id | id in s.orders :: OrderOk(s.orders[id]) && s.orders[id].terms.event in s.markets
  }

  /** An admitted order waits unfilled, pending or already canceled. */
  ghost predicate InflightOk(s: State) {
    forall id | id in s.inflight ::
      id in s.orders && s.orders[id].filled == 0 && (s.orders[id].status.Pending? || s.orders[id].status.Canceled?)
  }

  ghost predicate AccountsOk(s: State) {
    && (forall u: Id :: Get(s.balances, u).Solvent())
    && (forall k: PositionKey :: Get(s.positions, k).Solvent())
  }

  /** The order is a live, matched limit order of exactly this side of this book. */
  predicate Belongs(s: State, id: Id, event: Id, outcome: Outcome, side: Side) {
    && id in s.orders && id !in s.inflight
    && s.orders[id].Live() && s.orders[id].terms.kind.Limit?
    && s.orders[id].terms.event == event && s.orders[id].terms.outcome == outcome && s.orders[id].terms.side == side
    && id in s.arrival && s.arrival[id] < s.clock
  }

  /** One side of one book: strict price-time order, and only orders that belong. */
  ghost predicate QueueOk(s: State, event: Id, outcome: Outcome, side: Side) {
    var queue := Resting(s, event, outcome, side);
    && Prioritized(s.orders, s.arrival, side, queue)
    && forall i :: 0 <= i < |queue| ==> Belongs(s, queue[i], event, outcome, side)
  }

  /** A live order that has been matched is a limit order and rests in its book. */
  predicate Rests(s: State, id: Id)
    requires id in s.orders
  {
    s.orders[id].Live() && id !in s.inflight ==>
      s.orders[id].terms.kind.Limit? && id in Beside(s, s.orders[id].terms)
  }

  /** A bid and an ask of different users do not cross. */
  predicate Apart(orders: Orders, bid: Id, ask: Id) {
    bid in orders && ask in orders && orders[bid].terms.user != orders[ask].terms.user ==>
      orders[bid].terms.price < orders[ask].terms.price
  }

  ghost predicate Uncrossed(s: State, event: Id, outcome: Outcome) {
    forall b, a | b in Resting(s, event, outcome, Buy) && a in Resting(s, event, outcome, Sell) ::
      Apart(s.orders, b, a)
  }

  ghost predicate Wf(s: State) {
    && OrdersOk(s) && InflightOk(s) && AccountsOk(s)
    && (forall event, outcome, side :: QueueOk(s, event, outcome, side))
    && (forall id | id in s.orders :: Rests(s, id))
    && (forall event, outcome :: Uncrossed(s, event, outcome))
  }

  lemma WfMatchable(s: State, id: Id)
    requires Wf(s) && id in s.orders
    ensures Matchable(s, id) && Keyed(s.orders)
  {
    var t := s.orders[id].terms;
    assert QueueOk(s, t.event, t.outcome, t.side.Opposite());
    assert QueueOk(s, t.event, t.outcome, t.side);
  }

  // ---------------------------------------------------------------------
  // Steps that leave the books alone
  // ---------------------------------------------------------------------

  /** An order without its lock. */
  function Bare(o: Order): Order {
    o.(locked := 0)
  }

  /** Books are the same, and so are matched orders up to their locks. */
  ghost predicate KeepsBooks(s: State, s': State) {
    && (forall event, outcome, side :: Resting(s', event, outcome, side) == Resting(s, event, outcome, side))
    && s'.arrival == s.arrival && s'.clock == s.clock
    && (forall x | x in s.orders && x !in s.inflight ::
          x in s'.orders && x !in s'.inflight && Bare(s'.orders[x]) == Bare(s.orders[x]))
    && (forall x | x in s'.orders && x !in s'.inflight ::
          x in s.orders && (x !in s.inflight || !s'.orders[x].Live()))
  }

  lemma FrameQueue(s: State, s': State, event: Id, outcome: Outcome, side: Side)
    requires QueueOk(s, event, outcome, side) && KeepsBooks(s, s')
    ensures QueueOk(s', event, outcome, side)
  {
    var queue := Resting(s, event, outcome, side);
    assert Resting(s', event, outcome, side) == queue;
    forall i | 0 <= i < |queue|
      ensures Belongs(s', queue[i], event, outcome, side) && s'.orders[queue[i]].terms == s.orders[queue[i]].terms
    {
      assert Belongs(s, queue[i], event, outcome, side);
      assert Bare(s'.orders[queue[i]]) == Bare(s.orders[queue[i]]);
    }
    forall i, j | 0 <= i < j < |queue|
      ensures Before(s'.orders, s'.arrival, side, queue[i], queue[j])
    {
      assert Before(s.orders, s.arrival, side, queue[i], queue[j]);
    }
  }

  lemma FrameUncrossed(s: State, s': State, event: Id, outcome: Outcome)
    requires Wf(s) && KeepsBooks(s, s')
    ensures Uncrossed(s', event, outcome)
  {
    forall b, a | b in Resting(s', event, outcome, Buy) && a in Resting(s', event, outcome, Sell)
      ensures Apart(s'.orders, b, a)
    {
      assert Resting(s', event, outcome, Buy) == Resting(s, event, outcome, Buy);
      assert Resting(s', event, outcome, Sell) == Resting(s, event, outcome, Sell);
      QueueMember(s, event, outcome, Buy, b);
      QueueMember(s, event, outcome, Sell, a);
      assert Uncrossed(s, event, outcome) && Apart(s.orders, b, a);
      assert Bare(s'.orders[b]) == Bare(s.orders[b]) && Bare(s'.orders[a]) == Bare(s.orders[a]);
    }
  }

  lemma QueueMember(s: State, event: Id, outcome: Outcome, side: Side, x: Id)
    requires QueueOk(s, event, outcome, side) && x in Resting(s, event, outcome, side)
    ensures Belongs(s, x, event, outcome, side)
  {
    var queue := Resting(s, event, outcome, side);
    var i :| 0 <= i < |queue| && queue[i] == x;
  }

  lemma FrameRests(s: State, s': State, id: Id)
    requires Wf(s) && KeepsBooks(s, s') && id in s'.orders
    ensures Rests(s', id)
  {
    if s'.orders[id].Live() && id !in s'.inflight {
      assert id in s.orders && id !in s.inflight;
      assert Bare(s'.orders[id]) == Bare(s.orders[id]);
      assert Rests(s, id);
      var t := s.orders[id].terms;
      assert Resting(s', t.event, t.outcome, t.side) == Resting(s, t.event, t.outcome, t.side);
    }
  }

  /** A step that leaves the books alone keeps everything about them. */
  lemma Frame(s: State, s': State)
    requires Wf(s) && KeepsBooks(s, s')
    requires OrdersOk(s') && InflightOk(s') && AccountsOk(s')
    ensures Wf(s')
  {
    hide KeepsBooks, QueueOk, Rests, Uncrossed, OrdersOk, InflightOk, AccountsOk;
    forall event, outcome, side ensures QueueOk(s', event, outcome, side) {
      FrameQueue(s, s', event, outcome, side);
    }
    forall event, outcome ensures Uncrossed(s', event, outcome) {
      FrameUncrossed(s, s', event, outcome);
    }
    forall id | id in s'.orders ensures Rests(s', id) {
      FrameRests(s, s', id);
    }
  }

  lemma SetBalanceOk(s: State, user: Id, h: Holding)
    requires AccountsOk(s) && h.Solvent()
    ensures AccountsOk(SetBalance(s, user, h))
  {
    forall u: Id ensures Get(SetBalance(s, user, h).balances, u).Solvent() {
      assert Get(s.balances, u).Solvent();
    }
  }

  lemma SetPositionOk(s: State, key: PositionKey, h: Holding)
    requires AccountsOk(s) && h.Solvent()
    ensures AccountsOk(SetPosition(s, key, h))
  {
    forall k: PositionKey ensures Get(SetPosition(s, key, h).positions, k).Solvent() {
      assert Get(s.positions, k).Solvent();
    }
  }

  /** A reservation never overdraws, and locks a non-negative amount. */
  lemma ReserveOk(s: State, t: Terms)
    requires AccountsOk(s) && t.quantity > 0 && (t.kind.Limit? ==> t.price > 0)
    ensures AccountsOk(Reserve(s, t).state)
    ensures Reserve(s, t).Reserved? ==> Reserve(s, t).lock >= 0
  {
    var h := Get(s.balances, t.user);
    var p := Get(s.positions, KeyOf(t));
    assert h.Solvent() && p.Solvent();
    if t.side.Buy? {
      var cost := if t.kind.Market? then h.available else t.quantity * t.price;
      SetBalanceOk(s, t.user, if cost > h.available then h else Holding(h.available - cost, h.reserved + cost));
    } else {
      SetPositionOk(s, KeyOf(t),
                    if p.available < t.quantity then p else Holding(p.available - t.quantity, p.reserved + t.quantity));
    }
  }

  lemma UserCreatedWf(s: State, user: Id)
    requires Wf(s)
    ensures Wf(UserCreated(s, user))
  {
    hide QueueOk, Rests, Uncrossed, OrderOk, AccountsOk;
    var s' := UserCreated(s, user);
    SetBalanceOk(s, user, Holding(DEFAULT_STARTING_BALANCE, 0));
    forall event, outcome, side ensures Resting(s', event, outcome, side) == Resting(s, event, outcome, side) {
    }
    Frame(s, s');
  }

  lemma CreateEventWf(s: State, event: Id)
    requires Wf(s)
    ensures Wf(CreateEvent(s, event))
  {
    hide QueueOk, Rests, Uncrossed, OrderOk;
    var s' := CreateEvent(s, event);
    forall e, outcome, side ensures Resting(s', e, outcome, side) == Resting(s, e, outcome, side) {
    }
    Frame(s, s');
  }

  lemma AdmitWf(s: State, r: Request, freshId: Id)
    requires Wf(s)
    ensures Wf(Admit(s, r, freshId).state)
  {
    hide QueueOk, Rests, Uncrossed, Validate, AccountsOk;
    var a := Admit(s, r, freshId);
    var v := Validate(r, OrderId(r, freshId));
    if v.Ok? {
      ReserveOk(s, v.value);
      ReserveBooks(s, v.value);
      AccountsSame(Reserve(s, v.value).state, a.state);
    }
    assert KeepsBooks(s, a.state);
    Frame(s, a.state);
  }

  lemma AccountsSame(s: State, s': State)
    requires AccountsOk(s)
    ensures s'.balances == s.balances && s'.positions == s.positions ==> AccountsOk(s')
  {
  }

  /** A reservation touches the ledger only. */
  lemma ReserveBooks(s: State, t: Terms)
    ensures var s' := Reserve(s, t).state;
            s' == s.(balances := s'.balances, positions := s'.positions)
  {
  }

  lemma EmitFailsWf(s: State, id: Id)
    requires Wf(s) && id in s.inflight
    ensures Wf(EmitFails(s, id))
  {
    hide QueueOk, Rests, Uncrossed, OrderOk;
    var s' := EmitFails(s, id);
    forall event, outcome, side ensures Resting(s', event, outcome, side) == Resting(s, event, outcome, side) {
    }
    assert KeepsBooks(s, s');
    Frame(s, s');
  }
}
