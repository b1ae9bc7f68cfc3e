/**
 Matching an admitted order keeps the invariant: afterwards no two orders of
 different users cross, and the order rests exactly if it is a live limit order.
 */
module MatchInvariant {
  import opened Types
  import opened Matching
  import opened EngineState
  import opened Invariant
  import opened StepInvariant

  /** The order is about to be matched. */
  ghost predicate Ready(s: State, id: Id) {
    && Wf(s) && id in s.inflight && id in s.orders && s.orders[id].status.Pending?
    && Matchable(s, id) && s.orders[id].terms.event in s.markets && Keyed(s.orders)
  }

  lemma IsReady(s: State, id: Id)
    requires Wf(s) && id in s.inflight && s.orders[id].status.Pending?
    ensures Ready(s, id)
  {
    WfMatchable(s, id);
  }

  /** What the loop starts from: the facing queue is clean, ordered and does not hold the order. */
  lemma FacingReady(s: State, id: Id)
    requires Ready(s, id)
    ensures var t := s.orders[id].terms;
            && id !in Facing(s, t) && id !in Beside(s, t)
            && Fresh(s.orders, Facing(s, t))
            && Prioritized(s.orders, s.arrival, t.side.Opposite(), Facing(s, t))
            && Prioritized(s.orders, s.arrival, t.side, Beside(s, t))
  {
    var t := s.orders[id].terms;
    assert QueueOk(s, t.event, t.outcome, t.side.Opposite());
    assert QueueOk(s, t.event, t.outcome, t.side);
    forall i | 0 <= i < |Facing(s, t)|
      ensures Facing(s, t)[i] != id && Facing(s, t)[i] in s.orders && !Stale(s.orders[Facing(s, t)[i]])
    {
      assert Belongs(s, Facing(s, t)[i], t.event, t.outcome, t.side.Opposite());
    }
    forall i | 0 <= i < |Beside(s, t)| ensures Beside(s, t)[i] != id {
      assert Belongs(s, Beside(s, t)[i], t.event, t.outcome, t.side);
    }
  }

  /** The fields of the traded state. */
  lemma TradedFields(s: State, id: Id)
    requires Ready(s, id)
    ensures var s' := Traded(s, id);
            var m := LoopOf(s, id);
            && m.orders.Keys == s.orders.Keys == s'.orders.Keys && id in m.orders
            && s'.orders == m.orders[id := m.orders[id].(status := AfterMatch(m.orders[id]))]
            && s'.inflight == s.inflight - {id} && s'.balances == s.balances && s'.positions == s.positions
            && s'.nextTrade == s.nextTrade + |m.trades| && s'.markets.Keys == s.markets.Keys
            && (if s'.orders[id].Live() then s'.arrival == s.arrival[id := s.clock] && s'.clock == s.clock + 1
                else s'.arrival == s.arrival && s'.clock == s.clock)
  {
    hide MatchLoop;
    MatchAccounts(s.orders, Facing(s, s.orders[id].terms), id, s.nextTrade);
    var t := s.orders[id].terms;
    assert s.markets.Keys + {t.event} == s.markets.Keys;
  }

  /** An order that does not face the incoming one is unchanged. */
  lemma TradedOther(s: State, id: Id, x: Id)
    requires Ready(s, id) && x in s.orders && x != id && x !in Facing(s, s.orders[id].terms)
    ensures Traded(s, id).orders[x] == s.orders[x]
  {
    hide MatchLoop, Traded;
    TradedFields(s, id);
    MatchIgnores(s.orders, Facing(s, s.orders[id].terms), id, s.nextTrade, x);
  }

  /** A facing order keeps its terms and stays live exactly while it stays queued. */
  lemma TradedMaker(s: State, id: Id, x: Id)
    requires Ready(s, id) && x in Facing(s, s.orders[id].terms)
    ensures var s' := Traded(s, id);
            && x in s.orders && x in s'.orders && x != id && OrderOk(s'.orders[x])
            && s'.orders[x].terms == s.orders[x].terms && s'.orders[x].locked == s.orders[x].locked
            && (s'.orders[x].Live() <==> x in LoopOf(s, id).queue)
  {
    hide MatchLoop, Traded;
    var t := s.orders[id].terms;
    FacingReady(s, id);
    TradedFields(s, id);
    assert QueueOk(s, t.event, t.outcome, t.side.Opposite());
    QueueMember(s, t.event, t.outcome, t.side.Opposite(), x);
    MatchAccounts(s.orders, Facing(s, t), id, s.nextTrade);
    MatchRemainder(s.orders, Facing(s, t), id, s.nextTrade, x);
    MatchMember(s.orders, s.arrival, t.side.Opposite(), Facing(s, t), id, s.nextTrade, x);
    assert OrderOk(s.orders[x]);
    var m := LoopOf(s, id);
    assert Shifted(s.orders[x], m.orders[x], Quantity(m.trades, x), false);
  }

  /** The matched order is well formed; it is live exactly if it is a limit order with a remainder. */
  lemma TradedTaker(s: State, id: Id)
    requires Ready(s, id)
    ensures var s' := Traded(s, id);
            && OrderOk(s'.orders[id])
            && s'.orders[id].terms == s.orders[id].terms && s'.orders[id].locked == s.orders[id].locked
            && (s'.orders[id].Live() <==> s'.orders[id].terms.kind.Limit? && s'.orders[id].remaining > 0)
  {
    hide MatchLoop, Traded;
    var t := s.orders[id].terms;
    TradedFields(s, id);
    MatchAccounts(s.orders, Facing(s, t), id, s.nextTrade);
    MatchRemainder(s.orders, Facing(s, t), id, s.nextTrade, id);
    assert OrderOk(s.orders[id]);
    var m := LoopOf(s, id);
    assert Shifted(s.orders[id], m.orders[id], Quantity(m.trades, id), true);
  }

  /** Every order keeps its terms and lock and stays well formed. */
  lemma TradedOrder(s: State, id: Id, x: Id)
    requires Ready(s, id) && x in s.orders
    ensures var s' := Traded(s, id);
            && x in s'.orders && OrderOk(s'.orders[x])
            && s'.orders[x].terms == s.orders[x].terms && s'.orders[x].locked == s.orders[x].locked
  {
    hide MatchLoop, Traded;
    TradedFields(s, id);
    assert OrderOk(s.orders[x]);
    if x == id {
      TradedTaker(s, id);
    } else if x in Facing(s, s.orders[id].terms) {
      TradedMaker(s, id, x);
    } else {
      TradedOther(s, id, x);
    }
  }

  // ---------------------------------------------------------------------
  // Resting in priority order
  // ---------------------------------------------------------------------

  lemma {:induction false} InsertMember(orders: Orders, side: Side, queue: seq<Id>, id: Id, x: Id)
    requires Known(orders, queue) && id in orders
    ensures x in Insert(orders, side, queue, id) <==> x in queue || x == id
  {
    if queue != [] {
      InsertMember(orders, side, queue[1..], id, x);
      assert queue == [queue[0]] + queue[1..];
    }
  }

  /** Prepending an order that goes before all others keeps a queue in order. */
  lemma PrependPrioritized(orders: Orders, arrival: map<Id, nat>, side: Side, queue: seq<Id>, x: Id)
    requires Prioritized(orders, arrival, side, queue)
    requires forall i :: 0 <= i < |queue| ==> Before(orders, arrival, side, x, queue[i])
    ensures Prioritized(orders, arrival, side, [x] + queue)
  {
    forall i, j | 0 <= i < j < |[x] + queue|
      ensures Before(orders, arrival, side, ([x] + queue)[i], ([x] + queue)[j])
    {
      assert i > 0 ==> Before(orders, arrival, side, queue[i - 1], queue[j - 1]);
    }
  }

  /** Inserting the newest arrival behind its equals keeps strict price-time order. */
  lemma {:induction false} InsertPrioritized(
      orders: Orders, arrival: map<Id, nat>, side: Side, queue: seq<Id>, id: Id)
    requires Known(orders, queue) && id in orders && id in arrival
    requires Prioritized(orders, arrival, side, queue)
    requires forall i :: 0 <= i < |queue| ==> queue[i] in arrival && arrival[queue[i]] < arrival[id]
    ensures Prioritized(orders, arrival, side, Insert(orders, side, queue, id))
  {
    if queue != [] {
      var q0, rest := queue[0], queue[1..];
      assert queue == [q0] + rest;
      if Better(side, orders[id].terms, orders[q0].terms) {
        forall i | 0 <= i < |queue| ensures Before(orders, arrival, side, id, queue[i]) {
          assert i > 0 ==> Before(orders, arrival, side, q0, queue[i]);
        }
        PrependPrioritized(orders, arrival, side, queue, id);
      } else {
        InsertPrioritized(orders, arrival, side, rest, id);
        var more := Insert(orders, side, rest, id);
        forall i | 0 <= i < |more| ensures Before(orders, arrival, side, q0, more[i]) {
          InsertMember(orders, side, rest, id, more[i]);
          if more[i] != id {
            var j :| 0 <= j < |rest| && rest[j] == more[i];
            assert Before(orders, arrival, side, queue[0], queue[j + 1]);
          }
        }
        PrependPrioritized(orders, arrival, side, more, q0);
      }
    }
  }

  lemma {:induction false} InsertLast(orders: Orders, side: Side, queue: seq<Id>, id: Id)
    requires Known(orders, queue) && id in orders
    requires forall i :: 0 <= i < |queue| ==> !Better(side, orders[id].terms, orders[queue[i]].terms)
    ensures Insert(orders, side, queue, id) == queue + [id]
  {
    if queue != [] {
      InsertLast(orders, side, queue[1..], id);
      assert queue == [queue[0]] + queue[1..];
    }
  }

  /** A queue in priority order is already sorted. */
  lemma {:induction false} SortedIsFixed(
      orders: Orders, arrival: map<Id, nat>, side: Side, queue: seq<Id>)
    requires Known(orders, queue) && Prioritized(orders, arrival, side, queue)
    ensures StableSort(orders, side, queue) == queue
  {
    if queue != [] {
      var n := |queue| - 1;
      SortedIsFixed(orders, arrival, side, queue[..n]);
      forall i | 0 <= i < n ensures !Better(side, orders[queue[n]].terms, orders[queue[i]].terms) {
        assert Before(orders, arrival, side, queue[i], queue[n]);
      }
      InsertLast(orders, side, queue[..n], queue[n]);
      assert queue == queue[..n] + [queue[n]];
    }
  }

  /** Appending and stable-sorting an ordered queue inserts the order behind its equals. */
  lemma AddIsInsert(orders: Orders, arrival: map<Id, nat>, side: Side, queue: seq<Id>, id: Id)
    requires Known(orders, queue) && id in orders && Prioritized(orders, arrival, side, queue)
    ensures AddToBook(orders, side, queue, id) == Insert(orders, side, queue, id)
  {
    SortedIsFixed(orders, arrival, side, queue);
    assert (queue + [id])[..|queue|] == queue;
  }

  // ---------------------------------------------------------------------
  // The books after matching
  // ---------------------------------------------------------------------

  /** The two queues of the order's book, and that no other queue changes. */
  lemma TradedResting(s: State, id: Id, event: Id, outcome: Outcome, side: Side)
    requires Ready(s, id)
    ensures var s' := Traded(s, id);
            var t := s.orders[id].terms;
            && Known(s'.orders, Beside(s, t)) && id in s'.orders
            && Resting(s', event, outcome, side) ==
              (if event != t.event || outcome != t.outcome then Resting(s, event, outcome, side)
               else if side == t.side.Opposite() then LoopOf(s, id).queue
               else if s'.orders[id].Live() then AddToBook(s'.orders, t.side, Beside(s, t), id)
               else Beside(s, t))
  {
    hide MatchLoop;
    TradedFields(s, id);
  }

  /** The side the order joins. */
  lemma TradedBeside(s: State, id: Id)
    requires Ready(s, id)
    ensures var s' := Traded(s, id);
            var t := s.orders[id].terms;
            var queue' := Resting(s', t.event, t.outcome, t.side);
            && Prioritized(s'.orders, s'.arrival, t.side, queue')
            && forall x :: x in queue' <==> x in Beside(s, t) || (x == id && s'.orders[id].Live())
  {
    hide MatchLoop, Traded, AddToBook, StableSort, Insert;
    var s', t := Traded(s, id), s.orders[id].terms;
    var queue := Beside(s, t);
    FacingReady(s, id);
    TradedFields(s, id);
    TradedResting(s, id, t.event, t.outcome, t.side);
    assert QueueOk(s, t.event, t.outcome, t.side);
    forall i | 0 <= i < |queue|
      ensures queue[i] in s'.arrival && s'.arrival[queue[i]] == s.arrival[queue[i]] < s.clock && queue[i] in s'.orders
      ensures s'.orders[queue[i]].terms == s.orders[queue[i]].terms
    {
      assert Belongs(s, queue[i], t.event, t.outcome, t.side);
      TradedOrder(s, id, queue[i]);
    }
    forall i, j | 0 <= i < j < |queue| ensures Before(s'.orders, s'.arrival, t.side, queue[i], queue[j]) {
      assert Before(s.orders, s.arrival, t.side, queue[i], queue[j]);
    }
    if s'.orders[id].Live() {
      AddIsInsert(s'.orders, s'.arrival, t.side, queue, id);
      InsertPrioritized(s'.orders, s'.arrival, t.side, queue, id);
      forall x ensures x in Insert(s'.orders, t.side, queue, id) <==> x in queue || x == id {
        InsertMember(s'.orders, t.side, queue, id, x);
      }
    }
  }

  /** The side the order traded against. */
  lemma TradedFacing(s: State, id: Id)
    requires Ready(s, id)
    ensures var s' := Traded(s, id);
            var t := s.orders[id].terms;
            var queue' := Resting(s', t.event, t.outcome, t.side.Opposite());
            && Prioritized(s'.orders, s'.arrival, t.side.Opposite(), queue')
            && forall x :: x in queue' <==> x in Facing(s, t) && x in s'.orders && s'.orders[x].Live()
  {
    hide MatchLoop, Traded, AddToBook;
    var s', t := Traded(s, id), s.orders[id].terms;
    FacingReady(s, id);
    TradedFields(s, id);
    TradedResting(s, id, t.event, t.outcome, t.side.Opposite());
    MatchPrioritized(s.orders, s.arrival, t.side.Opposite(), Facing(s, t), id, s.nextTrade);
    var m := LoopOf(s, id);
    forall x ensures x in m.queue <==> x in Facing(s, t) && x in s'.orders && s'.orders[x].Live() {
      if x in m.queue {
        var i :| 0 <= i < |m.queue| && m.queue[i] == x;
        MatchMember(s.orders, s.arrival, t.side.Opposite(), Facing(s, t), id, s.nextTrade, x);
      }
      if x in Facing(s, t) {
        TradedMaker(s, id, x);
      }
    }
    forall i, j | 0 <= i < j < |m.queue|
      ensures Before(s'.orders, s'.arrival, t.side.Opposite(), m.queue[i], m.queue[j])
    {
      assert Before(m.orders, s.arrival, t.side.Opposite(), m.queue[i], m.queue[j]);
      assert m.queue[i] in m.queue && m.queue[j] in m.queue;
    }
  }

  /** A queue of another book is unchanged and so are its orders. */
  lemma TradedElsewhere(s: State, id: Id, event: Id, outcome: Outcome, side: Side)
    requires Ready(s, id)
    requires event != s.orders[id].terms.event || outcome != s.orders[id].terms.outcome
    ensures QueueOk(Traded(s, id), event, outcome, side)
  {
    hide MatchLoop, Traded, AddToBook, OrdersOk;
    var s', t := Traded(s, id), s.orders[id].terms;
    var queue := Resting(s, event, outcome, side);
    TradedFields(s, id);
    TradedResting(s, id, event, outcome, side);
    assert QueueOk(s, event, outcome, side);
    assert QueueOk(s, t.event, t.outcome, t.side.Opposite());
    forall i | 0 <= i < |queue|
      ensures Belongs(s', queue[i], event, outcome, side) && s'.orders[queue[i]] == s.orders[queue[i]]
    {
      assert Belongs(s, queue[i], event, outcome, side);
      if queue[i] in Facing(s, t) {
        QueueMember(s, t.event, t.outcome, t.side.Opposite(), queue[i]);
      }
      TradedOther(s, id, queue[i]);
    }
    forall i, j | 0 <= i < j < |queue| ensures Before(s'.orders, s'.arrival, side, queue[i], queue[j]) {
      assert Before(s.orders, s.arrival, side, queue[i], queue[j]);
    }
  }

  /** An order in the book of the matched order still belongs there. */
  lemma TradedBelongs(s: State, id: Id, side: Side, x: Id)
    requires Ready(s, id)
    requires x in Resting(Traded(s, id), s.orders[id].terms.event, s.orders[id].terms.outcome, side)
    ensures Belongs(Traded(s, id), x, s.orders[id].terms.event, s.orders[id].terms.outcome, side)
  {
    hide MatchLoop, Traded, AddToBook, Prioritized;
    var s', t := Traded(s, id), s.orders[id].terms;
    TradedFields(s, id);
    assert QueueOk(s, t.event, t.outcome, side);
    if side == t.side {
      TradedBeside(s, id);
      if x == id {
        TradedTaker(s, id);
      } else {
        QueueMember(s, t.event, t.outcome, side, x);
        assert QueueOk(s, t.event, t.outcome, t.side.Opposite());
        if x in Facing(s, t) {
          QueueMember(s, t.event, t.outcome, t.side.Opposite(), x);
        }
        TradedOther(s, id, x);
      }
    } else {
      TradedFacing(s, id);
      QueueMember(s, t.event, t.outcome, side, x);
      TradedMaker(s, id, x);
    }
  }

  lemma TradedQueue(s: State, id: Id, event: Id, outcome: Outcome, side: Side)
    requires Ready(s, id)
    ensures QueueOk(Traded(s, id), event, outcome, side)
  {
    hide MatchLoop, Traded, AddToBook, Belongs, Prioritized, Wf;
    var s', t := Traded(s, id), s.orders[id].terms;
    if event == t.event && outcome == t.outcome {
      if side == t.side {
        TradedBeside(s, id);
      } else {
        TradedFacing(s, id);
      }
      var queue' := Resting(s', event, outcome, side);
      forall i | 0 <= i < |queue'| ensures Belongs(s', queue'[i], event, outcome, side) {
        assert queue'[i] in queue';
        TradedBelongs(s, id, side, queue'[i]);
      }
    } else {
      TradedElsewhere(s, id, event, outcome, side);
    }
  }

  lemma TradedRests(s: State, id: Id, x: Id)
    requires Ready(s, id) && x in s.orders
    ensures x in Traded(s, id).orders && Rests(Traded(s, id), x)
  {
    hide MatchLoop, Traded, AddToBook, Prioritized;
    var s', t := Traded(s, id), s.orders[id].terms;
    TradedFields(s, id);
    assert Rests(s, x);
    if x == id {
      TradedTaker(s, id);
      TradedBeside(s, id);
    } else if x in Facing(s, t) {
      assert QueueOk(s, t.event, t.outcome, t.side.Opposite());
      QueueMember(s, t.event, t.outcome, t.side.Opposite(), x);
      TradedMaker(s, id, x);
      TradedFacing(s, id);
    } else {
      TradedOther(s, id, x);
      var u := s.orders[x].terms;
      TradedResting(s, id, u.event, u.outcome, u.side);
      TradedBeside(s, id);
    }
  }

  /** An order left on the facing side does not cross the matched order. */
  lemma TradedApart(s: State, id: Id, x: Id)
    requires Ready(s, id) && Traded(s, id).orders[id].Live()
    requires x in Resting(Traded(s, id), s.orders[id].terms.event, s.orders[id].terms.outcome, s.orders[id].terms.side.Opposite())
    ensures var s' := Traded(s, id);
            if s.orders[id].terms.side.Buy? then Apart(s'.orders, id, x) else Apart(s'.orders, x, id)
  {
    hide MatchLoop, Traded, AddToBook, Prioritized;
    var s', t := Traded(s, id), s.orders[id].terms;
    TradedFields(s, id);
    TradedTaker(s, id);
    TradedFacing(s, id);
    TradedMaker(s, id, x);
    TradedBelongs(s, id, t.side.Opposite(), x);
    MatchExhausts(s.orders, Facing(s, t), id, s.nextTrade);
    var m := LoopOf(s, id);
    var i :| 0 <= i < |m.queue| && m.queue[i] == x;
    assert !Eligible(m.orders, x, id);
  }

  lemma TradedUncrossed(s: State, id: Id, event: Id, outcome: Outcome)
    requires Ready(s, id)
    ensures Uncrossed(Traded(s, id), event, outcome)
  {
    hide MatchLoop, Traded, AddToBook, Prioritized, QueueOk, OrdersOk, InflightOk, AccountsOk, Rests;
    var s', t := Traded(s, id), s.orders[id].terms;
    TradedFields(s, id);
    forall b, a | b in Resting(s', event, outcome, Buy) && a in Resting(s', event, outcome, Sell)
      ensures Apart(s'.orders, b, a)
    {
      TradedResting(s, id, event, outcome, Buy);
      TradedResting(s, id, event, outcome, Sell);
      TradedFacing(s, id);
      TradedBeside(s, id);
      FacingReady(s, id);
      if b == id && event == t.event && outcome == t.outcome && t.side.Buy? {
        TradedApart(s, id, a);
      } else if a == id && event == t.event && outcome == t.outcome && t.side.Sell? {
        TradedApart(s, id, b);
      } else {
        assert Uncrossed(s, event, outcome);
        assert Apart(s.orders, b, a);
        if b in s.orders {
          TradedOrder(s, id, b);
        }
        if a in s.orders {
          TradedOrder(s, id, a);
        }
      }
    }
  }

  lemma TradedWf(s: State, id: Id)
    requires Ready(s, id)
    ensures Wf(Traded(s, id))
  {
    hide MatchLoop, Traded, AddToBook, Prioritized, QueueOk, Rests, Uncrossed, OrderOk;
    var s' := Traded(s, id);
    TradedFields(s, id);
    forall x | x in s.orders ensures OrderOk(s'.orders[x]) && s'.orders[x].terms == s.orders[x].terms && Rests(s', x) {
      TradedOrder(s, id, x);
      TradedRests(s, id, x);
    }
    forall x | x in s'.inflight ensures s'.orders[x] == s.orders[x] {
      TradedInflight(s, id, x);
    }
    forall event, outcome, side ensures QueueOk(s', event, outcome, side) {
      TradedQueue(s, id, event, outcome, side);
    }
    forall event, outcome ensures Uncrossed(s', event, outcome) {
      TradedUncrossed(s, id, event, outcome);
    }
  }

  /** Other admitted orders are not touched. */
  lemma TradedInflight(s: State, id: Id, x: Id)
    requires Ready(s, id) && x in s.inflight && x != id
    ensures x in s.orders && Traded(s, id).orders[x] == s.orders[x]
  {
    hide MatchLoop, Traded;
    var t := s.orders[id].terms;
    assert QueueOk(s, t.event, t.outcome, t.side.Opposite());
    if x in Facing(s, t) {
      QueueMember(s, t.event, t.outcome, t.side.Opposite(), x);
    }
    TradedOther(s, id, x);
  }

  /** Every trade of the match pairs this order with a facing one at a positive price. */
  lemma TradeSound(s: State, id: Id, i: nat)
    requires Ready(s, id) && i < |TradesOf(s, id)|
    ensures var t := TradesOf(s, id)[i];
            Sound(t) && Fits(s.orders, t) && t.taker == id && t.maker in Facing(s, s.orders[id].terms) && t.id == s.nextTrade + i
  {
    hide MatchLoop;
    var terms := s.orders[id].terms;
    MatchTrade(s.orders, Facing(s, terms), id, s.nextTrade, i);
    assert QueueOk(s, terms.event, terms.outcome, terms.side.Opposite());
    QueueMember(s, terms.event, terms.outcome, terms.side.Opposite(), TradesOf(s, id)[i].maker);
  }

  /** Matching any admitted order keeps the invariant. */
  lemma MatchWf(s: State, id: Id)
    requires Wf(s) && id in s.inflight
    ensures Matchable(s, id) && Keyed(s.orders) && Wf(Match(s, id))
  {
    hide MatchLoop, Traded, Prioritized, QueueOk, Rests, Uncrossed, AccountsOk, Settle, Release;
    WfMatchable(s, id);
    if s.orders[id].status.Canceled? {
      var s' := s.(inflight := s.inflight - {id});
      forall event, outcome, side ensures Resting(s', event, outcome, side) == Resting(s, event, outcome, side) {
      }
      assert KeepsBooks(s, s');
      AccountsSame(s, s');
      Frame(s, s');
    } else {
      MatchPendingWf(s, id);
    }
  }

  lemma MatchPendingWf(s: State, id: Id)
    requires Wf(s) && id in s.inflight && s.orders[id].status.Pending?
    ensures Matchable(s, id) && Keyed(s.orders) && Wf(Match(s, id))
  {
    hide MatchLoop, Traded, Wf, Settle, Release, Matchable, LoopOf;
    IsReady(s, id);
    TradedWf(s, id);
    forall i | 0 <= i < |TradesOf(s, id)| ensures Sound(TradesOf(s, id)[i]) {
      TradeSound(s, id, i);
    }
    SettleAllWf(Traded(s, id), TradesOf(s, id));
    ReleaseWf(SettleAll(Traded(s, id), TradesOf(s, id)), id);
  }
}
