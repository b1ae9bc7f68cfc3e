/**
 The steps that move orders between the books and the ledger keep the invariant:
 settlement, release, cancellation and matching.
 */
module StepInvariant {
  import opened Types
  import opened Matching
  import opened EngineState
  import opened Invariant

  // ---------------------------------------------------------------------
  // Settlement and release
  // ---------------------------------------------------------------------

  /** A trade the engine can produce. */
  predicate Sound(t: Trade) {
    t.quantity > 0 && t.price > 0 && t.buyer != t.seller && t.taker != t.maker
  }

  lemma CostPositive(t: Trade)
    requires Sound(t)
    ensures t.Cost() > 0
  {
  }

  lemma UnlockBare(orders: Orders, id: Id, t: Trade, x: Id)
    requires x in orders && orders[x].locked >= 0
    ensures var o := Unlock(orders, id, t)[x];
            Bare(o) == Bare(orders[x]) && o.locked >= 0
  {
  }

  /** Settlement changes locks and the ledger, nothing else. */
  lemma SettleBare(s: State, t: Trade, x: Id)
    requires x in s.orders && s.orders[x].locked >= 0
    ensures var s' := Settle(s, t);
            && s'.markets == s.markets && s'.inflight == s.inflight
            && s'.arrival == s.arrival && s'.clock == s.clock && s'.nextTrade == s.nextTrade
            && Bare(s'.orders[x]) == Bare(s.orders[x]) && s'.orders[x].locked >= 0
  {
    UnlockBare(s.orders, t.taker, t, x);
    UnlockBare(Unlock(s.orders, t.taker, t), t.maker, t, x);
  }

  lemma SettleAccounts(s: State, t: Trade)
    requires AccountsOk(s) && Sound(t)
    ensures AccountsOk(Settle(s, t))
  {
    CostPositive(t);
    var s' := Settle(s, t);
    forall u: Id ensures Get(s'.balances, u).Solvent() {
      assert Get(s.balances, u).Solvent();
    }
    forall k: PositionKey ensures Get(s'.positions, k).Solvent() {
      assert Get(s.positions, k).Solvent();
    }
  }

  /** Only locks and the ledger differ. */
  ghost predicate SameButLocks(s: State, s': State) {
    && s'.markets == s.markets && s'.inflight == s.inflight
    && s'.arrival == s.arrival && s'.clock == s.clock && s'.nextTrade == s.nextTrade
    && s'.orders.Keys == s.orders.Keys
    && forall x | x in s.orders :: Bare(s'.orders[x]) == Bare(s.orders[x]) && s'.orders[x].locked >= 0
  }

  lemma SameButLocksWf(s: State, s': State)
    requires Wf(s) && SameButLocks(s, s') && AccountsOk(s')
    ensures Wf(s')
  {
    hide QueueOk, Rests, Uncrossed, AccountsOk;
    forall event, outcome, side ensures Resting(s', event, outcome, side) == Resting(s, event, outcome, side) {
    }
    forall x | x in s.orders ensures OrderOk(s'.orders[x]) && s'.orders[x].terms == s.orders[x].terms {
      assert Bare(s'.orders[x]) == Bare(s.orders[x]);
    }
    assert KeepsBooks(s, s');
    assert InflightOk(s');
    Frame(s, s');
  }

  lemma SettleSameButLocks(s: State, t: Trade)
    requires OrdersOk(s)
    ensures SameButLocks(s, Settle(s, t)) && OrdersOk(Settle(s, t))
  {
    hide Settle;
    var s' := Settle(s, t);
    forall x | x in s.orders
      ensures Bare(s'.orders[x]) == Bare(s.orders[x]) && s'.orders[x].locked >= 0 && OrderOk(s'.orders[x])
      ensures s'.orders[x].terms == s.orders[x].terms && s'.markets == s.markets
    {
      SettleBare(s, t, x);
    }
    SettleBooks(s, t);
  }

  lemma SettleBooks(s: State, t: Trade)
    ensures var s' := Settle(s, t);
            && s'.markets == s.markets && s'.inflight == s.inflight
            && s'.arrival == s.arrival && s'.clock == s.clock && s'.nextTrade == s.nextTrade
  {
  }

  lemma {:induction false} SettleAllSameButLocks(s: State, trades: seq<Trade>)
    requires OrdersOk(s)
    ensures SameButLocks(s, SettleAll(s, trades)) && OrdersOk(SettleAll(s, trades))
    decreases trades
  {
    hide Settle;
    if trades != [] {
      SettleSameButLocks(s, trades[0]);
      SettleAllSameButLocks(Settle(s, trades[0]), trades[1..]);
      var s1, s' := Settle(s, trades[0]), SettleAll(s, trades);
      forall x | x in s.orders ensures Bare(s'.orders[x]) == Bare(s.orders[x]) && s'.orders[x].locked >= 0 {
        assert Bare(s1.orders[x]) == Bare(s.orders[x]);
      }
    }
  }

  lemma {:induction false} SettleAllAccounts(s: State, trades: seq<Trade>)
    requires AccountsOk(s) && forall i :: 0 <= i < |trades| ==> Sound(trades[i])
    ensures AccountsOk(SettleAll(s, trades))
    decreases trades
  {
    hide Settle, AccountsOk;
    if trades != [] {
      SettleAccounts(s, trades[0]);
      SettleAllAccounts(Settle(s, trades[0]), trades[1..]);
    }
  }

  lemma ReleaseSameButLocks(s: State, id: Id)
    requires id in s.orders && OrdersOk(s)
    ensures SameButLocks(s, Release(s, id))
    ensures AccountsOk(s) ==> AccountsOk(Release(s, id))
  {
    var o := s.orders[id];
    if AccountsOk(s) && o.locked > 0 {
      assert Get(s.balances, o.terms.user).Solvent();
      assert Get(s.positions, KeyOf(o.terms)).Solvent();
      if o.terms.side.Buy? {
        SetBalanceOk(s, o.terms.user, Unfreeze(Get(s.balances, o.terms.user), o.locked));
      } else {
        SetPositionOk(s, KeyOf(o.terms), Unfreeze(Get(s.positions, KeyOf(o.terms)), o.locked));
      }
    }
  }

  lemma ReleaseWf(s: State, id: Id)
    requires Wf(s) && id in s.orders
    ensures Wf(Release(s, id))
  {
    hide QueueOk, Rests, Uncrossed, AccountsOk, Release;
    ReleaseSameButLocks(s, id);
    SameButLocksWf(s, Release(s, id));
  }

  lemma SettleAllWf(s: State, trades: seq<Trade>)
    requires Wf(s) && forall i :: 0 <= i < |trades| ==> Sound(trades[i])
    ensures Wf(SettleAll(s, trades))
  {
    hide QueueOk, Rests, Uncrossed, AccountsOk, Settle;
    SettleAllSameButLocks(s, trades);
    SettleAllAccounts(s, trades);
    SameButLocksWf(s, SettleAll(s, trades));
  }

  // ---------------------------------------------------------------------
  // Cancellation
  // ---------------------------------------------------------------------

  /** Removing by identifier is removing at the position found. */
  lemma {:induction false} RemoveIdIs(queue: seq<Id>, id: Id) returns (i: nat)
    ensures id !in queue ==> RemoveId(queue, id) == queue
    ensures id in queue ==> i < |queue| && queue[i] == id && RemoveId(queue, id) == RemoveAt(queue, i)
    decreases queue
  {
    i := 0;
    if queue != [] && queue[0] != id {
      var j := RemoveIdIs(queue[1..], id);
      i := j + 1;
      assert queue == [queue[0]] + queue[1..];
    }
  }

  /** A canceled order leaves its queue and the rest keep their order. */
  lemma RemoveIdPrioritized(
      orders: Orders, arrival: map<Id, nat>, side: Side, queue: seq<Id>, id: Id)
    requires Prioritized(orders, arrival, side, queue)
    ensures Prioritized(orders, arrival, side, RemoveId(queue, id))
    ensures id !in RemoveId(queue, id)
    ensures forall x | x != id :: x in RemoveId(queue, id) <==> x in queue
  {
    hide RemoveId;
    var i := RemoveIdIs(queue, id);
    if id in queue {
      RemoveAtPrioritized(orders, arrival, side, queue, i);
      forall x | x != id ensures x in RemoveId(queue, id) <==> x in queue {
        RemoveAtMember(queue, i, x);
      }
    }
  }

  /** The queues after a cancellation. */
  lemma WithdrawnResting(s: State, id: Id, event: Id, outcome: Outcome, side: Side)
    requires Wf(s) && id in s.orders
    ensures var queue := Resting(s, event, outcome, side);
            var queue' := Resting(Withdrawn(s, id), event, outcome, side);
            && Prioritized(s.orders, s.arrival, side, queue') && id !in queue'
            && forall x | x != id :: x in queue' <==> x in queue
  {
    var t := s.orders[id].terms;
    var queue := Resting(s, event, outcome, side);
    assert QueueOk(s, event, outcome, side);
    if t.event == event && t.outcome == outcome && t.side == side {
      RemoveIdPrioritized(s.orders, s.arrival, side, queue, id);
    } else {
      assert Resting(Withdrawn(s, id), event, outcome, side) == queue;
      if id in queue {
        QueueMember(s, event, outcome, side, id);
      }
    }
  }

  lemma WithdrawnQueue(s: State, id: Id, event: Id, outcome: Outcome, side: Side)
    requires Wf(s) && id in s.orders
    ensures QueueOk(Withdrawn(s, id), event, outcome, side)
  {
    WithdrawnResting(s, id, event, outcome, side);
    var s' := Withdrawn(s, id);
    var queue' := Resting(s', event, outcome, side);
    PrioritizedByTerms(s.orders, s'.orders, s.arrival, side, queue');
    forall i | 0 <= i < |queue'| ensures Belongs(s', queue'[i], event, outcome, side) {
      assert queue'[i] in queue';
      QueueMember(s, event, outcome, side, queue'[i]);
    }
  }

  lemma WithdrawnUncrossed(s: State, id: Id, event: Id, outcome: Outcome)
    requires Wf(s) && id in s.orders
    ensures Uncrossed(Withdrawn(s, id), event, outcome)
  {
    WithdrawnResting(s, id, event, outcome, Buy);
    WithdrawnResting(s, id, event, outcome, Sell);
    var s' := Withdrawn(s, id);
    forall b, a | b in Resting(s', event, outcome, Buy) && a in Resting(s', event, outcome, Sell)
      ensures Apart(s'.orders, b, a)
    {
      assert Uncrossed(s, event, outcome) && Apart(s.orders, b, a);
    }
  }

  lemma WithdrawnRests(s: State, id: Id, x: Id)
    requires Wf(s) && id in s.orders && x in s.orders
    ensures Rests(Withdrawn(s, id), x)
  {
    assert Rests(s, x);
    var t := s.orders[x].terms;
    WithdrawnResting(s, id, t.event, t.outcome, t.side);
  }

  lemma WithdrawnWf(s: State, id: Id)
    requires Wf(s) && id in s.orders && s.orders[id].Live()
    ensures Wf(Withdrawn(s, id))
  {
    hide QueueOk, Rests, Uncrossed;
    var s' := Withdrawn(s, id);
    forall event, outcome, side ensures QueueOk(s', event, outcome, side) {
      WithdrawnQueue(s, id, event, outcome, side);
    }
    forall event, outcome ensures Uncrossed(s', event, outcome) {
      WithdrawnUncrossed(s, id, event, outcome);
    }
    forall x | x in s'.orders ensures Rests(s', x) {
      WithdrawnRests(s, id, x);
    }
  }

  lemma CancelWf(s: State, id: Id, event: Id)
    requires Wf(s)
    ensures Wf(Cancel(s, id, event).state)
  {
    hide QueueOk, Rests, Uncrossed, Release, AccountsOk;
    if Cancel(s, id, event).result.Ok? {
      WithdrawnWf(s, id);
      ReleaseWf(Withdrawn(s, id), id);
    }
  }
}
