/**
 Commands that are in the stream and not handled yet when the engine stops. The replay
 reads the whole stream and publishes nothing (internal/engine/replay.go); the consumer
 that starts afterwards finds their effects in place and emits nothing either.
 */
module Unhandled {
  import opened Types
  import Matching
  import opened EngineState
  import opened Invariant
  import opened Shares
  import opened Cash
  import opened Outcomes
  import opened Commands
  import opened Replay
  import opened Database
  import opened Projection

  /** The tables miss the cancellation of a limit order. */
  predicate MissesCancel(s: State, db: Tables, x: Id) {
    && x in s.orders && x in db.orders && s.orders[x].status.Canceled? && s.orders[x].terms.kind.Limit?
    && !db.orders[x].status.Canceled?
  }

  /** The tables miss an order of the engine, or the cancellation of one. */
  ghost predicate Ahead(s: State, db: Tables) {
    !(s.orders.Keys <= db.orders.Keys) || exists x :: MissesCancel(s, db, x)
  }

  lemma AgreeIsNotAhead(s: State, db: Tables)
    requires Agree(s, db)
    ensures !Ahead(s, db)
  {
    hide UsersMirror, PositionsMirror, OwnersKnown;
    forall x: Id ensures !MissesCancel(s, db, x) {
      if x in s.orders {
        assert RowMirrors(s.orders[x], db.orders[x], Matching.Quantity([], x));
      }
    }
  }

  lemma AheadStays(s: State, db: Tables, c: Command)
    requires Wf(s) && Ahead(s, db)
    ensures Ahead(Handle(s, c).state, db)
  {
    hide Handle, Wf;
    HandleGrows(s, c);
    if x :| MissesCancel(s, db, x) {
      HandleFinished(s, c, x);
      assert MissesCancel(Handle(s, c).state, db, x);
    }
  }

  lemma {:induction false} AheadThrough(s: State, db: Tables, log: seq<Command>)
    requires Wf(s) && Ahead(s, db)
    ensures Ahead(HandleAll(s, log), db)
    decreases log
  {
    hide Handle, Wf, Ahead;
    if log != [] {
      AheadStays(s, db, log[0]);
      AheadThrough(Handle(s, log[0]).state, db, log[1..]);
    }
  }

  /** A command that emits something leaves tables without its events behind. */
  lemma EmittingGoesAhead(s: State, db: Tables, c: Command)
    requires Wf(s) && Agree(s, db) && Handle(s, c).events != []
    ensures Ahead(Handle(s, c).state, db)
  {
    hide Wf, Admit, Match, Matchable, Cancel, UsersMirror, PositionsMirror, OwnersKnown;
    if c.CreateOrder? {
      AdmittedExactlyWhen(s, c.request, c.freshId);
      AdmittedStays(s, c.request, c.freshId);
    } else if c.CancelOrder? {
      CanceledExactlyWhen(s, c.order, c.eventId);
      CanceledGoesAhead(s, db, c.order, c.eventId);
    }
  }

  lemma CanceledGoesAhead(s: State, db: Tables, id: Id, event: Id)
    requires Wf(s) && Agree(s, db) && Cancel(s, id, event).result.Ok?
    ensures Ahead(Cancel(s, id, event).state, db)
  {
    hide UsersMirror, PositionsMirror, OwnersKnown, QueueOk, Uncrossed, AccountsOk, RemoveId;
    CancelLive(s, id, event);
    assert RowMirrors(s.orders[id], db.orders[id], Matching.Quantity([], id));
    CanceledOrder(s, id, event);
    assert MissesCancel(Cancel(s, id, event).state, db, id);
  }

  lemma CanceledOrder(s: State, id: Id, event: Id)
    requires Cancel(s, id, event).result.Ok?
    ensures id in Cancel(s, id, event).state.orders && id in s.orders
    ensures Cancel(s, id, event).state.orders[id].status.Canceled?
    ensures Cancel(s, id, event).state.orders[id].terms == s.orders[id].terms
  {
    hide RemoveId;
  }

  /**
   After a restart the tables agree with the replayed engine if and only if the commands
   that had not been handled live emit nothing: no order of theirs is admitted, and no
   cancellation accepted.
   */
  lemma {:induction false} TablesAgreeExactlyWhen(s: State, db: Tables, rest: seq<Command>)
    requires Good(s) && Agree(s, db) && AllAllowed(s, db.users.Keys, db.volumes.Keys, rest)
    ensures Agree(HandleAll(s, rest), db) <==> EventsOf(s, rest) == []
    decreases rest
  {
    hide Handle, Wf, CashOk, SharesOk, Agree, ApplyAll, Allowed, Ahead;
    if rest != [] {
      var h := Handle(s, rest[0]);
      if h.events == [] {
        HandleProjects(s, db, rest[0]);
        AppliesNothing(db);
        TablesAgreeExactlyWhen(h.state, db, rest[1..]);
      } else {
        EmittingGoesAhead(s, db, rest[0]);
        AheadThrough(h.state, db, rest[1..]);
        if Agree(HandleAll(s, rest), db) {
          AgreeIsNotAhead(HandleAll(s, rest), db);
        }
      }
    }
  }

  /**
   When the unhandled commands are accepted by the replay and name their orders, their
   later delivery emits nothing. So if they emit anything at all, the tables never get it:
   they disagree with the engine from then on.
   */
  lemma TablesNeverCatchUp(s: State, db: Tables, rest: seq<Command>, delivered: seq<Command>)
    requires Good(s) && Agree(s, db) && AllAllowed(s, db.users.Keys, db.volumes.Keys, rest)
    requires AllAccepted(s, rest) && Redraws(rest, delivered) && forall i :: 0 <= i < |rest| ==> Explicit(rest[i])
    ensures var replayed := HandleAll(s, rest);
            && EventsOf(replayed, delivered) == [] && HandleAll(replayed, delivered) == replayed
            && (EventsOf(s, rest) != [] ==>
                  !Agree(HandleAll(replayed, delivered), ApplyAll(db, EventsOf(replayed, delivered)).tables))
  {
    hide Wf, CashOk, SharesOk, Agree, ApplyAll, AllAllowed, HandleAll, EventsOf, AllAccepted, Redraws, Explicit;
    ReplayIsNoOp(s, rest, delivered);
    TablesAgreeExactlyWhen(s, db, rest);
    AppliesNothing(db);
  }
}
