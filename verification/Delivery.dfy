/**
 At-least-once delivery. The worker may be handed any entry of the event stream
 again, at any later time and any number of times; the tables it ends with are
 those of a single pass.
 */
module Delivery {
  import opened Types
  import opened EngineState
  import opened Invariant
  import opened Shares
  import opened Cash
  import opened Runs
  import opened Lifecycle
  import opened Commands
  import Replay
  import opened Database
  import opened Projection

  /** The effect of the event is in the tables. */
  predicate Settled(db: Tables, e: Event) {
    match e
    case OrderCreated(o) => o.terms.id in db.orders && o.terms.quantity > 0 && o.terms.price >= 0
    case TradeExecuted(t) => ValidTrade(t) && t.id in db.trades
    case OrderCanceled(id) => id in db.orders && db.orders[id].status.Canceled?
  }

  lemma SettledIsIdle(db: Tables, e: Event)
    requires Settled(db, e)
    ensures ApplyEvent(db, e) == Done(db)
  {
    if e.OrderCanceled? {
      assert db.orders[e.orderId := db.orders[e.orderId].(status := Canceled)] == db.orders;
    }
  }

  /** A trade that fills a canceled order's row would undo its cancellation. */
  predicate Undoes(e: Event, earlier: Event) {
    e.TradeExecuted? && earlier.OrderCanceled? && e.trade.Names(earlier.orderId)
  }

  /** No trade follows the cancellation of one of its orders. */
  ghost predicate Quiet(events: seq<Event>) {
    forall i, j :: 0 <= i < j < |events| ==> !Undoes(events[j], events[i])
  }

  lemma SettledStays(db: Tables, e: Event, d: Event)
    requires Settled(db, e) && ApplyEvent(db, d).Done? && !Undoes(d, e)
    ensures Settled(ApplyEvent(db, d).tables, e)
  {
    hide Recorded, FilledRow;
    if d.TradeExecuted? && d.trade.id !in db.trades {
      AppliedKeys(db, d.trade);
      AppliedStatus(db, d.trade);
    }
  }

  lemma AppliedStatus(db: Tables, t: Trade)
    requires References(db, t)
    ensures forall id | id in db.orders && !t.Names(id) ::
              id in Applied(db, t).orders && Applied(db, t).orders[id] == db.orders[id]
  {
  }

  /** Each event succeeds in turn and leaves its effect. */
  ghost predicate Drains(db: Tables, events: seq<Event>)
    decreases events
  {
    events != [] ==>
      var e := ApplyEvent(db, events[0]);
      e.Done? && Settled(e.tables, events[0]) && Drains(e.tables, events[1..])
  }

  lemma {:induction false} DrainsAppend(db: Tables, a: seq<Event>, b: seq<Event>)
    requires ApplyAll(db, a).Done? && Drains(db, a) && Drains(ApplyAll(db, a).tables, b)
    ensures Drains(db, a + b)
    decreases a
  {
    hide ApplyEvent, Settled;
    if a == [] {
      assert a + b == b;
    } else {
      assert (a + b)[1..] == a[1..] + b;
      DrainsAppend(ApplyEvent(db, a[0]).tables, a[1..], b);
    }
  }

  // ---------------------------------------------------------------------
  // Deliveries
  // ---------------------------------------------------------------------

  /** Indexes into the stream; first deliveries come in order, repeats at any time after. */
  predicate AtLeastOnce(deliveries: seq<nat>, seen: nat, n: nat)
    decreases deliveries
  {
    if deliveries == [] then seen == n
    else deliveries[0] <= seen && deliveries[0] < n
         && AtLeastOnce(deliveries[1..], if deliveries[0] == seen then seen + 1 else seen, n)
  }

  /** Hand the entries to the worker one after the other, until one fails. */
  function DeliverEvents(db: Tables, events: seq<Event>, deliveries: seq<nat>): Effect
    requires forall i :: 0 <= i < |deliveries| ==> deliveries[i] < |events|
    decreases deliveries
  {
    if deliveries == [] then Done(db) else
      var e := ApplyEvent(db, events[deliveries[0]]);
      if e.Failed? then e else DeliverEvents(e.tables, events, deliveries[1..])
  }

  lemma {:induction false} AtLeastOnceInRange(deliveries: seq<nat>, seen: nat, n: nat, i: nat)
    requires AtLeastOnce(deliveries, seen, n) && i < |deliveries|
    ensures deliveries[i] < n
    decreases deliveries
  {
    if i > 0 {
      AtLeastOnceInRange(deliveries[1..], if deliveries[0] == seen then seen + 1 else seen, n, i - 1);
    }
  }

  /** Deliveries with repeats have the effect of one pass over what is left of the stream. */
  lemma {:induction false} RepeatsAreIdle(db: Tables, events: seq<Event>, deliveries: seq<nat>, seen: nat)
    requires seen <= |events| && AtLeastOnce(deliveries, seen, |events|) && Quiet(events)
    requires forall i :: 0 <= i < |deliveries| ==> deliveries[i] < |events|
    requires forall j :: 0 <= j < seen ==> Settled(db, events[j])
    requires Drains(db, events[seen..])
    ensures DeliverEvents(db, events, deliveries) == ApplyAll(db, events[seen..])
    decreases deliveries
  {
    hide ApplyEvent, Settled, Undoes;
    if deliveries == [] {
      assert events[seen..] == [];
    } else {
      var d := deliveries[0];
      if d == seen {
        var db' := ApplyEvent(db, events[seen]).tables;
        assert events[seen..][0] == events[seen] && events[seen..][1..] == events[seen + 1..];
        forall j | 0 <= j < seen + 1 ensures Settled(db', events[j]) {
          if j < seen {
            SettledStays(db, events[j], events[seen]);
          }
        }
        RepeatsAreIdle(db', events, deliveries[1..], seen + 1);
      } else {
        SettledIsIdle(db, events[d]);
        RepeatsAreIdle(db, events, deliveries[1..], seen);
      }
    }
  }

  // ---------------------------------------------------------------------
  // The events of a log
  // ---------------------------------------------------------------------

  /** No trade of a later command names an order that is finished. */
  lemma {:induction false} FinishedNotTraded(s: State, log: seq<Command>, x: Id, i: nat)
    requires Wf(s) && x in s.orders && !s.orders[x].Live() && i < |EventsOf(s, log)|
    ensures EventsOf(s, log)[i].TradeExecuted? ==> !EventsOf(s, log)[i].trade.Names(x)
    decreases log
  {
    hide Handle, Wf;
    var h := Handle(s, log[0]);
    if i < |h.events| {
      CommandNotTraded(s, log[0], x, i);
    } else {
      Replay.HandleFinished(s, log[0], x);
      FinishedNotTraded(h.state, log[1..], x, i - |h.events|);
    }
  }

  lemma CommandNotTraded(s: State, c: Command, x: Id, i: nat)
    requires Wf(s) && x in s.orders && !s.orders[x].Live() && i < |Handle(s, c).events|
    ensures Handle(s, c).events[i].TradeExecuted? ==> !Handle(s, c).events[i].trade.Names(x)
  {
    hide Wf, Admit, Cancel, Match, Matchable, TradesOf;
    if c.CreateOrder? {
      var r, freshId := c.request, c.freshId;
      AdmittedReady(s, r, freshId);
      StepFinished(s, Place(r, freshId), x);
      FinishedUnnamed(Admit(s, r, freshId).state, OrderId(r, freshId), x);
    }
  }

  /** A cancellation leaves its order finished. */
  lemma CanceledIsFinished(s: State, c: Command, i: nat)
    requires Wf(s) && i < |Handle(s, c).events| && Handle(s, c).events[i].OrderCanceled?
    ensures |Handle(s, c).events| == 1
    ensures var x := Handle(s, c).events[i].orderId;
            var s' := Handle(s, c).state;
            x in s'.orders && !s'.orders[x].Live()
  {
    hide Wf, Admit, Match, Matchable, TradesOf, RemoveId;
  }

  /** In the events of every log, an order is not traded after it is canceled. */
  lemma {:induction false} LogQuiet(s: State, log: seq<Command>)
    requires Wf(s)
    ensures Quiet(EventsOf(s, log))
    decreases log
  {
    hide Handle, Wf;
    if log != [] {
      var h := Handle(s, log[0]);
      var later := EventsOf(h.state, log[1..]);
      LogQuiet(h.state, log[1..]);
      forall i, j | 0 <= i < j < |h.events + later| ensures !Undoes((h.events + later)[j], (h.events + later)[i]) {
        if i < |h.events| && h.events[i].OrderCanceled? {
          CanceledIsFinished(s, log[0], i);
          FinishedNotTraded(h.state, log[1..], h.events[i].orderId, j - |h.events|);
        }
      }
    }
  }

  lemma {:induction false} CreationsDrain(db: Tables, events: seq<Event>)
    requires ApplyAll(db, events).Done? && forall i :: 0 <= i < |events| ==> !events[i].OrderCanceled?
    ensures Drains(db, events)
    decreases events
  {
    hide Applied, References;
    if events != [] {
      if events[0].TradeExecuted? && events[0].trade.id !in db.trades {
        AppliedTrades(db, events[0].trade);
      }
      CreationsDrain(ApplyEvent(db, events[0]).tables, events[1..]);
    }
  }

  lemma AppliedTrades(db: Tables, t: Trade)
    ensures References(db, t) ==> t.id in Applied(db, t).trades
  {
    if References(db, t) {
      AppliedKeys(db, t);
    }
  }

  lemma HandleDrains(s: State, db: Tables, c: Command)
    requires Good(s) && Agree(s, db) && Allowed(s, db.users.Keys, db.volumes.Keys, c)
    ensures Drains(db, Handle(s, c).events)
  {
    hide Admit, Match, CashOk, SharesOk, Wf, Matchable, InBudget, ApplyEvent, RowMirrors, TradesOf;
    HandleProjects(s, db, c);
    if c.CancelOrder? {
      CancelDrains(s, db, c.order, c.eventId);
    } else {
      CreationsDrain(db, Handle(s, c).events);
    }
  }

  lemma CancelDrains(s: State, db: Tables, id: Id, event: Id)
    requires db.orders.Keys == s.orders.Keys
    ensures Cancel(s, id, event).result.Ok? ==> Drains(db, [OrderCanceled(id)])
    ensures Drains(db, [])
  {
    hide Withdrawn, Release;
    assert [OrderCanceled(id)][1..] == [];
  }

  lemma {:induction false} LogDrains(s: State, db: Tables, log: seq<Command>)
    requires Good(s) && Agree(s, db) && AllAllowed(s, db.users.Keys, db.volumes.Keys, log)
    ensures Drains(db, EventsOf(s, log))
    decreases log
  {
    hide Handle, Wf, CashOk, SharesOk, Agree, ApplyAll, Allowed, ApplyEvent, Settled;
    if log != [] {
      var h := Handle(s, log[0]);
      HandleProjects(s, db, log[0]);
      HandleDrains(s, db, log[0]);
      var db1 := ApplyAll(db, h.events).tables;
      LogDrains(h.state, db1, log[1..]);
      DrainsAppend(db, h.events, EventsOf(h.state, log[1..]));
    }
  }

  /**
   For every log of allowed commands, draining its event stream with any number of
   redelivered entries never fails and ends in agreement with the engine.
   */
  lemma DeliveryAgrees(s: State, db: Tables, log: seq<Command>, deliveries: seq<nat>)
    requires Good(s) && Agree(s, db) && AllAllowed(s, db.users.Keys, db.volumes.Keys, log)
    requires AtLeastOnce(deliveries, 0, |EventsOf(s, log)|)
    ensures forall i :: 0 <= i < |deliveries| ==> deliveries[i] < |EventsOf(s, log)|
    ensures var e := DeliverEvents(db, EventsOf(s, log), deliveries);
            e.Done? && Agree(HandleAll(s, log), e.tables)
  {
    hide Handle, Wf, CashOk, SharesOk, Agree, ApplyAll, AllAllowed, ApplyEvent, EventsOf, HandleAll, Quiet, Drains, Settled;
    var events := EventsOf(s, log);
    forall i | 0 <= i < |deliveries| ensures deliveries[i] < |events| {
      AtLeastOnceInRange(deliveries, 0, |events|, i);
    }
    LogQuiet(s, log);
    LogDrains(s, db, log);
    LogProjects(s, db, log);
    assert events[0..] == events;
    RepeatsAreIdle(db, events, deliveries, 0);
  }
}
