/**
 What partition workers publish (internal/engine/engine.go, handleCreateOrderCore,
 matchOrder, handleCancelOrderP): every event a worker owes for the commands it
 began leaves it once, in order, unless its own publication fails.
 */
module Publication {
  import opened Types
  import opened Matching
  import opened EngineState
  import opened Invariant
  import opened MatchInvariant
  import opened Runs
  import opened Commands
  import opened Stream

  /** Where a worker stands agrees with the order it admitted last. */
  predicate Follows(ph: Phase, placed: Id) {
    && (ph.Announcing? ==> ph.order.terms.id == placed)
    && (ph.Announced? ==> ph.id == placed)
  }

  function PlacedAfter(a: Action, p: nat, placed: Id): Id {
    if a.Begin? && a.p == p && a.step.Place? then OrderId(a.step.request, a.step.freshId) else placed
  }

  /** The events that an action obliges partition p to publish; placed is the order p admitted last. */
  function Owes(w: World, a: Action, p: nat, placed: Id): seq<Event>
    requires Possible(w, a) && Follows(PhaseOf(w, p), placed)
  {
    if a.p != p then [] else
      match a
      case Begin(_, Place(request, freshId)) =>
        var admission := Admit(w.engine, request, freshId);
        if admission.Admitted? then [OrderCreated(admission.order)] else []
      case Begin(_, Withdraw(id, event)) =>
        if Cancel(w.engine, id, event).result.Ok? then [OrderCanceled(id)] else []
      case MatchAdmitted(_) => TradeEvents(TradesOf(w.engine, placed))
      case _ => []
  }

  /** All that a schedule obliges partition p to publish, in order. */
  function Owed(w: World, actions: seq<Action>, p: nat, placed: Id): seq<Event>
    requires IsSchedule(w, actions) && Follows(PhaseOf(w, p), placed)
    decreases actions
  {
    if actions == [] then [] else
      FollowsOn(w, actions[0], p, placed);
      Owes(w, actions[0], p, placed)
      + Owed(Do(w, actions[0]), actions[1..], p, PlacedAfter(actions[0], p, placed))
  }

  /** For each publication that partition p attempts, whether the event got out. */
  function OutOf(a: Action, p: nat): seq<bool> {
    match a
    case Publish(q) => if q == p then [true] else []
    case Fail(q, appended) => if q == p then [appended] else []
    case _ => []
  }

  function Outs(actions: seq<Action>, p: nat): seq<bool> {
    if actions == [] then [] else OutOf(actions[0], p) + Outs(actions[1..], p)
  }

  /** The events that got out. */
  function Kept(events: seq<Event>, outs: seq<bool>): seq<Event>
    requires |outs| <= |events|
  {
    if outs == [] then []
    else (if outs[0] then [events[0]] else []) + Kept(events[1..], outs[1..])
  }

  /** The events of one partition in the stream. */
  function EventsAt(stream: seq<Envelope>, p: nat): seq<Event> {
    if stream == [] then [] else
      var n := |stream| - 1;
      EventsAt(stream[..n], p) + (if stream[n].partition == p then [stream[n].event] else [])
  }

  /** What a worker still has to publish before its next section. */
  function Outstanding(ph: Phase): seq<Event> {
    match ph
    case Announcing(o, _) => [OrderCreated(o)]
    case Reporting(trades, _) => TradeEvents(trades)
    case Retracting(id, _) => [OrderCanceled(id)]
    case _ => []
  }

  lemma AdmittedId(s: State, r: Request, freshId: Id)
    ensures var a := Admit(s, r, freshId);
            a.Admitted? ==> a.order.terms.id == OrderId(r, freshId)
  {
    hide Reserve;
  }

  lemma FollowsOn(w: World, a: Action, p: nat, placed: Id)
    requires Possible(w, a) && Follows(PhaseOf(w, p), placed)
    ensures Follows(PhaseOf(Do(w, a), p), PlacedAfter(a, p, placed))
  {
    hide Admit, Cancel, Match, TradesOf, EmitFails, Matchable;
    if a.Begin? && a.step.Place? {
      AdmittedId(w.engine, a.step.request, a.step.freshId);
    }
  }

  lemma AppendAt(stream: seq<Envelope>, e: Envelope, p: nat)
    ensures EventsAt(stream + [e], p) == EventsAt(stream, p) + (if e.partition == p then [e.event] else [])
  {
    assert (stream + [e])[..|stream|] == stream;
  }

  /** A publication of any worker, or one that failed, seen from partition p. */
  lemma OneEmission(w: World, a: Action, p: nat)
    requires Possible(w, a) && (a.Publish? || a.Fail?)
    ensures var w', before := Do(w, a), Outstanding(PhaseOf(w, p));
            && |OutOf(a, p)| <= |before|
            && Outstanding(PhaseOf(w', p)) == before[|OutOf(a, p)|..]
            && EventsAt(w'.stream, p) == EventsAt(w.stream, p) + Kept(before[..|OutOf(a, p)|], OutOf(a, p))
  {
    hide EmitFails, EventsAt, AfterEmit, Outstanding;
    var ph := PhaseOf(w, a.p);
    var e := Envelope(a.p, ph.stamp.value, Emitted(ph));
    AppendAt(w.stream, e, p);
    EmitTakesFirst(ph);
    var w' := Do(w, a);
    PhaseAfter(w, w', a.p, if a.Fail? && ph.Announcing? then Idle else AfterEmit(ph));
    assert Outstanding(Idle) == [] by { NothingIdle(); }
    if p == a.p {
      assert Outstanding(ph)[..1] == [Emitted(ph)];
      KeptOne(Emitted(ph), OutOf(a, p)[0]);
    } else {
      NothingKept(Outstanding(PhaseOf(w, p)));
    }
  }

  lemma NothingIdle()
    ensures Outstanding(Idle) == []
  {
  }

  lemma KeptOne(e: Event, out: bool)
    ensures Kept([e], [out]) == if out then [e] else []
  {
    assert Kept([e][1..], [out][1..]) == [];
  }

  /** One action of any worker, seen from partition p. */
  lemma OneAction(w: World, a: Action, p: nat, placed: Id)
    requires Possible(w, a) && Follows(PhaseOf(w, p), placed)
    ensures var w', before := Do(w, a), Outstanding(PhaseOf(w, p)) + Owes(w, a, p, placed);
            && |OutOf(a, p)| <= |before|
            && Outstanding(PhaseOf(w', p)) == before[|OutOf(a, p)|..]
            && EventsAt(w'.stream, p) == EventsAt(w.stream, p) + Kept(before[..|OutOf(a, p)|], OutOf(a, p))
  {
    hide Admit, Cancel, Match, TradesOf, EmitFails, Matchable, EventsAt;
    if a.Publish? || a.Fail? {
      OneEmission(w, a, p);
      NothingKept(Outstanding(PhaseOf(w, p)));
    } else if a.MatchAdmitted? && a.p == p {
      ReportOwes(TradesOf(w.engine, placed));
    }
  }

  lemma ReportOwes(trades: seq<Trade>)
    ensures Outstanding(Report(trades)) == TradeEvents(trades)
  {
  }

  /** A worker publishes the first event that is outstanding; the rest stay outstanding. */
  lemma EmitTakesFirst(ph: Phase)
    requires Emitting(ph)
    ensures Outstanding(ph) == [Emitted(ph)] + Outstanding(AfterEmit(ph))
    ensures ph.Announcing? ==> Outstanding(ph) == [Emitted(ph)]
  {
    if ph.Reporting? {
      ReportOwes(ph.trades[1..]);
      assert TradeEvents(ph.trades) == [TradeExecuted(ph.trades[0])] + TradeEvents(ph.trades[1..]);
    }
  }

  lemma {:induction false} KeptAppend(a: seq<Event>, b: seq<Event>, x: seq<bool>, y: seq<bool>)
    requires |x| == |a| && |y| <= |b|
    ensures Kept(a + b, x + y) == Kept(a, x) + Kept(b, y)
  {
    if a == [] {
      assert a + b == b && x + y == y;
    } else {
      assert (a + b)[1..] == a[1..] + b && (x + y)[1..] == x[1..] + y;
      KeptAppend(a[1..], b, x[1..], y);
    }
  }

  /**
   For every schedule of every number of workers: what partition p owes, after what
   was outstanding, is published in order; an event is missing only where the attempt
   to publish it failed, and nothing but what p owes is published.
   */
  lemma {:induction false} PublishesWhatItOwes(w: World, actions: seq<Action>, p: nat, placed: Id)
    requires IsSchedule(w, actions) && Follows(PhaseOf(w, p), placed)
    ensures var w', outs := RunSchedule(w, actions), Outs(actions, p);
            var owed := Outstanding(PhaseOf(w, p)) + Owed(w, actions, p, placed);
            && |outs| <= |owed|
            && owed[|outs|..] == Outstanding(PhaseOf(w', p))
            && EventsAt(w'.stream, p) == EventsAt(w.stream, p) + Kept(owed[..|outs|], outs)
    decreases actions
  {
    hide Possible, Do, Owes, OutOf, Outstanding, EventsAt, Follows, Kept;
    if actions == [] {
      NothingKept(Outstanding(PhaseOf(w, p)));
    } else {
      var a := actions[0];
      var w1, placed1 := Do(w, a), PlacedAfter(a, p, placed);
      FollowsOn(w, a, p, placed);
      OneAction(w, a, p, placed);
      PublishesWhatItOwes(w1, actions[1..], p, placed1);
      var before, out := Outstanding(PhaseOf(w, p)) + Owes(w, a, p, placed), OutOf(a, p);
      var rest, outs := Owed(w1, actions[1..], p, placed1), Outs(actions[1..], p);
      var owed1 := Outstanding(PhaseOf(w1, p)) + rest;
      assert before + rest == before[..|out|] + owed1;
      assert (before + rest)[..|out + outs|] == before[..|out|] + owed1[..|outs|];
      assert (before + rest)[|out + outs|..] == owed1[|outs|..];
      assert Outstanding(PhaseOf(w, p)) + Owed(w, actions, p, placed) == before + rest;
      KeptAppend(before[..|out|], owed1[..|outs|], out, outs);
    }
  }

  lemma NothingKept(events: seq<Event>)
    ensures Kept(events[..0], []) == [] && events[0..] == events && events + [] == events
  {
  }

  predicate NeverFails(actions: seq<Action>, p: nat) {
    forall i :: 0 <= i < |actions| ==> !(actions[i].Fail? && actions[i].p == p)
  }

  lemma {:induction false} AllOut(actions: seq<Action>, p: nat, k: nat)
    requires NeverFails(actions, p) && k < |Outs(actions, p)|
    ensures Outs(actions, p)[k]
  {
    var n := |OutOf(actions[0], p)|;
    if k >= n {
      forall i | 0 <= i < |actions[1..]| ensures actions[1..][i] == actions[i + 1] {
      }
      AllOut(actions[1..], p, k - n);
    }
  }

  lemma {:induction false} AllKept(events: seq<Event>, outs: seq<bool>)
    requires |outs| == |events| && forall k :: 0 <= k < |outs| ==> outs[k]
    ensures Kept(events, outs) == events
  {
    if outs != [] {
      AllKept(events[1..], outs[1..]);
    }
  }

  /**
   A worker that begins and ends between commands and none of whose publications
   failed has published exactly the creation, the trades and the cancellation of each
   command it began, in order, whatever the other workers did.
   */
  lemma AllPublished(w: World, actions: seq<Action>, p: nat, placed: Id)
    requires IsSchedule(w, actions) && NeverFails(actions, p)
    requires PhaseOf(w, p).Idle? && PhaseOf(RunSchedule(w, actions), p).Idle?
    ensures EventsAt(RunSchedule(w, actions).stream, p) == EventsAt(w.stream, p) + Owed(w, actions, p, placed)
  {
    hide IsSchedule, RunSchedule, Owed, EventsAt, Kept, Outs, NeverFails;
    PublishesWhatItOwes(w, actions, p, placed);
    var outs, owed := Outs(actions, p), Owed(w, actions, p, placed);
    assert [] + owed == owed;
    assert |outs| == |owed| && owed[..|outs|] == owed;
    forall k | 0 <= k < |outs| ensures outs[k] {
      AllOut(actions, p, k);
    }
    AllKept(owed, outs);
  }

  // ---------------------------------------------------------------------
  // The engine under a schedule
  // ---------------------------------------------------------------------

  /** The locked section of the engine that an action runs. */
  function SectionOf(w: World, a: Action): seq<Step>
    requires Possible(w, a)
  {
    match a
    case Begin(_, step) => [step]
    case MatchAdmitted(p) => [MatchNow(PhaseOf(w, p).id)]
    case Fail(p, _) => if PhaseOf(w, p).Announcing? then [Unpublished(PhaseOf(w, p).order.terms.id)] else []
    case _ => []
  }

  function Sections(w: World, actions: seq<Action>): seq<Step>
    requires IsSchedule(w, actions)
    decreases actions
  {
    if actions == [] then [] else SectionOf(w, actions[0]) + Sections(Do(w, actions[0]), actions[1..])
  }

  /** Whatever holds of every run of the engine holds of every schedule of the workers. */
  lemma {:induction false} ScheduleIsRun(w: World, actions: seq<Action>)
    requires IsSchedule(w, actions)
    ensures IsRun(w.engine, Sections(w, actions))
    ensures Run(w.engine, Sections(w, actions)) == RunSchedule(w, actions).engine
    decreases actions
  {
    hide Apply, Enabled, Possible, Do;
    if actions != [] {
      var a := actions[0];
      var w1 := Do(w, a);
      var rest := Sections(w1, actions[1..]);
      ScheduleIsRun(w1, actions[1..]);
      SectionRuns(w, a);
      assert Sections(w, actions) == SectionOf(w, a) + rest;
      if SectionOf(w, a) == [] {
        assert SectionOf(w, a) + rest == rest;
      } else {
        assert (SectionOf(w, a) + rest)[1..] == rest;
      }
    }
  }

  lemma SectionRuns(w: World, a: Action)
    requires Possible(w, a)
    ensures |SectionOf(w, a)| <= 1
    ensures SectionOf(w, a) == [] ==> Do(w, a).engine == w.engine
    ensures SectionOf(w, a) != [] ==>
              (Enabled(w.engine, SectionOf(w, a)[0]) && Do(w, a).engine == Apply(w.engine, SectionOf(w, a)[0]))
  {
    hide Admit, Cancel, Match, TradesOf, EmitFails, Matchable, UserCreated, CreateEvent;
  }

  // ---------------------------------------------------------------------
  // One worker alone
  // ---------------------------------------------------------------------

  /** The commands that are begun, in order. */
  function LogOf(a: Action): seq<Command> {
    match a
    case Begin(_, Place(request, freshId)) => [CreateOrder(request, freshId)]
    case Begin(_, Withdraw(id, event)) => [CancelOrder(id, event)]
    case Begin(_, OpenUser(user)) => [CreateUser(user)]
    case Begin(_, OpenEvent(event)) => [CreateMarket(event)]
    case _ => []
  }

  function Log(actions: seq<Action>): seq<Command> {
    if actions == [] then [] else LogOf(actions[0]) + Log(actions[1..])
  }

  /** Only partition p acts, and nothing it publishes fails. */
  predicate Alone(actions: seq<Action>, p: nat) {
    forall i :: 0 <= i < |actions| ==> actions[i].p == p && !actions[i].Fail?
  }

  lemma HeldMatchable(w: World, p: nat)
    requires Orderly(w) && Held(PhaseOf(w, p)).Some?
    ensures Matchable(w.engine, Held(PhaseOf(w, p)).value) && Keyed(w.engine.orders)
  {
    hide Wf, OrdersCreated, TradesFollow, SequencesIncrease, CountersOk, PhaseCreated, Matchable;
    InflightKnown(w.engine, Held(PhaseOf(w, p)).value);
    WfMatchable(w.engine, Held(PhaseOf(w, p)).value);
  }

  /** The engine once the worker has matched the order it holds. */
  ghost function Finished(w: World, p: nat): State
    requires Orderly(w)
  {
    var held := Held(PhaseOf(w, p));
    if held.None? then w.engine else
      HeldMatchable(w, p);
      Match(w.engine, held.value)
  }

  /** What the worker will publish before it is idle. */
  ghost function Upcoming(w: World, p: nat): seq<Event>
    requires Orderly(w)
  {
    var held := Held(PhaseOf(w, p));
    Outstanding(PhaseOf(w, p)) + (
      if held.None? then [] else
        HeldMatchable(w, p);
        TradeEvents(TradesOf(w.engine, held.value)))
  }

  /** A worker that begins a command has it handled and will publish its events. */
  lemma BeginAlone(w: World, p: nat, step: Step)
    requires Orderly(w) && Possible(w, Begin(p, step))
    ensures var w', log := Do(w, Begin(p, step)), LogOf(Begin(p, step));
            && |log| == 1 && Orderly(w')
            && Finished(w, p) == w.engine && Upcoming(w, p) == []
            && Finished(w', p) == Handle(w.engine, log[0]).state
            && Upcoming(w', p) == Handle(w.engine, log[0]).events
  {
    hide Orderly, Admit, Cancel, Match, TradesOf, Matchable, UserCreated, CreateEvent;
    BeginKeeps(w, p, step);
    assert Wf(w.engine) by { OrderlyWf(w); }
    if step.Place? {
      AdmittedId(w.engine, step.request, step.freshId);
    }
  }

  lemma OrderlyWf(w: World)
    requires Orderly(w)
    ensures Wf(w.engine)
  {
  }

  /** Between two sections the worker only publishes. */
  lemma GoesOnAlone(w: World, a: Action, placed: Id)
    requires Orderly(w) && Possible(w, a) && !a.Begin? && !a.Fail? && Follows(PhaseOf(w, a.p), placed)
    ensures var w' := Do(w, a);
            && Orderly(w')
            && Finished(w', a.p) == Finished(w, a.p)
            && EventsAt(w'.stream, a.p) + Upcoming(w', a.p) == EventsAt(w.stream, a.p) + Upcoming(w, a.p)
  {
    hide Orderly, Match, TradesOf, Matchable, EventsAt, Kept;
    ActionKeeps(w, a);
    OneAction(w, a, a.p, placed);
    match a
    case Stamp(p) =>
    case MatchAdmitted(p) =>
      ReportOwes(TradesOf(w.engine, placed));
    case Publish(p) =>
      EmitTakesFirst(PhaseOf(w, p));
      AppendAt(w.stream, Envelope(p, PhaseOf(w, p).stamp.value, Emitted(PhaseOf(w, p))), p);
  }

  /** One action of a worker alone, as handling of a log of one command or none. */
  lemma OneAlone(w: World, a: Action, placed: Id)
    requires Orderly(w) && Possible(w, a) && !a.Fail? && Follows(PhaseOf(w, a.p), placed)
    ensures var w', s := Do(w, a), Finished(w, a.p);
            && Orderly(w') && Wf(s)
            && Finished(w', a.p) == HandleAll(s, LogOf(a))
            && EventsAt(w'.stream, a.p) + Upcoming(w', a.p)
                == EventsAt(w.stream, a.p) + Upcoming(w, a.p) + EventsOf(s, LogOf(a))
  {
    hide Orderly, Possible, Handle, EventsAt, Follows, Finished, Upcoming, Wf, Admit, Cancel, Match, TradesOf, Matchable;
    FinishedWf(w, a.p);
    if a.Begin? {
      BeginAlone(w, a.p, a.step);
      OneCommand(w.engine, LogOf(a)[0]);
      OneCommandEvents(w.engine, LogOf(a)[0]);
    } else {
      GoesOnAlone(w, a, placed);
    }
  }

  lemma OneCommandEvents(s: State, c: Command)
    requires Wf(s)
    ensures EventsOf(s, [c]) == Handle(s, c).events
  {
    hide Handle, Wf;
    assert [c][1..] == [];
  }

  lemma {:induction false} EventsOfAppend(s: State, a: seq<Command>, b: seq<Command>)
    requires Wf(s)
    ensures EventsOf(s, a + b) == EventsOf(s, a) + EventsOf(HandleAll(s, a), b)
    decreases a
  {
    hide Handle, Wf;
    if a == [] {
      assert a + b == b;
    } else {
      assert (a + b)[1..] == a[1..] + b;
      EventsOfAppend(Handle(s, a[0]).state, a[1..], b);
    }
  }

  /**
   One worker alone, with nothing failing: at every moment its part of the stream,
   with what it is about to publish, is the list of events that handling its commands
   one after the other emits, and the engine is on the way to their state.
   */
  lemma {:induction false} AloneIsLog(w: World, actions: seq<Action>, p: nat, placed: Id)
    requires Orderly(w) && IsSchedule(w, actions) && Alone(actions, p) && Follows(PhaseOf(w, p), placed)
    ensures var w', s := RunSchedule(w, actions), Finished(w, p);
            && Orderly(w') && Wf(s)
            && Finished(w', p) == HandleAll(s, Log(actions))
            && EventsAt(w'.stream, p) + Upcoming(w', p)
                == EventsAt(w.stream, p) + Upcoming(w, p) + EventsOf(s, Log(actions))
    decreases actions
  {
    hide Orderly, Possible, Do, Handle, EventsAt, EventsOf, HandleAll, Follows, Finished, Upcoming, LogOf, Wf;
    FinishedWf(w, p);
    if actions == [] {
      EmptyLog(Finished(w, p));
    } else {
      var a, rest := actions[0], actions[1..];
      assert a.p == p && !a.Fail?;
      FollowsOn(w, a, p, placed);
      OneAlone(w, a, placed);
      AloneTail(actions, p);
      AloneIsLog(Do(w, a), rest, p, PlacedAfter(a, p, placed));
      HandleAllAppend(Finished(w, p), LogOf(a), Log(rest));
      EventsOfAppend(Finished(w, p), LogOf(a), Log(rest));
    }
  }

  lemma EmptyLog(s: State)
    requires Wf(s)
    ensures HandleAll(s, []) == s && EventsOf(s, []) == []
  {
    hide Wf;
  }

  lemma AloneTail(actions: seq<Action>, p: nat)
    requires actions != [] && Alone(actions, p)
    ensures Alone(actions[1..], p)
  {
  }

  lemma FinishedWf(w: World, p: nat)
    requires Orderly(w)
    ensures Wf(Finished(w, p))
  {
    hide Wf, OrdersCreated, TradesFollow, SequencesIncrease, CountersOk, PhaseCreated, Match;
    var held := Held(PhaseOf(w, p));
    if held.Some? {
      HeldMatchable(w, p);
      MatchWf(w.engine, held.value);
    }
  }

  /**
   So the stream of one worker that is between commands holds exactly the events that
   handling its commands one after the other emits, and its engine is in their state.
   */
  lemma StreamIsLog(w: World, actions: seq<Action>, p: nat)
    requires Starts(w) && IsSchedule(w, actions) && Alone(actions, p) && PhaseOf(RunSchedule(w, actions), p).Idle?
    ensures RunSchedule(w, actions).engine == HandleAll(w.engine, Log(actions))
    ensures EventsAt(RunSchedule(w, actions).stream, p) == EventsOf(w.engine, Log(actions))
  {
    hide IsSchedule, RunSchedule, Alone, HandleAll, EventsOf, Orderly, Log, Wf;
    StartsOrderly(w);
    AloneIsLog(w, actions, p, NO_ID);
    var w' := RunSchedule(w, actions);
    assert Upcoming(w, p) == [] && Upcoming(w', p) == [];
    assert EventsAt(w'.stream, p) + [] == EventsAt(w'.stream, p);
  }
}
