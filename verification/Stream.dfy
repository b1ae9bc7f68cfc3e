/**
 The order of the event stream (internal/engine/engine.go, handleCreateOrderCore,
 matchOrder, emitEventP). Partition workers run concurrently: each admits an order,
 stamps and publishes its creation, matches it, then stamps and publishes its
 trades, and any other worker may act between any two of these moments.
 */
module Stream {
  import opened Types
  import opened Matching
  import opened EngineState
  import opened Invariant
  import opened MatchInvariant
  import opened Runs
  import opened Commands
  import Projection

  datatype Envelope = Envelope(partition: nat, sequence: nat, event: Event)

  /** Where a worker is in the handling of a command; stamp is the sequence drawn for the event it is about to publish. */
  datatype Phase =
    | Idle
    | Announcing(order: Order, stamp: Option<nat>)
    | Announced(id: Id)
    | Reporting(trades: seq<Trade>, stamp: Option<nat>)
    | Retracting(id: Id, stamp: Option<nat>)

  datatype World = World(engine: State, phases: map<nat, Phase>, sequences: map<nat, nat>, stream: seq<Envelope>)

  function PhaseOf(w: World, p: nat): Phase {
    if p in w.phases then w.phases[p] else Idle
  }

  /** The last sequence number drawn by a partition. */
  function Drawn(w: World, p: nat): nat {
    if p in w.sequences then w.sequences[p] else 0
  }

  predicate Emitting(ph: Phase) {
    ph.Announcing? || (ph.Reporting? && ph.trades != []) || ph.Retracting?
  }

  function Emitted(ph: Phase): Event
    requires Emitting(ph)
  {
    match ph
    case Announcing(o, _) => OrderCreated(o)
    case Reporting(trades, _) => TradeExecuted(trades[0])
    case Retracting(id, _) => OrderCanceled(id)
  }

  function Report(trades: seq<Trade>): Phase {
    if trades == [] then Idle else Reporting(trades, None)
  }

  /** What a worker does once its event is out. */
  function AfterEmit(ph: Phase): Phase
    requires Emitting(ph)
  {
    match ph
    case Announcing(o, _) => Announced(o.terms.id)
    case Reporting(trades, _) => Report(trades[1..])
    case Retracting(_, _) => Idle
  }

  datatype Action =
    | Begin(p: nat, step: Step)
    | Stamp(p: nat)
    | Publish(p: nat)
    | Fail(p: nat, appended: bool)
    | MatchAdmitted(p: nat)

  predicate Possible(w: World, a: Action) {
    var ph := PhaseOf(w, a.p);
    match a
    case Begin(_, step) => ph.Idle? && (step.OpenUser? || step.OpenEvent? || step.Place? || step.Withdraw?)
    case Stamp(_) => Emitting(ph) && ph.stamp.None?
    case Publish(_) => Emitting(ph) && ph.stamp.Some?
    case Fail(_, _) => Emitting(ph) && ph.stamp.Some? && (ph.Announcing? ==> ph.order.terms.id in w.engine.inflight)
    case MatchAdmitted(_) => ph.Announced? && Enabled(w.engine, MatchNow(ph.id))
  }

  /** The phase after the locked section that starts a command. */
  function Started(s: State, step: Step): Phase {
    match step
    case Place(r, freshId) =>
      var a := Admit(s, r, freshId);
      if a.Admitted? then Announcing(a.order, None) else Idle
    case Withdraw(id, event) => if Cancel(s, id, event).result.Ok? then Retracting(id, None) else Idle
    case _ => Idle
  }

  function Enter(w: World, p: nat, ph: Phase): World {
    w.(phases := w.phases[p := ph])
  }

  function Append(w: World, p: nat, ph: Phase): World
    requires Emitting(ph) && ph.stamp.Some?
  {
    w.(stream := w.stream + [Envelope(p, ph.stamp.value, Emitted(ph))])
  }

  /** A failed creation forgets the order; a failed trade or cancellation is only logged. */
  function Do(w: World, a: Action): World
    requires Possible(w, a)
  {
    var ph := PhaseOf(w, a.p);
    match a
    case Begin(p, step) => Enter(w, p, Started(w.engine, step)).(engine := Apply(w.engine, step))
    case Stamp(p) =>
      Enter(w, p, ph.(stamp := Some(Drawn(w, p) + 1))).(sequences := w.sequences[p := Drawn(w, p) + 1])
    case Publish(p) => Enter(Append(w, p, ph), p, AfterEmit(ph))
    case Fail(p, appended) =>
      var w1 := if appended then Append(w, p, ph) else w;
      if ph.Announcing? then Enter(w1, p, Idle).(engine := EmitFails(w.engine, ph.order.terms.id))
      else Enter(w1, p, AfterEmit(ph))
    case MatchAdmitted(p) =>
      Enter(w, p, Report(TradesOf(w.engine, ph.id))).(engine := Match(w.engine, ph.id))
  }

  predicate IsSchedule(w: World, actions: seq<Action>)
    decreases actions
  {
    actions == [] || (Possible(w, actions[0]) && IsSchedule(Do(w, actions[0]), actions[1..]))
  }

  function RunSchedule(w: World, actions: seq<Action>): World
    requires IsSchedule(w, actions)
    decreases actions
  {
    if actions == [] then w else RunSchedule(Do(w, actions[0]), actions[1..])
  }

  // ---------------------------------------------------------------------
  // The invariant
  // ---------------------------------------------------------------------

  predicate IsCreation(e: Envelope, id: Id) {
    e.event.OrderCreated? && e.event.order.terms.id == id
  }

  ghost predicate Created(stream: seq<Envelope>, id: Id) {
    exists i :: 0 <= i < |stream| && IsCreation(stream[i], id)
  }

  /** The order a worker has admitted and not matched yet. */
  function Held(ph: Phase): Option<Id> {
    match ph
    case Announcing(o, _) => Some(o.terms.id)
    case Announced(id) => Some(id)
    case _ => None
  }

  ghost predicate HeldOk(w: World) {
    && (forall p: nat :: Held(PhaseOf(w, p)).Some? ==> Held(PhaseOf(w, p)).value in w.engine.inflight)
    && (forall p: nat, q: nat :: p != q && Held(PhaseOf(w, p)).Some? ==> Held(PhaseOf(w, p)) != Held(PhaseOf(w, q)))
  }

  predicate Announces(ph: Phase, id: Id) {
    ph.Announcing? && ph.order.terms.id == id
  }

  /** Every order the engine knows is in the stream, except those just being announced. */
  ghost predicate OrdersCreated(w: World) {
    forall id | id in w.engine.orders :: Created(w.stream, id) || exists p: nat :: Announces(PhaseOf(w, p), id)
  }

  /** The orders of a trade about to be published, and of an order about to be matched, are in the stream. */
  ghost predicate PhaseCreated(stream: seq<Envelope>, ph: Phase) {
    && (ph.Announced? ==> Created(stream, ph.id))
    && (ph.Reporting? ==>
          forall i :: 0 <= i < |ph.trades| ==> Created(stream, ph.trades[i].taker) && Created(stream, ph.trades[i].maker))
  }

  /** Every trade comes after the creation of both its orders. */
  ghost predicate TradesFollow(stream: seq<Envelope>) {
    forall i :: 0 <= i < |stream| && stream[i].event.TradeExecuted? ==>
      Created(stream[..i], stream[i].event.trade.taker) && Created(stream[..i], stream[i].event.trade.maker)
  }

  ghost predicate SequencesIncrease(stream: seq<Envelope>) {
    forall i, j :: 0 <= i < j < |stream| && stream[i].partition == stream[j].partition ==>
      stream[i].sequence < stream[j].sequence
  }

  /** No published sequence exceeds the counter; one that is drawn and not published is beyond all of them. */
  ghost predicate CountersOk(w: World) {
    && (forall i :: 0 <= i < |w.stream| ==> w.stream[i].sequence <= Drawn(w, w.stream[i].partition))
    && (forall p: nat :: Emitting(PhaseOf(w, p)) && PhaseOf(w, p).stamp.Some? ==>
          && PhaseOf(w, p).stamp.value == Drawn(w, p)
          && forall i :: 0 <= i < |w.stream| && w.stream[i].partition == p ==> w.stream[i].sequence < Drawn(w, p))
  }

  ghost predicate Orderly(w: World) {
    && Wf(w.engine) && HeldOk(w) && OrdersCreated(w)
    && (forall p: nat :: PhaseCreated(w.stream, PhaseOf(w, p)))
    && TradesFollow(w.stream) && SequencesIncrease(w.stream) && CountersOk(w)
  }

  // ---------------------------------------------------------------------
  // The stream grows
  // ---------------------------------------------------------------------

  lemma CreatedStays(stream: seq<Envelope>, e: Envelope, id: Id)
    ensures Created(stream, id) ==> Created(stream + [e], id)
    ensures IsCreation(e, id) ==> Created(stream + [e], id)
  {
    if Created(stream, id) {
      var i :| 0 <= i < |stream| && IsCreation(stream[i], id);
      assert (stream + [e])[i] == stream[i];
    }
    assert (stream + [e])[|stream|] == e;
  }

  lemma PhaseCreatedStays(stream: seq<Envelope>, e: Envelope, ph: Phase)
    requires PhaseCreated(stream, ph)
    ensures PhaseCreated(stream + [e], ph)
  {
    hide Created;
    if ph.Announced? {
      CreatedStays(stream, e, ph.id);
    }
    if ph.Reporting? {
      forall i | 0 <= i < |ph.trades|
        ensures Created(stream + [e], ph.trades[i].taker) && Created(stream + [e], ph.trades[i].maker)
      {
        CreatedStays(stream, e, ph.trades[i].taker);
        CreatedStays(stream, e, ph.trades[i].maker);
      }
    }
  }

  lemma AppendFollows(stream: seq<Envelope>, e: Envelope)
    requires TradesFollow(stream)
    requires e.event.TradeExecuted? ==> Created(stream, e.event.trade.taker) && Created(stream, e.event.trade.maker)
    ensures TradesFollow(stream + [e])
  {
    hide Created;
    var longer := stream + [e];
    forall i | 0 <= i < |longer| && longer[i].event.TradeExecuted?
      ensures Created(longer[..i], longer[i].event.trade.taker) && Created(longer[..i], longer[i].event.trade.maker)
    {
      if i < |stream| {
        assert longer[..i] == stream[..i];
      } else {
        assert longer[..i] == stream;
      }
    }
  }

  lemma AppendIncreases(stream: seq<Envelope>, e: Envelope)
    requires SequencesIncrease(stream)
    requires forall i :: 0 <= i < |stream| && stream[i].partition == e.partition ==> stream[i].sequence < e.sequence
    ensures SequencesIncrease(stream + [e])
  {
  }

  /** Publishing the event of a phase: the stream's own properties are kept. */
  lemma AppendKeeps(w: World, p: nat)
    requires Orderly(w) && Emitting(PhaseOf(w, p)) && PhaseOf(w, p).stamp.Some?
    ensures var stream := Append(w, p, PhaseOf(w, p)).stream;
            && TradesFollow(stream) && SequencesIncrease(stream)
            && (forall q: nat :: PhaseCreated(stream, PhaseOf(w, q)))
            && (forall id: Id :: Created(w.stream, id) ==> Created(stream, id))
            && (PhaseOf(w, p).Announcing? ==> Created(stream, PhaseOf(w, p).order.terms.id))
  {
    hide Wf, HeldOk, OrdersCreated, Created, TradesFollow, SequencesIncrease;
    var ph := PhaseOf(w, p);
    var e := Envelope(p, ph.stamp.value, Emitted(ph));
    assert PhaseCreated(w.stream, ph);
    AppendFollows(w.stream, e);
    AppendIncreases(w.stream, e);
    forall q: nat ensures PhaseCreated(w.stream + [e], PhaseOf(w, q)) {
      PhaseCreatedStays(w.stream, e, PhaseOf(w, q));
    }
    forall id: Id ensures Created(w.stream, id) ==> Created(w.stream + [e], id) {
      CreatedStays(w.stream, e, id);
    }
    if ph.Announcing? {
      CreatedStays(w.stream, e, ph.order.terms.id);
    }
  }

  lemma AfterEmitCreated(stream: seq<Envelope>, ph: Phase)
    requires Emitting(ph) && PhaseCreated(stream, ph)
    requires ph.Announcing? ==> Created(stream, ph.order.terms.id)
    ensures PhaseCreated(stream, AfterEmit(ph))
  {
    hide Created;
  }

  /** Counters after the event of phase p is out, or given up. */
  lemma CountersAfterEmit(w: World, p: nat, appended: bool, ph': Phase, engine: State)
    requires CountersOk(w) && Emitting(PhaseOf(w, p)) && PhaseOf(w, p).stamp.Some?
    requires Emitting(ph') ==> ph'.stamp.None?
    ensures var w1 := if appended then Append(w, p, PhaseOf(w, p)) else w;
            CountersOk(Enter(w1, p, ph').(engine := engine))
  {
    var w1 := if appended then Append(w, p, PhaseOf(w, p)) else w;
    var w2 := Enter(w1, p, ph').(engine := engine);
    PhaseAfter(w, w2, p, ph');
    forall i | 0 <= i < |w2.stream|
      ensures w2.stream[i].sequence <= Drawn(w2, w2.stream[i].partition)
      ensures w2.stream[i].partition != p ==> i < |w.stream| && w2.stream[i] == w.stream[i]
    {
      assert i < |w.stream| ==> w2.stream[i] == w.stream[i];
    }
    forall q: nat | Emitting(PhaseOf(w2, q)) && PhaseOf(w2, q).stamp.Some?
      ensures PhaseOf(w2, q).stamp.value == Drawn(w2, q)
      ensures forall i :: 0 <= i < |w2.stream| && w2.stream[i].partition == q ==> w2.stream[i].sequence < Drawn(w2, q)
    {
      assert q != p && PhaseOf(w2, q) == PhaseOf(w, q);
    }
  }

  /** Drawing a sequence number puts it beyond all published ones of the partition. */
  lemma CountersAfterStamp(w: World, p: nat)
    requires CountersOk(w) && Possible(w, Stamp(p))
    ensures CountersOk(Do(w, Stamp(p)))
  {
    var w' := Do(w, Stamp(p));
    PhaseAfter(w, w', p, PhaseOf(w, p).(stamp := Some(Drawn(w, p) + 1)));
    forall q: nat | Emitting(PhaseOf(w', q)) && PhaseOf(w', q).stamp.Some?
      ensures PhaseOf(w', q).stamp.value == Drawn(w', q)
      ensures forall i :: 0 <= i < |w'.stream| && w'.stream[i].partition == q ==> w'.stream[i].sequence < Drawn(w', q)
    {
      assert q != p ==> PhaseOf(w', q) == PhaseOf(w, q) && Drawn(w', q) == Drawn(w, q);
    }
  }

  // ---------------------------------------------------------------------
  // The engine's steps
  // ---------------------------------------------------------------------

  /** Which orders are known and which are in flight after a section that starts a command. */
  lemma BeginShape(s: State, step: Step)
    requires Wf(s) && (step.OpenUser? || step.OpenEvent? || step.Place? || step.Withdraw?)
    ensures var s' := Apply(s, step);
            var ph := Started(s, step);
            && (ph.Announcing? ==> ph.order.terms.id !in s.orders && s'.orders.Keys == s.orders.Keys + {ph.order.terms.id}
                                   && s'.inflight == s.inflight + {ph.order.terms.id})
            && (!ph.Announcing? ==> s'.orders.Keys == s.orders.Keys && s'.inflight == s.inflight)
  {
    hide Validate, Reserve, QueueOk, Rests, Uncrossed, AccountsOk, OrderOk, Release;
    if step.Place? {
      var v := Validate(step.request, OrderId(step.request, step.freshId));
      if v.Ok? {
        ReserveBooks(s, v.value);
      }
    } else if step.Withdraw? && Cancel(s, step.order, step.event).result.Ok? {
      ReleaseKeys(Withdrawn(s, step.order), step.order);
    }
  }

  lemma ReleaseKeys(s: State, id: Id)
    requires id in s.orders
    ensures Release(s, id).orders.Keys == s.orders.Keys && Release(s, id).inflight == s.inflight
  {
  }

  lemma MatchShape(s: State, id: Id)
    requires Wf(s) && Enabled(s, MatchNow(id))
    ensures Match(s, id).orders.Keys == s.orders.Keys && Match(s, id).inflight == s.inflight - {id}
  {
    hide MatchLoop, Traded, TradesOf, QueueOk, Rests, Uncrossed, AccountsOk;
    MatchTerms(s, id, id);
    if s.orders[id].status.Pending? {
      IsReady(s, id);
      Projection.MatchInflight(s, id);
    }
  }

  /** The orders of a new trade: the one matched, and one that rests. */
  lemma TradeOrders(s: State, id: Id, i: nat)
    requires Wf(s) && Enabled(s, MatchNow(id)) && i < |TradesOf(s, id)|
    ensures var t := TradesOf(s, id)[i];
            t.taker == id && t.maker in s.orders && t.maker !in s.inflight
  {
    hide MatchLoop, Rests, Uncrossed, AccountsOk, OrderOk;
    IsReady(s, id);
    TradeSound(s, id, i);
    var t := s.orders[id].terms;
    QueueMember(s, t.event, t.outcome, t.side.Opposite(), TradesOf(s, id)[i].maker);
  }

  // ---------------------------------------------------------------------
  // Every action keeps the invariant
  // ---------------------------------------------------------------------

  lemma PhaseAfter(w: World, w': World, p: nat, ph: Phase)
    requires w'.phases == w.phases[p := ph]
    ensures forall q: nat :: PhaseOf(w', q) == if q == p then ph else PhaseOf(w, q)
  {
  }

  lemma BeginKeeps(w: World, p: nat, step: Step)
    requires Orderly(w) && Possible(w, Begin(p, step))
    ensures Orderly(Do(w, Begin(p, step)))
  {
    hide Wf, Apply, Started, Created, TradesFollow, SequencesIncrease;
    var w', ph := Do(w, Begin(p, step)), Started(w.engine, step);
    StepWf(w.engine, step);
    BeginShape(w.engine, step);
    PhaseAfter(w, w', p, ph);
    StartedKind(w.engine, step);
    InflightAreKnown(w.engine);
    forall id | id in w'.engine.orders
      ensures Created(w'.stream, id) || exists q: nat :: Announces(PhaseOf(w', q), id)
    {
      if id in w.engine.orders {
        if !Created(w.stream, id) {
          var q: nat :| Announces(PhaseOf(w, q), id);
          assert Announces(PhaseOf(w', q), id);
        }
      } else {
        assert Announces(PhaseOf(w', p), id);
      }
    }
  }

  lemma StartedKind(s: State, step: Step)
    ensures Started(s, step).Idle? || Started(s, step).Announcing? || Started(s, step).Retracting?
    ensures Emitting(Started(s, step)) ==> Started(s, step).stamp.None?
  {
  }

  lemma InflightAreKnown(s: State)
    requires Wf(s)
    ensures s.inflight <= s.orders.Keys
  {
    hide QueueOk, Rests, Uncrossed, AccountsOk, OrdersOk;
    forall id | id in s.inflight ensures id in s.orders {
      InflightKnown(s, id);
    }
  }

  lemma StampedPhase(w: World, p: nat)
    requires Possible(w, Stamp(p)) && PhaseCreated(w.stream, PhaseOf(w, p))
    ensures var stamped := PhaseOf(w, p).(stamp := Some(Drawn(w, p) + 1));
            && PhaseCreated(w.stream, stamped) && Held(stamped) == Held(PhaseOf(w, p))
            && (forall id: Id :: Announces(PhaseOf(w, p), id) ==> Announces(stamped, id))
  {
    hide Created;
  }

  lemma StampKeeps(w: World, p: nat)
    requires Orderly(w) && Possible(w, Stamp(p))
    ensures Orderly(Do(w, Stamp(p)))
  {
    hide Wf, Created, TradesFollow, SequencesIncrease, CountersOk, PhaseCreated, Announces, Held;
    var w', ph := Do(w, Stamp(p)), PhaseOf(w, p);
    CountersAfterStamp(w, p);
    StampedPhase(w, p);
    PhaseAfter(w, w', p, ph.(stamp := Some(Drawn(w, p) + 1)));
    forall id | id in w'.engine.orders
      ensures Created(w'.stream, id) || exists q: nat :: Announces(PhaseOf(w', q), id)
    {
      if !Created(w.stream, id) {
        var q: nat :| Announces(PhaseOf(w, q), id);
        assert Announces(PhaseOf(w', q), id);
      }
    }
  }

  lemma PublishKeeps(w: World, p: nat)
    requires Orderly(w) && Possible(w, Publish(p))
    ensures Orderly(Do(w, Publish(p)))
  {
    hide Wf, Created, TradesFollow, SequencesIncrease, CountersOk, PhaseCreated;
    var w', ph := Do(w, Publish(p)), PhaseOf(w, p);
    AppendKeeps(w, p);
    PhaseAfter(w, w', p, AfterEmit(ph));
    AfterEmitCreated(w'.stream, ph);
    CountersAfterEmit(w, p, true, AfterEmit(ph), w.engine);
    assert Held(AfterEmit(ph)).Some? ==> Held(AfterEmit(ph)) == Held(ph);
    forall id | id in w'.engine.orders
      ensures Created(w'.stream, id) || exists q: nat :: Announces(PhaseOf(w', q), id)
    {
      if !Created(w.stream, id) {
        var q: nat :| Announces(PhaseOf(w, q), id);
        if q != p {
          assert Announces(PhaseOf(w', q), id);
        }
      }
    }
  }

  lemma FailKeeps(w: World, p: nat, appended: bool)
    requires Orderly(w) && Possible(w, Fail(p, appended))
    ensures Orderly(Do(w, Fail(p, appended)))
  {
    hide Wf, Created, TradesFollow, SequencesIncrease, CountersOk, PhaseCreated;
    var w', ph := Do(w, Fail(p, appended)), PhaseOf(w, p);
    var ph' := if ph.Announcing? then Idle else AfterEmit(ph);
    AppendKeeps(w, p);
    PhaseAfter(w, w', p, ph');
    if ph.Announcing? {
      EmitFailsWf(w.engine, ph.order.terms.id);
    } else {
      AfterEmitCreated(w'.stream, ph);
    }
    assert PhaseCreated(w'.stream, Idle) by { IdleCreated(w'.stream); }
    CountersAfterEmit(w, p, appended, ph', w'.engine);
    forall id | id in w'.engine.orders
      ensures Created(w'.stream, id) || exists q: nat :: Announces(PhaseOf(w', q), id)
    {
      if !Created(w.stream, id) {
        var q: nat :| Announces(PhaseOf(w, q), id);
        assert Announces(PhaseOf(w', q), id);
      }
    }
  }

  lemma IdleCreated(stream: seq<Envelope>)
    ensures PhaseCreated(stream, Idle)
  {
  }

  /** An order that is known and not in flight is not just being announced. */
  lemma MatchedIsCreated(w: World, x: Id)
    requires OrdersCreated(w) && HeldOk(w) && x in w.engine.orders && x !in w.engine.inflight
    ensures Created(w.stream, x)
  {
    hide Created;
    forall q: nat ensures !Announces(PhaseOf(w, q), x) {
      assert Announces(PhaseOf(w, q), x) ==> Held(PhaseOf(w, q)) == Some(x);
    }
  }

  /** The trades of a match name only orders that are in the stream. */
  lemma MatchedCreated(w: World, p: nat)
    requires Orderly(w) && Possible(w, MatchAdmitted(p))
    ensures PhaseCreated(w.stream, Report(TradesOf(w.engine, PhaseOf(w, p).id)))
  {
    hide Wf, Created, TradesFollow, SequencesIncrease, CountersOk, Matchable;
    var id := PhaseOf(w, p).id;
    var trades := TradesOf(w.engine, id);
    assert PhaseCreated(w.stream, PhaseOf(w, p));
    forall i | 0 <= i < |trades| ensures Created(w.stream, trades[i].taker) && Created(w.stream, trades[i].maker) {
      TradeOrders(w.engine, id, i);
      MatchedIsCreated(w, trades[i].maker);
    }
  }

  lemma MatchKeeps(w: World, p: nat)
    requires Orderly(w) && Possible(w, MatchAdmitted(p))
    ensures Orderly(Do(w, MatchAdmitted(p)))
  {
    hide Wf, Created, TradesFollow, SequencesIncrease, PhaseCreated, Match, TradesOf, Matchable;
    var w', ph := Do(w, MatchAdmitted(p)), PhaseOf(w, p);
    StepWf(w.engine, MatchNow(ph.id));
    MatchShape(w.engine, ph.id);
    MatchedCreated(w, p);
    PhaseAfter(w, w', p, Report(TradesOf(w.engine, ph.id)));
    forall id | id in w'.engine.orders
      ensures Created(w'.stream, id) || exists q: nat :: Announces(PhaseOf(w', q), id)
    {
      if !Created(w.stream, id) {
        var q: nat :| Announces(PhaseOf(w, q), id);
        assert Announces(PhaseOf(w', q), id);
      }
    }
  }

  lemma ActionKeeps(w: World, a: Action)
    requires Orderly(w) && Possible(w, a)
    ensures Orderly(Do(w, a))
  {
    hide Orderly, Do, Possible;
    match a
    case Begin(p, step) => BeginKeeps(w, p, step);
    case Stamp(p) => StampKeeps(w, p);
    case Publish(p) => PublishKeeps(w, p);
    case Fail(p, appended) => FailKeeps(w, p, appended);
    case MatchAdmitted(p) => MatchKeeps(w, p);
  }

  lemma {:induction false} ScheduleKeeps(w: World, actions: seq<Action>)
    requires Orderly(w) && IsSchedule(w, actions)
    ensures Orderly(RunSchedule(w, actions))
    decreases actions
  {
    hide Orderly, Do, Possible;
    if actions != [] {
      ActionKeeps(w, actions[0]);
      ScheduleKeeps(Do(w, actions[0]), actions[1..]);
    }
  }

  /** A worker between commands can begin any command, and one in the middle of a command can always go on. */
  lemma NeverStuck(w: World, p: nat)
    requires Orderly(w)
    ensures var ph := PhaseOf(w, p);
            && (ph.Idle? ==> forall step: Step ::
                  step.OpenUser? || step.OpenEvent? || step.Place? || step.Withdraw? ==> Possible(w, Begin(p, step)))
            && (ph.Announced? ==> Possible(w, MatchAdmitted(p)))
            && (Emitting(ph) && ph.stamp.None? ==> Possible(w, Stamp(p)))
            && (Emitting(ph) && ph.stamp.Some? ==> Possible(w, Publish(p)) && forall b :: Possible(w, Fail(p, b)))
  {
    hide Wf, OrdersCreated, TradesFollow, SequencesIncrease, CountersOk, PhaseCreated, Matchable;
    var ph := PhaseOf(w, p);
    if ph.Announced? {
      assert Held(ph) == Some(ph.id);
      InflightKnown(w.engine, ph.id);
      WfMatchable(w.engine, ph.id);
    }
    if ph.Announcing? {
      assert Held(ph) == Some(ph.order.terms.id);
    }
  }

  // ---------------------------------------------------------------------
  // The theorem
  // ---------------------------------------------------------------------

  /** A process that has handled nothing: no orders, any funded accounts, an empty stream. */
  ghost predicate Starts(w: World) {
    Wf(w.engine) && w.engine.orders == map[] && w.phases == map[] && w.stream == []
  }

  /**
   For every schedule of every number of partition workers, with publications failing
   at will: each trade in the stream comes after the creation of its taker and of its
   maker, and the sequence numbers of each partition strictly increase.
   */
  lemma StreamOrder(w: World, actions: seq<Action>, i: nat)
    requires Starts(w) && IsSchedule(w, actions) && i < |RunSchedule(w, actions).stream|
    ensures var stream := RunSchedule(w, actions).stream;
            && (stream[i].event.TradeExecuted? ==>
                  && (exists j :: 0 <= j < i && IsCreation(stream[j], stream[i].event.trade.taker))
                  && (exists j :: 0 <= j < i && IsCreation(stream[j], stream[i].event.trade.maker)))
            && (forall j :: 0 <= j < i && stream[j].partition == stream[i].partition ==> stream[j].sequence < stream[i].sequence)
  {
    hide Wf, IsSchedule, RunSchedule, OrdersCreated;
    StartsOrderly(w);
    ScheduleKeeps(w, actions);
    var stream := RunSchedule(w, actions).stream;
    if stream[i].event.TradeExecuted? {
      PrefixCreated(stream, i, stream[i].event.trade.taker);
      PrefixCreated(stream, i, stream[i].event.trade.maker);
    }
  }

  lemma StartsOrderly(w: World)
    requires Starts(w)
    ensures Orderly(w)
  {
    hide Wf;
  }

  lemma PrefixCreated(stream: seq<Envelope>, i: nat, id: Id)
    requires i <= |stream| && Created(stream[..i], id)
    ensures exists j :: 0 <= j < i && IsCreation(stream[j], id)
  {
    var j :| 0 <= j < |stream[..i]| && IsCreation(stream[..i][j], id);
    assert IsCreation(stream[j], id);
  }
}
