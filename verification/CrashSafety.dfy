/**
 Crashes of the emit cycle and of its recovery. A crash may come between any two
 steps and in the middle of a journal write. Under crash-stop, where the first Redis
 error ends the process, no journaled envelope is ever lost; when the process goes on
 after a Redis error, truncation loses exactly what was never published.
 */
module CrashSafety {
  import opened Types
  import opened Outbox

  datatype Pc =
    | Ready
    | Journaled(e: Envelope)
    | InStream(e: Envelope)
    | Done
    | Down
    | Recovering(rest: seq<string>)
    | Republished(rest: seq<string>, e: Envelope)

  /**
   journaled holds every envelope whose line was written whole. kept and torn recall
   how the journal was written: complete lines, and the beginning of one more.
   */
  datatype World = World(
    journal: string,
    stream: seq<Envelope>,
    channel: seq<Envelope>,
    pc: Pc,
    journaled: set<Envelope>,
    kept: seq<Envelope>,
    torn: Option<Fragment>)

  datatype Fragment = Fragment(e: Envelope, length: nat)

  datatype Action =
    | Append(e: Envelope)
    | TornAppend(e: Envelope, length: nat)
    | AddToStream
    | Announce
    | Truncate
    | Crash
    | Restart
    | RepublishLine
    | AnnounceLine
    | FinishRecovery
    | StreamFails
    | ChannelFails
    | RecoveryFails

  predicate Possible(c: Codec, w: World, a: Action) {
    match a
    case Append(_) => w.pc.Ready?
    case TornAppend(e, length) => w.pc.Ready? && length <= |c.encode(e)|
    case AddToStream => w.pc.Journaled?
    case Announce => w.pc.InStream?
    case Truncate => w.pc.Done?
    case Crash => true
    case Restart => w.pc.Down?
    case RepublishLine => w.pc.Recovering? && w.pc.rest != []
    case AnnounceLine => w.pc.Republished?
    case FinishRecovery => w.pc.Recovering? && w.pc.rest == []
    case StreamFails => w.pc.Journaled?
    case ChannelFails => w.pc.InStream? && w.pc.e.trade
    case RecoveryFails => w.pc.Recovering? || w.pc.Republished?
  }

  /** The Redis errors after which the process goes on. */
  predicate GoesOn(a: Action) {
    a.StreamFails? || a.ChannelFails? || a.RecoveryFails?
  }

  function Truncated(w: World): World {
    w.(journal := [], pc := Ready, kept := [], torn := None)
  }

  function Do(c: Codec, w: World, a: Action): World
    requires Possible(c, w, a)
  {
    match a
    case Append(e) =>
      w.(journal := w.journal + (c.encode(e) + "\n"), pc := Journaled(e), journaled := w.journaled + {e}, kept := w.kept + [e])
    case TornAppend(e, length) =>
      w.(journal := w.journal + c.encode(e)[..length], pc := Down,
         journaled := if length == |c.encode(e)| then w.journaled + {e} else w.journaled,
         torn := Some(Fragment(e, length)))
    case AddToStream => w.(stream := w.stream + [w.pc.e], pc := InStream(w.pc.e))
    case Announce => w.(channel := w.channel + (if w.pc.e.trade then [w.pc.e] else []), pc := Done)
    case Truncate => Truncated(w)
    case Crash => w.(pc := Down)
    case Restart =>
      var s := Scan(w.journal);
      w.(pc := if !s.complete || s.lines == [] then Ready else Recovering(s.lines))
    case RepublishLine =>
      var d := c.decode(w.pc.rest[0]);
      if d.None? then w.(pc := Recovering(w.pc.rest[1..]))
      else w.(stream := w.stream + [d.value], pc := Republished(w.pc.rest[1..], d.value))
    case AnnounceLine => w.(channel := w.channel + (if w.pc.e.trade then [w.pc.e] else []), pc := Recovering(w.pc.rest))
    case FinishRecovery => Truncated(w)
    case StreamFails => w.(pc := Ready)
    case ChannelFails => w.(pc := Ready)
    case RecoveryFails => w.(pc := Ready)
  }

  predicate IsSchedule(c: Codec, w: World, actions: seq<Action>)
    decreases actions
  {
    actions == [] || (Possible(c, w, actions[0]) && IsSchedule(c, Do(c, w, actions[0]), actions[1..]))
  }

  function RunSchedule(c: Codec, w: World, actions: seq<Action>): World
    requires IsSchedule(c, w, actions)
    decreases actions
  {
    if actions == [] then w else RunSchedule(c, Do(c, w, actions[0]), actions[1..])
  }

  // ---------------------------------------------------------------------
  // The invariant
  // ---------------------------------------------------------------------

  /** Persistence needs the stream alone; a trade is also to be broadcast. */
  datatype Target = StreamOnly | BothTargets

  predicate Reached(w: World, e: Envelope, target: Target) {
    e in w.stream && (target.BothTargets? && e.trade ==> e in w.channel)
  }

  /** No journaled envelope is lost to the target. */
  ghost predicate CoveredAt(c: Codec, w: World, target: Target) {
    forall e :: e in w.journaled ==> Reached(w, e, target) || e in Unsent(c, w.journal)
  }

  function Tail(c: Codec, torn: Option<Fragment>): string {
    if torn.Some? && torn.value.length <= |c.encode(torn.value.e)| then c.encode(torn.value.e)[..torn.value.length] else []
  }

  /** The journal is what was written to it; only a crash leaves a torn line. */
  predicate Written(c: Codec, w: World) {
    && w.journal == Journal(c, w.kept) + Tail(c, w.torn)
    && (w.torn.Some? ==> w.torn.value.length <= |c.encode(w.torn.value.e)|)
    && (Tail(c, w.torn) != [] ==> w.pc.Down? || w.pc.Recovering? || w.pc.Republished?)
  }

  /** How far the emit cycle, or the recovery, has got. */
  ghost predicate Progress(c: Codec, w: World) {
    match w.pc
    case Ready => w.kept == []
    case Journaled(e) => w.kept == [e]
    case InStream(e) => w.kept == [e] && e in w.stream
    case Done => forall e :: e in w.kept ==> Reached(w, e, BothTargets)
    case Down => true
    case Recovering(rest) =>
      forall e :: e in Unsent(c, w.journal) ==> Reached(w, e, BothTargets) || e in Decoded(c, rest)
    case Republished(rest, d) =>
      d in w.stream && forall e :: e in Unsent(c, w.journal) ==> Reached(w, e, BothTargets) || e == d || e in Decoded(c, rest)
  }

  ghost predicate Safe(c: Codec, w: World) {
    Written(c, w) && CoveredAt(c, w, BothTargets) && Progress(c, w)
  }

  /** What a recovery finds, in terms of what was written. */
  lemma UnsentWritten(c: Codec, w: World)
    requires FaithfulCodec(c) && Written(c, w)
    ensures Scan(w.journal).complete
    ensures Unsent(c, w.journal)
         == w.kept + (if w.torn.Some? && w.torn.value.length == |c.encode(w.torn.value.e)| then [w.torn.value.e] else [])
    ensures Tail(c, w.torn) == [] ==> Unsent(c, w.journal) == w.kept
    ensures Scan(w.journal).lines == [] ==> w.kept == [] && Tail(c, w.torn) == []
  {
    hide Scan, Journal, Encoded, Decoded;
    var e := if w.torn.Some? then w.torn.value.e else Envelope(false, 0);
    assert Faithful(c, e);
    UnsentInJournal(c, w.kept, Tail(c, w.torn), e);
    JournalReadsBack(c, w.kept, Tail(c, w.torn));
    NoLines(c, w.kept);
  }

  lemma NoLines(c: Codec, envelopes: seq<Envelope>)
    ensures Encoded(c, envelopes) == [] ==> envelopes == []
    ensures Journal(c, []) == []
  {
  }

  lemma AppendSafe(c: Codec, w: World, e: Envelope)
    requires FaithfulCodec(c) && Safe(c, w) && Possible(c, w, Append(e))
    ensures Safe(c, Do(c, w, Append(e)))
  {
    hide Unsent, Journal;
    var w' := Do(c, w, Append(e));
    JournalAppend(c, w.kept, e);
    assert Written(c, w');
    UnsentWritten(c, w);
    UnsentWritten(c, w');
  }

  lemma SameTargets(w: World, w': World)
    requires w'.stream == w.stream && w'.channel == w.channel
    ensures forall e :: Reached(w', e, BothTargets) == Reached(w, e, BothTargets)
  {
  }

  lemma TornAppendSafe(c: Codec, w: World, e: Envelope, length: nat)
    requires FaithfulCodec(c) && Safe(c, w) && Possible(c, w, TornAppend(e, length))
    ensures Safe(c, Do(c, w, TornAppend(e, length)))
  {
    hide Unsent, Journal, FaithfulCodec, Scan, Reached;
    var w' := Do(c, w, TornAppend(e, length));
    assert Tail(c, w.torn) == [] && w.journal == Journal(c, w.kept);
    assert Written(c, w');
    UnsentWritten(c, w);
    UnsentWritten(c, w');
    SameTargets(w, w');
  }

  /** Truncating is safe when everything a recovery would find is out. */
  lemma TruncatedSafe(c: Codec, w: World)
    requires CoveredAt(c, w, BothTargets) && forall e :: e in Unsent(c, w.journal) ==> Reached(w, e, BothTargets)
    ensures Safe(c, Truncated(w))
  {
    forall e | e in w.journaled ensures Reached(Truncated(w), e, BothTargets) {
      assert Reached(w, e, BothTargets) || e in Unsent(c, w.journal);
    }
  }

  lemma RepublishLineSafe(c: Codec, w: World)
    requires Safe(c, w) && Possible(c, w, RepublishLine)
    ensures Safe(c, Do(c, w, RepublishLine))
  {
    hide Unsent, Journal;
    var w', line, rest := Do(c, w, RepublishLine), w.pc.rest[0], w.pc.rest[1..];
    assert Decoded(c, w.pc.rest) == (if c.decode(line).Some? then [c.decode(line).value] else []) + Decoded(c, rest);
    forall e | Reached(w, e, BothTargets) ensures Reached(w', e, BothTargets) {
    }
  }

  /** Every step of a crash-stop process keeps all journaled envelopes. */
  lemma ActionSafe(c: Codec, w: World, a: Action)
    requires FaithfulCodec(c) && Safe(c, w) && Possible(c, w, a) && !GoesOn(a)
    ensures Safe(c, Do(c, w, a))
  {
    hide Unsent, Journal, Scan, FaithfulCodec, Decoded;
    if a.Append? {
      AppendSafe(c, w, a.e);
    } else if a.TornAppend? {
      TornAppendSafe(c, w, a.e, a.length);
    } else if a.RepublishLine? {
      RepublishLineSafe(c, w);
    } else if a.Truncate? || a.FinishRecovery? {
      UnsentWritten(c, w);
      NothingDecoded(c);
      TruncatedSafe(c, w);
    } else if a.Restart? {
      UnsentWritten(c, w);
      UnsentLines(c, w.journal);
      RestartSafe(c, w);
    } else {
      GrowsSafe(c, w, Do(c, w, a));
    }
  }

  lemma UnsentLines(c: Codec, journal: string)
    ensures Unsent(c, journal) == Decoded(c, Scan(journal).lines)
  {
  }

  lemma RestartSafe(c: Codec, w: World)
    requires FaithfulCodec(c) && Safe(c, w) && w.pc.Down?
    requires Scan(w.journal).complete && Unsent(c, w.journal) == Decoded(c, Scan(w.journal).lines)
    requires Scan(w.journal).lines == [] ==> w.kept == [] && Tail(c, w.torn) == []
    ensures Safe(c, Do(c, w, Restart))
  {
    hide Scan, Decoded, Journal, Tail;
    var w' := Do(c, w, Restart);
    assert Written(c, w');
  }

  /** Steps that only add to the two targets. */
  lemma GrowsSafe(c: Codec, w: World, w': World)
    requires Safe(c, w)
    requires w'.journal == w.journal && w'.journaled == w.journaled && w'.kept == w.kept && w'.torn == w.torn
    requires forall e :: Reached(w, e, BothTargets) ==> Reached(w', e, BothTargets)
    requires Progress(c, w') && (Tail(c, w.torn) != [] ==> w'.pc.Down? || w'.pc.Recovering? || w'.pc.Republished?)
    ensures Safe(c, w')
  {
    hide Unsent, Journal, Progress;
  }

  lemma {:induction false} ScheduleSafe(c: Codec, w: World, actions: seq<Action>)
    requires FaithfulCodec(c) && Safe(c, w) && IsSchedule(c, w, actions)
    requires forall i :: 0 <= i < |actions| ==> !GoesOn(actions[i])
    ensures Safe(c, RunSchedule(c, w, actions))
    decreases actions
  {
    hide Safe, Do, Possible, FaithfulCodec;
    if actions != [] {
      ActionSafe(c, w, actions[0]);
      ScheduleSafe(c, Do(c, w, actions[0]), actions[1..]);
    }
  }

  // ---------------------------------------------------------------------
  // Theorems
  // ---------------------------------------------------------------------

  /** A stopped process with whatever journal earlier writes left, a torn line included. */
  ghost predicate Starts(c: Codec, w: World) {
    w.pc.Down? && Written(c, w) && CoveredAt(c, w, BothTargets)
  }

  /**
   In every run with crashes between any two steps, within a write and within a
   recovery, each envelope whose line was ever written whole is in the stream or in
   the journal.
   */
  lemma NeverLost(c: Codec, w: World, actions: seq<Action>, e: Envelope)
    requires FaithfulCodec(c) && Starts(c, w) && IsSchedule(c, w, actions)
    requires forall i :: 0 <= i < |actions| ==> !GoesOn(actions[i])
    requires e in RunSchedule(c, w, actions).journaled
    ensures var w' := RunSchedule(c, w, actions);
            e in w'.stream || e in Unsent(c, w'.journal)
  {
    hide FaithfulCodec, IsSchedule, RunSchedule, Unsent;
    ScheduleSafe(c, w, actions);
  }

  /** A completed recovery leaves an empty journal and everything journaled in the stream, trades in the channel too. */
  lemma RecoveryDelivers(c: Codec, w: World, actions: seq<Action>, e: Envelope)
    requires FaithfulCodec(c) && Starts(c, w) && IsSchedule(c, w, actions)
    requires forall i :: 0 <= i < |actions| ==> !GoesOn(actions[i])
    requires Possible(c, RunSchedule(c, w, actions), FinishRecovery) && e in RunSchedule(c, w, actions).journaled
    ensures var w' := Do(c, RunSchedule(c, w, actions), FinishRecovery);
            w'.journal == [] && e in w'.stream && (e.trade ==> e in w'.channel)
  {
    hide FaithfulCodec, IsSchedule, RunSchedule, Unsent, Journal, Decoded;
    ScheduleSafe(c, w, actions);
    NothingDecoded(c);
  }

  /** Nothing is published that was not journaled, nor broadcast unless it is a trade in the stream; base is the start. */
  ghost predicate Sound(c: Codec, base: World, w: World) {
    && (forall e :: e in w.stream ==> e in base.stream || e in w.journaled)
    && (forall e :: e in w.channel ==> e in base.channel || (e.trade && e in w.stream))
    && (forall e :: e in Unsent(c, w.journal) ==> e in w.journaled)
    && match w.pc
       case Journaled(e) => e in w.journaled
       case InStream(e) => e in w.journaled && e in w.stream
       case Recovering(rest) => forall e :: e in Decoded(c, rest) ==> e in w.journaled
       case Republished(rest, d) => d in w.journaled && d in w.stream && forall e :: e in Decoded(c, rest) ==> e in w.journaled
       case _ => true
  }

  lemma ActionSound(c: Codec, base: World, w: World, a: Action)
    requires FaithfulCodec(c) && Safe(c, w) && Sound(c, base, w) && Possible(c, w, a) && !GoesOn(a)
    ensures Sound(c, base, Do(c, w, a))
  {
    hide Unsent, Journal, Scan, FaithfulCodec, Decoded, Safe, Tail;
    var w' := Do(c, w, a);
    ActionSafe(c, w, a);
    assert Written(c, w) && Written(c, w') by { SafeWritten(c, w); SafeWritten(c, w'); }
    UnsentWritten(c, w);
    UnsentWritten(c, w');
    if a.Restart? {
      UnsentLines(c, w.journal);
    } else if a.RepublishLine? {
      DecodedFirst(c, w.pc.rest);
    }
  }

  lemma SafeWritten(c: Codec, w: World)
    requires Safe(c, w)
    ensures Written(c, w)
  {
  }

  lemma DecodedFirst(c: Codec, lines: seq<string>)
    requires lines != []
    ensures Decoded(c, lines) == (if c.decode(lines[0]).Some? then [c.decode(lines[0]).value] else []) + Decoded(c, lines[1..])
  {
  }

  lemma {:induction false} ScheduleSound(c: Codec, base: World, w: World, actions: seq<Action>)
    requires FaithfulCodec(c) && Safe(c, w) && Sound(c, base, w) && IsSchedule(c, w, actions)
    requires forall i :: 0 <= i < |actions| ==> !GoesOn(actions[i])
    ensures Sound(c, base, RunSchedule(c, w, actions))
    decreases actions
  {
    hide Safe, Sound, Do, Possible, FaithfulCodec;
    if actions != [] {
      ActionSafe(c, w, actions[0]);
      ActionSound(c, base, w, actions[0]);
      ScheduleSound(c, base, Do(c, w, actions[0]), actions[1..]);
    }
  }

  /**
   However often the process crashes and recovers, the stream gains only envelopes
   whose line was written whole, and the channel only trades that are in the stream.
   */
  lemma NothingInvented(c: Codec, w: World, actions: seq<Action>, e: Envelope)
    requires FaithfulCodec(c) && Starts(c, w) && IsSchedule(c, w, actions)
    requires forall x :: x in Unsent(c, w.journal) ==> x in w.journaled
    requires forall i :: 0 <= i < |actions| ==> !GoesOn(actions[i])
    ensures var w' := RunSchedule(c, w, actions);
            && (e in w'.stream ==> e in w.stream || e in w'.journaled)
            && (e in w'.channel ==> e in w.channel || (e.trade && e in w'.stream))
  {
    hide FaithfulCodec, IsSchedule, RunSchedule, Unsent;
    ScheduleSound(c, w, w, actions);
  }

  /** One emit cycle that succeeds. */
  function Emit(c: Codec, w: World, e: Envelope): World
    requires w.pc.Ready?
  {
    Do(c, Do(c, Do(c, Do(c, w, Append(e)), AddToStream), Announce), Truncate)
  }

  /** The steps of an emit cycle before it truncates the journal. */
  function EmitSteps(e: Envelope): seq<Action> {
    [Append(e), AddToStream, Announce]
  }

  const RECOVERY: seq<Action> := [Crash, Restart, RepublishLine, AnnounceLine, FinishRecovery]

  /**
   A crash anywhere between the append and the truncation, and the recovery after it:
   each target gets the envelope, and gets it twice exactly when it had it before the crash.
   */
  lemma CrashInCycle(c: Codec, w: World, e: Envelope, steps: nat)
    requires FaithfulCodec(c) && w.pc.Ready? && w.journal == [] && 1 <= steps <= 3
    ensures var actions := EmitSteps(e)[..steps] + RECOVERY;
            && IsSchedule(c, w, actions)
            && var w' := RunSchedule(c, w, actions);
            && w'.pc.Ready? && w'.journal == []
            && w'.stream == w.stream + (if steps >= 2 then [e, e] else [e])
            && w'.channel == w.channel + (if !e.trade then [] else if steps == 3 then [e, e] else [e])
  {
    hide IsSchedule, RunSchedule, FaithfulCodec, Scan;
    var w1 := Do(c, w, Append(e));
    var w2 := Do(c, w1, AddToStream);
    var w3 := Do(c, w2, Announce);
    var cut := if steps == 1 then w1 else if steps == 2 then w2 else w3;
    RecoversLine(c, cut, e);
    var after := RECOVERY;
    var announce, add := [Announce] + after, [AddToStream] + ([Announce] + after);
    if steps == 3 {
      ScheduleNext(c, w2, Announce, after);
      ScheduleNext(c, w1, AddToStream, announce);
      ScheduleNext(c, w, Append(e), add);
      assert EmitSteps(e)[..3] + after == [Append(e)] + add;
    } else if steps == 2 {
      ScheduleNext(c, w1, AddToStream, after);
      ScheduleNext(c, w, Append(e), [AddToStream] + after);
      assert EmitSteps(e)[..2] + after == [Append(e)] + ([AddToStream] + after);
    } else {
      ScheduleNext(c, w, Append(e), after);
      assert EmitSteps(e)[..1] + after == [Append(e)] + after;
    }
  }

  /** A crash with one whole line in the journal. */
  lemma RecoversLine(c: Codec, w: World, e: Envelope)
    requires FaithfulCodec(c) && w.journal == c.encode(e) + "\n"
    ensures IsSchedule(c, w, RECOVERY)
    ensures var w' := RunSchedule(c, w, RECOVERY);
            && w'.pc.Ready? && w'.journal == []
            && w'.stream == w.stream + [e] && w'.channel == w.channel + (if e.trade then [e] else [])
  {
    hide IsSchedule, RunSchedule, FaithfulCodec, Scan;
    FaithfulTo(c, e);
    ScanLine(c.encode(e), []);
    ScanTail([]);
    assert w.journal == c.encode(e) + "\n" + [];
    var w1 := Do(c, w, Crash);
    var w2 := Do(c, w1, Restart);
    var w3 := Do(c, w2, RepublishLine);
    var w4 := Do(c, w3, AnnounceLine);
    var a4: seq<Action> := [FinishRecovery];
    var a3, a2 := [AnnounceLine] + a4, [RepublishLine] + ([AnnounceLine] + a4);
    var a1 := [Restart] + a2;
    OneAction(c, w4, FinishRecovery);
    ScheduleNext(c, w3, AnnounceLine, a4);
    ScheduleNext(c, w2, RepublishLine, a3);
    ScheduleNext(c, w1, Restart, a2);
    ScheduleNext(c, w, Crash, a1);
    assert RECOVERY == [Crash] + a1;
  }

  lemma OneAction(c: Codec, w: World, a: Action)
    requires Possible(c, w, a)
    ensures IsSchedule(c, w, [a]) && RunSchedule(c, w, [a]) == Do(c, w, a)
  {
    assert [a][1..] == [];
  }

  lemma ScheduleNext(c: Codec, w: World, a: Action, rest: seq<Action>)
    requires Possible(c, w, a) && IsSchedule(c, Do(c, w, a), rest)
    ensures IsSchedule(c, w, [a] + rest) && RunSchedule(c, w, [a] + rest) == RunSchedule(c, Do(c, w, a), rest)
  {
    assert ([a] + rest)[1..] == rest;
  }

  // ---------------------------------------------------------------------
  // Going on after Redis errors
  // ---------------------------------------------------------------------

  datatype Outcome = Published | StreamDown | ChannelDown

  /** One emit cycle, ended by success or by the first Redis error; only trades use the channel. */
  datatype Attempt = Attempt(e: Envelope, outcome: Outcome)

  predicate CanHappen(a: Attempt) {
    a.outcome.ChannelDown? ==> a.e.trade
  }

  function Try(c: Codec, w: World, a: Attempt): (w': World)
    requires w.pc.Ready? && CanHappen(a)
    ensures w'.pc.Ready?
  {
    match a.outcome
    case Published => Emit(c, w, a.e)
    case StreamDown => Do(c, Do(c, w, Append(a.e)), StreamFails)
    case ChannelDown => Do(c, Do(c, Do(c, w, Append(a.e)), AddToStream), ChannelFails)
  }

  function TryAll(c: Codec, w: World, attempts: seq<Attempt>): (w': World)
    requires w.pc.Ready? && forall i :: 0 <= i < |attempts| ==> CanHappen(attempts[i])
    ensures w'.pc.Ready?
    decreases attempts
  {
    if attempts == [] then w else TryAll(c, Try(c, w, attempts[0]), attempts[1..])
  }

  /** The attempt got its envelope to the target. */
  predicate Reaches(a: Attempt, target: Target) {
    a.outcome.Published? || (target.StreamOnly? && a.outcome.ChannelDown?)
  }

  /** Between emits: the journal holds whole lines only, and nothing is lost so far. */
  ghost predicate Steady(c: Codec, w: World, target: Target) {
    && w.pc.Ready? && w.torn == None && w.journal == Journal(c, w.kept)
    && (forall x :: x in w.journaled ==> Reached(w, x, target) || x in w.kept)
    && (forall x :: x in w.kept ==> x in w.journaled)
  }

  /** Envelopes are emitted once; each has its own identifier. */
  ghost predicate New(w: World, attempts: seq<Attempt>) {
    && (forall i :: 0 <= i < |attempts| ==>
          attempts[i].e !in w.journaled && attempts[i].e !in w.stream && attempts[i].e !in w.channel)
    && (forall i, j :: 0 <= i < j < |attempts| ==> attempts[i].e != attempts[j].e)
  }

  /** What one attempt does to the targets and to the journal. */
  lemma TryTargets(c: Codec, w: World, a: Attempt, target: Target)
    requires w.pc.Ready? && CanHappen(a) && a.e !in w.stream && a.e !in w.channel
    ensures forall x :: Reached(Try(c, w, a), x, target) <==> Reached(w, x, target) || (x == a.e && Reaches(a, target))
    ensures Try(c, w, a).journaled == w.journaled + {a.e}
    ensures Try(c, w, a).kept == if a.outcome.Published? then [] else w.kept + [a.e]
    ensures Try(c, w, a).torn == if a.outcome.Published? then None else w.torn
    ensures Try(c, w, a).journal == if a.outcome.Published? then [] else w.journal + (c.encode(a.e) + "\n")
    ensures forall x :: x != a.e ==> (x in Try(c, w, a).stream <==> x in w.stream) && (x in Try(c, w, a).channel <==> x in w.channel)
  {
  }

  /** The envelopes that the stream did not refuse. */
  function Arrived(attempts: seq<Attempt>): seq<Envelope> {
    if attempts == [] then []
    else (if attempts[0].outcome == StreamDown then [] else [attempts[0].e]) + Arrived(attempts[1..])
  }

  /** The trades of the attempts that met no error. */
  function Announced(attempts: seq<Attempt>): seq<Envelope> {
    if attempts == [] then []
    else (if attempts[0].outcome == Published && attempts[0].e.trade then [attempts[0].e] else []) + Announced(attempts[1..])
  }

  /**
   A process that goes on after Redis errors sends each envelope to the stream once and
   in order, but for those the stream refused, and each published trade to the channel.
   */
  lemma {:induction false} EmitsInOrder(c: Codec, w: World, attempts: seq<Attempt>)
    requires w.pc.Ready? && forall i :: 0 <= i < |attempts| ==> CanHappen(attempts[i])
    ensures TryAll(c, w, attempts).stream == w.stream + Arrived(attempts)
    ensures TryAll(c, w, attempts).channel == w.channel + Announced(attempts)
    decreases attempts
  {
    hide Try, Arrived, Announced;
    ArrivedFirst(attempts);
    if attempts != [] {
      var w1, rest := Try(c, w, attempts[0]), attempts[1..];
      TrySends(c, w, attempts[0]);
      EmitsInOrder(c, w1, rest);
      assert TryAll(c, w, attempts) == TryAll(c, w1, rest);
      assert (w1.stream + Arrived(rest)) == w.stream + Arrived(attempts);
      assert (w1.channel + Announced(rest)) == w.channel + Announced(attempts);
    }
  }

  lemma ArrivedFirst(attempts: seq<Attempt>)
    ensures Arrived([]) == [] && Announced([]) == []
    ensures attempts != [] ==>
              && Arrived(attempts) == (if attempts[0].outcome == StreamDown then [] else [attempts[0].e]) + Arrived(attempts[1..])
              && Announced(attempts)
                 == (if attempts[0].outcome == Published && attempts[0].e.trade then [attempts[0].e] else []) + Announced(attempts[1..])
  {
  }

  lemma TrySends(c: Codec, w: World, a: Attempt)
    requires w.pc.Ready? && CanHappen(a)
    ensures Try(c, w, a).stream == w.stream + (if a.outcome == StreamDown then [] else [a.e])
    ensures Try(c, w, a).channel == w.channel + (if a.outcome == Published && a.e.trade then [a.e] else [])
  {
  }

  /** An envelope that has not reached the target, is not in the journal and is not emitted again stays lost. */
  lemma {:induction false} LostStays(c: Codec, w: World, attempts: seq<Attempt>, x: Envelope, target: Target)
    requires FaithfulCodec(c) && w.pc.Ready? && w.torn == None && w.journal == Journal(c, w.kept)
    requires New(w, attempts) && forall i :: 0 <= i < |attempts| ==> CanHappen(attempts[i])
    requires x in w.journaled && !Reached(w, x, target) && x !in w.kept
    ensures !CoveredAt(c, TryAll(c, w, attempts), target)
    decreases attempts
  {
    hide Try, Reached, Journal, FaithfulCodec, Unsent;
    if attempts == [] {
      UnsentKept(c, w);
    } else {
      TryTargets(c, w, attempts[0], target);
      JournalAppend(c, w.kept, attempts[0].e);
      NoLines(c, []);
      LostStays(c, Try(c, w, attempts[0]), attempts[1..], x, target);
    }
  }

  lemma UnsentKept(c: Codec, w: World)
    requires FaithfulCodec(c) && w.torn == None && w.journal == Journal(c, w.kept)
    ensures Unsent(c, w.journal) == w.kept
  {
    hide Unsent, Journal, FaithfulCodec, Scan;
    assert w.journal + [] == w.journal;
    assert Written(c, w);
    UnsentWritten(c, w);
  }

  /** Some attempt succeeds, and with it the journal is truncated. */
  predicate AnySucceeds(attempts: seq<Attempt>) {
    exists i :: 0 <= i < |attempts| && attempts[i].outcome.Published?
  }

  /** No attempt succeeds after one that missed the target. */
  predicate NoSuccessAfterMiss(attempts: seq<Attempt>, target: Target) {
    forall i, j :: 0 <= i < j < |attempts| && attempts[j].outcome.Published? ==> Reaches(attempts[i], target)
  }

  lemma SuccessesFirst(attempts: seq<Attempt>, target: Target)
    requires attempts != []
    ensures NoSuccessAfterMiss(attempts, target) <==>
              NoSuccessAfterMiss(attempts[1..], target) && (Reaches(attempts[0], target) || !AnySucceeds(attempts[1..]))
    ensures AnySucceeds(attempts) <==> attempts[0].outcome.Published? || AnySucceeds(attempts[1..])
  {
    hide Reaches;
    var rest := attempts[1..];
    forall i | 0 <= i < |rest| ensures rest[i] == attempts[i + 1] {
    }
    if NoSuccessAfterMiss(rest, target) && (Reaches(attempts[0], target) || !AnySucceeds(rest)) {
      forall i, j | 0 <= i < j < |attempts| && attempts[j].outcome.Published? ensures Reaches(attempts[i], target) {
        assert rest[j - 1] == attempts[j];
        assert i > 0 ==> rest[i - 1] == attempts[i];
      }
    }
    if NoSuccessAfterMiss(attempts, target) {
      forall i, j | 0 <= i < j < |rest| && rest[j].outcome.Published? ensures Reaches(rest[i], target) {
        assert rest[i] == attempts[i + 1] && rest[j] == attempts[j + 1];
      }
      if j :| 0 <= j < |rest| && rest[j].outcome.Published? {
        assert attempts[j + 1].outcome.Published?;
      }
    }
    if AnySucceeds(attempts) {
      var i :| 0 <= i < |attempts| && attempts[i].outcome.Published?;
      assert i > 0 ==> rest[i - 1] == attempts[i];
    }
  }

  /**
   When the process goes on after Redis errors, a run of emits loses nothing to a target
   if and only if no emit succeeds after one that missed the target, nor after a leftover
   in the journal that did. For the stream alone, a failed broadcast is no miss.
   */
  lemma {:induction false} LossExactlyWhen(c: Codec, w: World, attempts: seq<Attempt>, target: Target)
    requires FaithfulCodec(c) && Steady(c, w, target) && New(w, attempts)
    requires forall i :: 0 <= i < |attempts| ==> CanHappen(attempts[i])
    ensures CoveredAt(c, TryAll(c, w, attempts), target) <==>
              && NoSuccessAfterMiss(attempts, target)
              && (AnySucceeds(attempts) ==> forall x :: x in w.kept ==> Reached(w, x, target))
    decreases attempts
  {
    hide Try, Reached, Journal, FaithfulCodec, Unsent, NoSuccessAfterMiss, AnySucceeds, Reaches;
    if attempts == [] {
      UnsentKept(c, w);
      NothingAttempted(target);
    } else {
      var a, rest := attempts[0], attempts[1..];
      var w1 := Try(c, w, a);
      TryTargets(c, w, a, target);
      JournalAppend(c, w.kept, a.e);
      NoLines(c, []);
      SuccessesFirst(attempts, target);
      SuccessReaches(a, target);
      if x :| a.outcome.Published? && x in w.kept && !Reached(w, x, target) {
        LostStays(c, w1, rest, x, target);
      } else {
        assert Steady(c, w1, target);
        LossExactlyWhen(c, w1, rest, target);
        assert !a.outcome.Published? ==> a.e in w1.kept;
        NewIsNotReached(w, a.e, target);
      }
    }
  }

  lemma SuccessReaches(a: Attempt, target: Target)
    ensures a.outcome.Published? ==> Reaches(a, target)
  {
  }

  lemma NewIsNotReached(w: World, e: Envelope, target: Target)
    ensures e !in w.stream ==> !Reached(w, e, target)
  {
  }

  lemma NothingAttempted(target: Target)
    ensures NoSuccessAfterMiss([], target) && !AnySucceeds([])
  {
  }

  /** For instance: an envelope that could not be published is lost with the next emit that succeeds. */
  lemma FailedThenLost(c: Codec, w: World, a: Envelope, b: Envelope)
    requires FaithfulCodec(c) && Steady(c, w, StreamOnly) && w.kept == []
    requires New(w, [Attempt(a, StreamDown), Attempt(b, Published)])
    ensures !CoveredAt(c, TryAll(c, w, [Attempt(a, StreamDown), Attempt(b, Published)]), StreamOnly)
  {
    hide FaithfulCodec, Steady, CoveredAt, TryAll;
    var attempts := [Attempt(a, StreamDown), Attempt(b, Published)];
    LossExactlyWhen(c, w, attempts, StreamOnly);
    assert attempts[1].outcome.Published? && !Reaches(attempts[0], StreamOnly);
  }
}
