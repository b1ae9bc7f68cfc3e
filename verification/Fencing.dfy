/**
 Ownership of one partition: the lease key (internal/partition/lease.go), the
 fencing counter (internal/partition/fencing.go), the ownership loop of every
 engine (internal/engine/worker.go) and the fence of the database worker
 (internal/dbworker/worker.go).
 */
module Fencing {
  import opened Types

  // ---------------------------------------------------------------------
  // The lease key and the fencing counter
  // ---------------------------------------------------------------------

  type EngineId = nat

  /** Set the key when it is absent. */
  function SetIfAbsent(key: Option<EngineId>, id: EngineId): Option<EngineId> {
    if key.None? then Some(id) else key
  }

  /** Delete the key when it holds the caller's identifier. */
  function DeleteIfOwner(key: Option<EngineId>, id: EngineId): Option<EngineId> {
    if key == Some(id) then None else key
  }

  /** The value of a counter; an absent one counts as zero. */
  function Count(counter: Option<nat>): nat {
    if counter.Some? then counter.value else 0
  }

  /** A draw whose answer is an error may have taken effect. */
  datatype Draw = Drawn | DrawFails(applied: bool)

  /** The two keys of a partition, shared by all engines; a counter that was never incremented is absent. */
  class Redis {
    var lease: Option<EngineId>
    var counter: Option<nat>

    constructor ()
      ensures lease == None && counter == None
    {
      lease, counter := None, None;
    }
  }

  /** The lease as one engine sees it. Expiry may happen between any two calls. */
  class Lease {
    const redis: Redis
    const id: EngineId

    constructor (redis: Redis, id: EngineId)
      ensures this.redis == redis && this.id == id
    {
      this.redis, this.id := redis, id;
    }

    method Acquire() returns (ok: bool)
      modifies redis`lease
      ensures ok <==> old(redis.lease) == None
      ensures redis.lease == SetIfAbsent(old(redis.lease), id)
    {
      ok := redis.lease.None?;
      if ok {
        redis.lease := Some(id);
      }
    }

    /** Renewing never writes the owner, so a lost lease stays lost. */
    method Renew() returns (ok: bool)
      ensures ok <==> redis.lease == Some(id)
    {
      ok := redis.lease == Some(id);
    }

    method Release()
      modifies redis`lease
      ensures redis.lease == DeleteIfOwner(old(redis.lease), id)
      ensures old(redis.lease) != Some(id) ==> redis.lease == old(redis.lease)
    {
      if redis.lease == Some(id) {
        redis.lease := None;
      }
    }
  }

  class FencingTokens {
    const redis: Redis

    constructor (redis: Redis)
      ensures this.redis == redis
    {
      this.redis := redis;
    }

    /** Every token is new: larger than all tokens before it, and never zero. */
    method Next() returns (token: nat)
      modifies redis`counter
      ensures redis.counter == Some(token) && token > 0
      ensures token == Count(old(redis.counter)) + 1
    {
      token := if redis.counter.Some? then redis.counter.value + 1 else 1;
      redis.counter := Some(token);
    }

    method Current() returns (token: nat)
      ensures token == Count(redis.counter)
    {
      token := if redis.counter.Some? then redis.counter.value else 0;
    }
  }

  /** One engine's part of the ownership loop; token is its partitionToken entry. */
  class PartitionOwner {
    const lease: Lease
    const fencing: FencingTokens
    var token: Option<nat>

    constructor (redis: Redis, id: EngineId)
      ensures lease.redis == redis && lease.id == id && fencing.redis == redis && token == None
    {
      lease := new Lease(redis, id);
      fencing := new FencingTokens(redis);
      token := None;
    }

    /**
     Acquire the lease and draw a token. When no token can be had the lease is given
     back; the failed draw may have advanced the counter all the same.
     */
    method Take(draw: Draw) returns (owned: bool)
      requires fencing.redis == lease.redis && token == None
      modifies this, lease.redis
      ensures owned <==> old(lease.redis.lease) == None && draw.Drawn?
      ensures owned ==> lease.redis.lease == Some(lease.id) && token.Some? && token == lease.redis.counter
      ensures owned ==> token.value > Count(old(lease.redis.counter))
      ensures !owned ==> token == None && lease.redis.lease == old(lease.redis.lease)
      ensures !owned && old(lease.redis.lease) == None && draw == DrawFails(true) ==>
                lease.redis.counter == Some(Count(old(lease.redis.counter)) + 1)
      ensures !owned && !(old(lease.redis.lease) == None && draw == DrawFails(true)) ==>
                lease.redis.counter == old(lease.redis.counter)
    {
      var ok := lease.Acquire();
      if !ok {
        return false;
      }
      if draw == DrawFails(false) {
        lease.Release();
        return false;
      }
      var drawn := fencing.Next();
      if draw.DrawFails? {
        lease.Release();
        return false;
      }
      token := Some(drawn);
      return true;
    }

    /** Let go: the lease is deleted only when this engine still holds it. */
    method Yield()
      modifies this, lease.redis
      ensures token == None && lease.redis.counter == old(lease.redis.counter)
      ensures lease.redis.lease == DeleteIfOwner(old(lease.redis.lease), lease.id)
    {
      lease.Release();
      token := None;
    }
  }

  /** The database worker's decision; current is absent until a first token is drawn. */
  predicate Accepts(token: nat, current: Option<nat>) {
    current.None? || token == 0 || token >= current.value
  }

  // ---------------------------------------------------------------------
  // All engines together
  // ---------------------------------------------------------------------

  /** One pass of the ownership loop. Each acquisition has its own number. */
  datatype Pc =
    | Waiting
    | Leased(acquisition: nat)
    | TokenFailed(acquisition: nat)
    | Owning(acquisition: nat, token: nat)
    | Leaving(acquisition: nat, token: nat)
    | Released(acquisition: nat, token: nat)

  /** source says which acquisition stamped the envelope; the worker sees the token only. */
  datatype Source = Source(engine: EngineId, acquisition: nat)
  datatype Envelope = Envelope(token: nat, source: Source, body: nat)

  /** An envelope the worker accepted, and the counter it compared with. */
  datatype Acceptance = Acceptance(envelope: Envelope, counter: Option<nat>)

  /**
   tokens is each engine's partitionToken entry. stamped holds every envelope ever
   stamped: a stalled or republished envelope may reach the stream at any time after.
   grants records which acquisition drew each token.
   */
  datatype World = World(
    lease: Option<EngineId>,
    counter: Option<nat>,
    acquisitions: nat,
    pcs: map<EngineId, Pc>,
    tokens: map<EngineId, nat>,
    grants: map<nat, Source>,
    stamped: set<Envelope>,
    stream: seq<Envelope>,
    accepted: seq<Acceptance>)

  function PcOf(w: World, e: EngineId): Pc {
    if e in w.pcs then w.pcs[e] else Waiting
  }

  /** The token an engine stamps with; zero when it holds none. */
  function TokenOf(w: World, e: EngineId): nat {
    if e in w.tokens then w.tokens[e] else 0
  }

  function Goto(w: World, e: EngineId, pc: Pc): World {
    w.(pcs := w.pcs[e := pc])
  }

  /**
   AcquireFails and TokenFails are Redis errors; the command may have taken effect
   nevertheless. Stop is the consumer returning for any other reason than a lost lease.
   */
  datatype Action =
    | Acquire(e: EngineId)
    | AcquireFails(e: EngineId, applied: bool)
    | DrawToken(e: EngineId)
    | TokenFails(e: EngineId, applied: bool)
    | GiveBack(e: EngineId)
    | Renew(e: EngineId)
    | Stop(e: EngineId)
    | Stamp(e: EngineId, body: nat)
    | Release(e: EngineId)
    | Forget(e: EngineId)
    | Crash(e: EngineId)
    | Expire
    | Publish(envelope: Envelope)
    | Check(index: nat)

  predicate Possible(w: World, a: Action) {
    match a
    case Acquire(e) => PcOf(w, e).Waiting?
    case AcquireFails(e, _) => PcOf(w, e).Waiting?
    case DrawToken(e) => PcOf(w, e).Leased?
    case TokenFails(e, _) => PcOf(w, e).Leased?
    case GiveBack(e) => PcOf(w, e).TokenFailed?
    case Renew(_) => true
    case Stop(e) => PcOf(w, e).Owning?
    case Stamp(e, _) => PcOf(w, e).Owning? || PcOf(w, e).Leaving?
    case Release(e) => PcOf(w, e).Leaving?
    case Forget(e) => PcOf(w, e).Released?
    case Crash(_) => true
    case Expire => true
    case Publish(envelope) => envelope in w.stamped
    case Check(index) => index < |w.stream|
  }

  function Leave(pc: Pc): Pc {
    if pc.Owning? then Leaving(pc.acquisition, pc.token) else pc
  }

  function Do(w: World, a: Action): World
    requires Possible(w, a)
  {
    match a
    case Acquire(e) =>
      if w.lease.Some? then w
      else Goto(w, e, Leased(w.acquisitions)).(lease := SetIfAbsent(w.lease, e), acquisitions := w.acquisitions + 1)
    case AcquireFails(e, applied) => if applied then w.(lease := SetIfAbsent(w.lease, e)) else w
    case DrawToken(e) =>
      var token := Count(w.counter) + 1;
      var n := PcOf(w, e).acquisition;
      Goto(w, e, Owning(n, token))
      .(counter := Some(token), tokens := w.tokens[e := token], grants := w.grants[token := Source(e, n)])
    case TokenFails(e, applied) =>
      Goto(w, e, TokenFailed(PcOf(w, e).acquisition))
      .(counter := if applied then Some(Count(w.counter) + 1) else w.counter)
    case GiveBack(e) => Goto(w, e, Waiting).(lease := DeleteIfOwner(w.lease, e))
    case Renew(e) => if w.lease == Some(e) then w else Goto(w, e, Leave(PcOf(w, e)))
    case Stop(e) => Goto(w, e, Leave(PcOf(w, e)))
    case Stamp(e, body) =>
      w.(stamped := w.stamped + {Envelope(TokenOf(w, e), Source(e, PcOf(w, e).acquisition), body)})
    case Release(e) =>
      Goto(w, e, Released(PcOf(w, e).acquisition, PcOf(w, e).token)).(lease := DeleteIfOwner(w.lease, e))
    case Forget(e) => Goto(w, e, Waiting).(tokens := w.tokens - {e})
    case Crash(e) => Goto(w, e, Waiting).(tokens := w.tokens - {e})
    case Expire => w.(lease := None)
    case Publish(envelope) => w.(stream := w.stream + [envelope])
    case Check(index) =>
      if Accepts(w.stream[index].token, w.counter)
      then w.(accepted := w.accepted + [Acceptance(w.stream[index], w.counter)])
      else w
  }

  predicate IsSchedule(w: World, actions: seq<Action>)
    decreases actions
  {
    actions == [] || (Possible(w, actions[0]) && IsSchedule(Do(w, actions[0]), actions[1..]))
  }

  function RunSchedule(w: World, actions: seq<Action>): World
    requires IsSchedule(w, actions)
    decreases actions
  {
    if actions == [] then w else RunSchedule(Do(w, actions[0]), actions[1..])
  }

  // ---------------------------------------------------------------------
  // The invariant
  // ---------------------------------------------------------------------

  /** An engine that owns, or is about to let go, holds exactly the token its acquisition drew. */
  predicate LoopOk(w: World, e: EngineId) {
    var pc := PcOf(w, e);
    && (pc.Owning? || pc.Leaving? || pc.Released? ==>
          e in w.tokens && w.tokens[e] == pc.token && pc.token in w.grants && w.grants[pc.token] == Source(e, pc.acquisition))
    && (pc.Waiting? || pc.Leased? || pc.TokenFailed? ==> e !in w.tokens)
  }

  /** A stamped envelope carries the token its source drew. */
  predicate Genuine(w: World, envelope: Envelope) {
    envelope.token in w.grants && w.grants[envelope.token] == envelope.source
  }

  /** Envelopes of the stream are genuine or from before fencing. */
  predicate Delivered(w: World, envelope: Envelope) {
    envelope.token == 0 || Genuine(w, envelope)
  }

  /** An accepted envelope with a token was compared with exactly that token. */
  predicate AcceptedOk(w: World, x: Acceptance) {
    && Delivered(w, x.envelope) && Count(x.counter) <= Count(w.counter)
    && (x.envelope.token != 0 ==> x.counter == Some(x.envelope.token))
  }

  ghost predicate Fenced(w: World) {
    && (forall e: EngineId :: LoopOk(w, e))
    && (forall token: nat :: token in w.grants ==> 0 < token <= Count(w.counter))
    && (forall envelope :: envelope in w.stamped ==> Genuine(w, envelope))
    && (forall i :: 0 <= i < |w.stream| ==> Delivered(w, w.stream[i]))
    && (forall i :: 0 <= i < |w.accepted| ==> AcceptedOk(w, w.accepted[i]))
    && (forall i, j :: 0 <= i < j < |w.accepted| ==> Count(w.accepted[i].counter) <= Count(w.accepted[j].counter))
  }

  lemma PcAfter(w: World, w': World, e: EngineId, pc: Pc)
    requires w'.pcs == w.pcs[e := pc]
    ensures forall x: EngineId :: PcOf(w', x) == if x == e then pc else PcOf(w, x)
  {
  }

  lemma DrawKeeps(w: World, e: EngineId)
    requires Fenced(w) && Possible(w, DrawToken(e))
    ensures Fenced(Do(w, DrawToken(e)))
  {
    var w' := Do(w, DrawToken(e));
    var token := Count(w.counter) + 1;
    PcAfter(w, w', e, Owning(PcOf(w, e).acquisition, token));
    assert token !in w.grants;
    forall x: EngineId ensures LoopOk(w', x) {
      assert LoopOk(w, x);
    }
    forall envelope ensures Genuine(w, envelope) ==> Genuine(w', envelope) {
    }
    forall i | 0 <= i < |w'.accepted| ensures AcceptedOk(w', w'.accepted[i]) {
      assert AcceptedOk(w, w.accepted[i]);
    }
    forall i | 0 <= i < |w'.stream| ensures Delivered(w', w'.stream[i]) {
      assert Delivered(w, w.stream[i]);
    }
  }

  lemma CheckKeeps(w: World, index: nat)
    requires Fenced(w) && Possible(w, Check(index))
    ensures Fenced(Do(w, Check(index)))
  {
    var w' := Do(w, Check(index));
    var envelope := w.stream[index];
    assert Delivered(w, envelope);
    if Accepts(envelope.token, w.counter) {
      forall x: EngineId ensures LoopOk(w', x) {
        assert LoopOk(w, x);
      }
      forall i | 0 <= i < |w'.accepted| ensures AcceptedOk(w', w'.accepted[i]) {
        if i < |w.accepted| {
          assert AcceptedOk(w, w.accepted[i]);
        }
      }
      forall i, j | 0 <= i < j < |w'.accepted|
        ensures Count(w'.accepted[i].counter) <= Count(w'.accepted[j].counter)
      {
        assert AcceptedOk(w, w.accepted[i]);
      }
    }
  }

  lemma StampKeeps(w: World, e: EngineId, body: nat)
    requires Fenced(w) && Possible(w, Stamp(e, body))
    ensures Fenced(Do(w, Stamp(e, body)))
  {
    var w' := Do(w, Stamp(e, body));
    assert LoopOk(w, e);
    forall x: EngineId ensures LoopOk(w', x) {
      assert LoopOk(w, x);
    }
    forall i | 0 <= i < |w'.accepted| ensures AcceptedOk(w', w'.accepted[i]) {
      assert AcceptedOk(w, w.accepted[i]);
    }
  }

  /** Grants, stamped envelopes and acceptances are untouched; the counter may advance. */
  lemma QuietKeeps(w: World, w': World)
    requires Fenced(w)
    requires forall e: EngineId :: LoopOk(w', e)
    requires w'.grants == w.grants && w'.stamped == w.stamped && w'.accepted == w.accepted
    requires Count(w.counter) <= Count(w'.counter)
    requires forall i :: 0 <= i < |w'.stream| ==> w'.stream[i] in w.stamped || w'.stream[i] in w.stream
    ensures Fenced(w')
  {
    forall i | 0 <= i < |w'.accepted| ensures AcceptedOk(w', w'.accepted[i]) {
      assert AcceptedOk(w, w.accepted[i]);
    }
    forall i | 0 <= i < |w'.stream| ensures Delivered(w', w'.stream[i]) {
      if w'.stream[i] in w.stamped {
        assert Genuine(w, w'.stream[i]);
      } else {
        var j :| 0 <= j < |w.stream| && w.stream[j] == w'.stream[i];
        assert Delivered(w, w.stream[j]);
      }
    }
  }

  lemma LoopsKept(w: World, a: Action)
    requires Fenced(w) && Possible(w, a) && !a.DrawToken?
    ensures forall e: EngineId :: LoopOk(Do(w, a), e)
  {
    var w' := Do(w, a);
    forall e: EngineId ensures LoopOk(w', e) {
      assert LoopOk(w, e);
    }
  }

  lemma ActionKeeps(w: World, a: Action)
    requires Fenced(w) && Possible(w, a)
    ensures Fenced(Do(w, a))
  {
    hide Fenced;
    match a {
      case DrawToken(e) => DrawKeeps(w, e);
      case Check(index) => CheckKeeps(w, index);
      case Stamp(e, body) => StampKeeps(w, e, body);
      case _ =>
        LoopsKept(w, a);
        QuietKeeps(w, Do(w, a));
    }
  }

  lemma {:induction false} ScheduleKeeps(w: World, actions: seq<Action>)
    requires Fenced(w) && IsSchedule(w, actions)
    ensures Fenced(RunSchedule(w, actions))
    decreases actions
  {
    hide Fenced, Do, Possible;
    if actions != [] {
      ActionKeeps(w, actions[0]);
      ScheduleKeeps(Do(w, actions[0]), actions[1..]);
    }
  }

  /** No engine runs, no token was ever drawn; the stream may hold envelopes from before fencing. */
  ghost predicate Starts(w: World) {
    && w.pcs == map[] && w.tokens == map[] && w.grants == map[] && w.stamped == {} && w.accepted == []
    && forall i :: 0 <= i < |w.stream| ==> w.stream[i].token == 0
  }

  // ---------------------------------------------------------------------
  // Theorems over whole runs
  // ---------------------------------------------------------------------

  /**
   The fence: of any two accepted envelopes with a token, the later checked one has
   at least the token of the earlier, and two that were accepted at the same value of
   the counter come from the same acquisition of the same engine.
   */
  lemma AcceptedInTokenOrder(w: World, actions: seq<Action>, i: nat, j: nat)
    requires Starts(w) && IsSchedule(w, actions) && i < j < |RunSchedule(w, actions).accepted|
    ensures var accepted := RunSchedule(w, actions).accepted;
            accepted[i].envelope.token != 0 && accepted[j].envelope.token != 0 ==>
              && accepted[i].envelope.token <= accepted[j].envelope.token
              && (accepted[i].counter == accepted[j].counter ==> accepted[i].envelope.source == accepted[j].envelope.source)
  {
    hide IsSchedule, RunSchedule;
    ScheduleKeeps(w, actions);
    var w' := RunSchedule(w, actions);
    assert AcceptedOk(w', w'.accepted[i]) && AcceptedOk(w', w'.accepted[j]);
  }

  /**
   Whatever run led here, the next entry the worker checks is accepted exactly when it
   is from before fencing or carries the last token drawn: a newer token shuts out all
   older ones, and while no token was ever drawn only entries without one are there.
   */
  lemma OldTokensShutOut(w: World, actions: seq<Action>, index: nat)
    requires Starts(w) && IsSchedule(w, actions) && index < |RunSchedule(w, actions).stream|
    ensures var w' := RunSchedule(w, actions);
            var envelope := w'.stream[index];
            Do(w', Check(index)).accepted
              == w'.accepted + (if envelope.token == 0 || Some(envelope.token) == w'.counter
                                then [Acceptance(envelope, w'.counter)] else [])
  {
    hide IsSchedule, RunSchedule;
    ScheduleKeeps(w, actions);
    var w' := RunSchedule(w, actions);
    assert Delivered(w', w'.stream[index]);
  }

  /**
   Token discipline: every envelope an engine stamps, in any interleaving, carries the
   nonzero token of that engine's current acquisition.
   */
  lemma StampsOwnToken(w: World, actions: seq<Action>, e: EngineId, body: nat)
    requires Starts(w) && IsSchedule(w, actions) && Possible(RunSchedule(w, actions), Stamp(e, body))
    ensures var w' := RunSchedule(w, actions);
            var pc := PcOf(w', e);
            && pc.token != 0
            && Do(w', Stamp(e, body)).stamped == w'.stamped + {Envelope(pc.token, Source(e, pc.acquisition), body)}
            && pc.token in w'.grants && w'.grants[pc.token] == Source(e, pc.acquisition)
  {
    hide IsSchedule, RunSchedule;
    ScheduleKeeps(w, actions);
    assert LoopOk(RunSchedule(w, actions), e);
  }

  /** Every envelope in the stream that was not there at the start has a token, so none takes the legacy path. */
  lemma {:induction false} NothingNewIsLegacy(w: World, actions: seq<Action>, index: nat)
    requires Fenced(w) && IsSchedule(w, actions) && |w.stream| <= index < |RunSchedule(w, actions).stream|
    ensures RunSchedule(w, actions).stream[index].token != 0
    decreases actions
  {
    hide Do, Possible;
    if actions != [] {
      var w1 := Do(w, actions[0]);
      ActionKeeps(w, actions[0]);
      if index < |w1.stream| {
        AppendsGenuine(w, actions[0]);
        StreamStays(w1, actions[1..], index);
      } else {
        NothingNewIsLegacy(w1, actions[1..], index);
      }
    }
  }

  lemma AppendsGenuine(w: World, a: Action)
    requires Fenced(w) && Possible(w, a)
    ensures var s := Do(w, a).stream;
            s == w.stream || (|s| == |w.stream| + 1 && s[..|w.stream|] == w.stream && s[|w.stream|].token != 0)
  {
    if a.Publish? {
      assert Genuine(w, a.envelope);
    }
  }

  lemma {:induction false} StreamStays(w: World, actions: seq<Action>, index: nat)
    requires IsSchedule(w, actions) && index < |w.stream|
    ensures index < |RunSchedule(w, actions).stream| && RunSchedule(w, actions).stream[index] == w.stream[index]
    decreases actions
  {
    if actions != [] {
      StreamStays(Do(w, actions[0]), actions[1..], index);
    }
  }

  // ---------------------------------------------------------------------
  // The lease
  // ---------------------------------------------------------------------

  /** The actions that may take the lease away from e: its expiry and e's own releases. */
  predicate EndsLease(a: Action, e: EngineId) {
    a.Expire? || a == Release(e) || a == GiveBack(e)
  }

  /**
   Whatever other engines do, renewals and releases of stale ones included, a lease
   that neither expires nor is released by its owner stays with its owner.
   */
  lemma {:induction false} OwnerKeepsLease(w: World, actions: seq<Action>, e: EngineId)
    requires IsSchedule(w, actions) && w.lease == Some(e)
    requires forall i :: 0 <= i < |actions| ==> !EndsLease(actions[i], e)
    ensures RunSchedule(w, actions).lease == Some(e)
    decreases actions
  {
    if actions != [] {
      assert !EndsLease(actions[0], e);
      OwnerKeepsLease(Do(w, actions[0]), actions[1..], e);
    }
  }

  /**
   Of all actions of all engines, three kinds change the lease: an engine takes it while
   it is free, it expires, or the engine that is stored lets it go. So neither a renewal
   nor the release of an engine that is not stored ever touches it.
   */
  lemma LeaseChangesExactlyWhen(w: World, a: Action)
    requires Possible(w, a)
    ensures Do(w, a).lease != w.lease <==>
              || (w.lease == None && (a.Acquire? || (a.AcquireFails? && a.applied)))
              || (w.lease != None && a.Expire?)
              || ((a.Release? || a.GiveBack?) && w.lease == Some(a.e))
    ensures Do(w, a).lease != w.lease && w.lease != None ==> Do(w, a).lease == None
    ensures Do(w, a).lease != w.lease && w.lease == None ==> Do(w, a).lease == Some(a.e)
  {
  }

  /**
   A renewal decides by the stored owner alone: for that engine it changes nothing, and
   any other engine that owned is on its way out and stays so, whatever happens, until
   it draws a token again.
   */
  lemma RenewDecides(w: World, actions: seq<Action>, e: EngineId)
    requires IsSchedule(Do(w, Renew(e)), actions)
    requires forall i :: 0 <= i < |actions| ==> actions[i] != DrawToken(e)
    ensures w.lease == Some(e) ==> Do(w, Renew(e)) == w
    ensures w.lease != Some(e) && PcOf(w, e).Owning? ==>
              PcOf(Do(w, Renew(e)), e) == Leaving(PcOf(w, e).acquisition, PcOf(w, e).token)
    ensures w.lease != Some(e) ==> !PcOf(RunSchedule(Do(w, Renew(e)), actions), e).Owning?
  {
    hide IsSchedule, RunSchedule;
    if w.lease != Some(e) {
      NotOwningStays(Do(w, Renew(e)), actions, e);
    }
  }

  lemma {:induction false} NotOwningStays(w: World, actions: seq<Action>, e: EngineId)
    requires IsSchedule(w, actions) && !PcOf(w, e).Owning?
    requires forall i :: 0 <= i < |actions| ==> actions[i] != DrawToken(e)
    ensures !PcOf(RunSchedule(w, actions), e).Owning?
    decreases actions
  {
    if actions != [] {
      assert actions[0] != DrawToken(e);
      NotOwningStays(Do(w, actions[0]), actions[1..], e);
    }
  }

  predicate InLease(pc: Pc) {
    pc.Leased? || pc.TokenFailed? || pc.Owning? || pc.Leaving?
  }

  /** Every engine between acquisition and release is the stored owner. */
  ghost predicate Exclusive(w: World) {
    forall e: EngineId :: InLease(PcOf(w, e)) ==> w.lease == Some(e)
  }

  lemma {:induction false} ExclusiveWithoutExpiry(w: World, actions: seq<Action>)
    requires Exclusive(w) && IsSchedule(w, actions)
    requires forall i :: 0 <= i < |actions| ==> !actions[i].Expire?
    ensures Exclusive(RunSchedule(w, actions))
    decreases actions
  {
    hide Possible, Do;
    if actions != [] {
      ActionExclusive(w, actions[0]);
      ExclusiveWithoutExpiry(Do(w, actions[0]), actions[1..]);
    }
  }

  lemma ActionExclusive(w: World, a: Action)
    requires Exclusive(w) && Possible(w, a) && !a.Expire?
    ensures Exclusive(Do(w, a))
  {
    forall e: EngineId ensures InLease(PcOf(Do(w, a), e)) ==> Do(w, a).lease == Some(e) {
      assert InLease(PcOf(w, e)) ==> w.lease == Some(e);
    }
  }

  /** In every run without an expiry, at most one engine is between acquisition and release. */
  lemma OneOwner(w: World, actions: seq<Action>, e: EngineId, f: EngineId)
    requires Starts(w) && IsSchedule(w, actions)
    requires forall i :: 0 <= i < |actions| ==> !actions[i].Expire?
    requires InLease(PcOf(RunSchedule(w, actions), e)) && InLease(PcOf(RunSchedule(w, actions), f))
    ensures e == f
  {
    hide IsSchedule, RunSchedule;
    ExclusiveWithoutExpiry(w, actions);
  }

  /** After an expiry two engines may own at once; the fence then admits only the newer one. */
  lemma ExpirySplitsOwnership(w: World, e: EngineId, f: EngineId)
    requires Starts(w) && w.lease == None && e != f
    ensures var actions := [Acquire(e), DrawToken(e), Expire, Acquire(f), DrawToken(f)];
            && IsSchedule(w, actions)
            && PcOf(RunSchedule(w, actions), e).Owning? && PcOf(RunSchedule(w, actions), f).Owning?
  {
    hide IsSchedule, RunSchedule;
    var w1 := Do(w, Acquire(e));
    var w2 := Do(w1, DrawToken(e));
    var w3 := Do(w2, Expire);
    var w4 := Do(w3, Acquire(f));
    var w5 := Do(w4, DrawToken(f));
    var a4 := [DrawToken(f)];
    var a3 := [Acquire(f)] + a4;
    var a2 := [Expire] + a3;
    var a1 := [DrawToken(e)] + a2;
    var a0 := [Acquire(e)] + a1;
    OneAction(w4, DrawToken(f));
    ScheduleNext(w3, Acquire(f), a4);
    ScheduleNext(w2, Expire, a3);
    ScheduleNext(w1, DrawToken(e), a2);
    ScheduleNext(w, Acquire(e), a1);
    assert a0 == [Acquire(e), DrawToken(e), Expire, Acquire(f), DrawToken(f)];
  }

  /**
   What the engine that drew the last token stamps is accepted once it is published and
   checked, also while that engine is on its way out.
   */
  lemma CurrentTokenGetsThrough(w: World, actions: seq<Action>, e: EngineId, body: nat)
    requires Starts(w) && IsSchedule(w, actions)
    requires var pc := PcOf(RunSchedule(w, actions), e);
             (pc.Owning? || pc.Leaving?) && Some(pc.token) == RunSchedule(w, actions).counter
    ensures var w' := RunSchedule(w, actions);
            var envelope := Envelope(PcOf(w', e).token, Source(e, PcOf(w', e).acquisition), body);
            var more := [Stamp(e, body), Publish(envelope), Check(|w'.stream|)];
            && IsSchedule(w', more)
            && RunSchedule(w', more).accepted == w'.accepted + [Acceptance(envelope, w'.counter)]
            && RunSchedule(w', more).stream == w'.stream + [envelope]
  {
    hide IsSchedule, RunSchedule;
    ScheduleKeeps(w, actions);
    var w' := RunSchedule(w, actions);
    assert LoopOk(w', e);
    var envelope := Envelope(PcOf(w', e).token, Source(e, PcOf(w', e).acquisition), body);
    var w1 := Do(w', Stamp(e, body));
    var w2 := Do(w1, Publish(envelope));
    var a2 := [Check(|w'.stream|)];
    var a1 := [Publish(envelope)] + a2;
    OneAction(w2, Check(|w'.stream|));
    ScheduleNext(w1, Publish(envelope), a2);
    ScheduleNext(w', Stamp(e, body), a1);
    assert [Stamp(e, body)] + a1 == [Stamp(e, body), Publish(envelope), Check(|w'.stream|)];
  }

  /** An owner that stops lets go of the lease it holds and forgets its token. */
  lemma StopGivesBack(w: World, e: EngineId)
    requires PcOf(w, e).Owning? && w.lease == Some(e)
    ensures var actions := [Stop(e), Release(e), Forget(e)];
            && IsSchedule(w, actions)
            && RunSchedule(w, actions) == w.(lease := None, pcs := w.pcs[e := Waiting], tokens := w.tokens - {e})
  {
    hide IsSchedule, RunSchedule;
    var w1 := Do(w, Stop(e));
    var w2 := Do(w1, Release(e));
    var a2 := [Forget(e)];
    var a1 := [Release(e)] + a2;
    OneAction(w2, Forget(e));
    ScheduleNext(w1, Release(e), a2);
    ScheduleNext(w, Stop(e), a1);
    assert [Stop(e)] + a1 == [Stop(e), Release(e), Forget(e)];
  }

  /** A whole pass of the loop gives the lease back, forgets the token and leaves the counter one higher. */
  lemma PassGivesBack(w: World, e: EngineId)
    requires PcOf(w, e).Waiting? && w.lease == None && e !in w.tokens
    ensures var actions := [Acquire(e), DrawToken(e)] + [Stop(e), Release(e), Forget(e)];
            && IsSchedule(w, actions)
            && var w' := RunSchedule(w, actions);
            && w'.lease == None && w'.pcs == w.pcs[e := Waiting] && w'.tokens == w.tokens
            && w'.counter == Some(Count(w.counter) + 1) && w'.acquisitions == w.acquisitions + 1
  {
    hide IsSchedule, RunSchedule;
    var w1 := Do(w, Acquire(e));
    var w2 := Do(w1, DrawToken(e));
    var last := [Stop(e), Release(e), Forget(e)];
    StopGivesBack(w2, e);
    ScheduleNext(w1, DrawToken(e), last);
    ScheduleNext(w, Acquire(e), [DrawToken(e)] + last);
    assert [Acquire(e)] + ([DrawToken(e)] + last) == [Acquire(e), DrawToken(e)] + last;
    assert w2.tokens - {e} == w.tokens;
  }

  /** When no token can be had the lease is given back, whether or not the failed draw advanced the counter. */
  lemma FailedDrawGivesBack(w: World, e: EngineId, applied: bool)
    requires PcOf(w, e).Waiting? && w.lease == None
    ensures var actions := [Acquire(e), TokenFails(e, applied), GiveBack(e)];
            && IsSchedule(w, actions)
            && var w' := RunSchedule(w, actions);
            && w'.lease == None && PcOf(w', e) == Waiting && w'.tokens == w.tokens && w'.grants == w.grants
            && w'.counter == if applied then Some(Count(w.counter) + 1) else w.counter
  {
    hide IsSchedule, RunSchedule;
    var w1 := Do(w, Acquire(e));
    var w2 := Do(w1, TokenFails(e, applied));
    var a2 := [GiveBack(e)];
    var a1 := [TokenFails(e, applied)] + a2;
    OneAction(w2, GiveBack(e));
    ScheduleNext(w1, TokenFails(e, applied), a2);
    ScheduleNext(w, Acquire(e), a1);
    assert [Acquire(e)] + a1 == [Acquire(e), TokenFails(e, applied), GiveBack(e)];
  }

  lemma OneAction(w: World, a: Action)
    requires Possible(w, a)
    ensures IsSchedule(w, [a]) && RunSchedule(w, [a]) == Do(w, a)
  {
    assert [a][1..] == [];
  }

  lemma ScheduleNext(w: World, a: Action, rest: seq<Action>)
    ensures Possible(w, a) && IsSchedule(Do(w, a), rest) ==>
              IsSchedule(w, [a] + rest) && RunSchedule(w, [a] + rest) == RunSchedule(Do(w, a), rest)
  {
    assert ([a] + rest)[1..] == rest;
  }
}
