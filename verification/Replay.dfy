/**
 Redelivery and replay of the command log (internal/engine/replay.go). A request that
 names no order gets a new identifier in every execution, so a replayed command is the
 stored command with another draw. The theorems say exactly when replaying changes
 nothing.
 */
module Replay {
  import opened Types
  import opened Matching
  import opened EngineState
  import opened Invariant
  import opened MatchInvariant
  import opened Runs
  import opened Lifecycle
  import opened Outcomes
  import opened Commands
  import opened EngineObject

  /** The command identifies what it creates, whatever is drawn when it is executed. */
  predicate Explicit(c: Command) {
    c.CreateOrder? ==> c.request.orderId != NO_ID
  }

  /** The effect of the command is in the state for good. */
  predicate Absorbed(s: State, c: Command) {
    match c
    case CreateOrder(r, _) => r.orderId != NO_ID && r.orderId in s.orders
    case CancelOrder(id, _) => id in s.orders && !s.orders[id].Live()
    case CreateMarket(event) => event in s.markets
    case CreateUser(user) => user in s.balances
    case ReadOnly => true
  }

  /** An absorbed command changes nothing. */
  lemma AbsorbedIsNoOp(s: State, c: Command)
    requires Wf(s) && Absorbed(s, c)
    ensures Handle(s, c).state == s && Handle(s, c).events == []
  {
    hide Validate, Match, QueueOk, Rests, Uncrossed, AccountsOk;
    if c.CancelOrder? {
      assert OrderOk(s.orders[c.order]);
    }
  }

  // ---------------------------------------------------------------------
  // Nothing is ever taken back
  // ---------------------------------------------------------------------

  /** Markets, accounts, positions and orders only accumulate. */
  predicate Grows(s: State, s': State) {
    && s.markets.Keys <= s'.markets.Keys && s.orders.Keys <= s'.orders.Keys
    && s.balances.Keys <= s'.balances.Keys && s.positions.Keys <= s'.positions.Keys
  }

  lemma {:induction false} SettleAllGrows(s: State, trades: seq<Trade>)
    ensures Grows(s, SettleAll(s, trades))
    decreases trades
  {
    if trades != [] {
      SettleAllGrows(Settle(s, trades[0]), trades[1..]);
    }
  }

  lemma ReleaseGrows(s: State, id: Id)
    requires id in s.orders
    ensures Grows(s, Release(s, id))
  {
  }

  lemma MatchGrows(s: State, id: Id)
    requires Wf(s) && id in s.inflight && Matchable(s, id) && Keyed(s.orders)
    ensures Grows(s, Match(s, id))
  {
    hide MatchLoop, Traded, QueueOk, Rests, Uncrossed, AccountsOk, Settle, Release, OrderOk;
    if s.orders[id].status.Pending? {
      IsReady(s, id);
      TradedFields(s, id);
      var s2 := SettleAll(Traded(s, id), TradesOf(s, id));
      SettleAllGrows(Traded(s, id), TradesOf(s, id));
      ReleaseGrows(s2, id);
    }
  }

  lemma AdmitGrows(s: State, r: Request, freshId: Id)
    ensures Grows(s, Admit(s, r, freshId).state)
  {
    hide Validate;
  }

  lemma CancelGrows(s: State, id: Id, event: Id)
    ensures Grows(s, Cancel(s, id, event).state)
  {
    hide RemoveId;
  }

  lemma HandleGrows(s: State, c: Command)
    requires Wf(s)
    ensures Grows(s, Handle(s, c).state)
  {
    hide Wf, Admit, Cancel, Match, Matchable;
    match c
    case CreateOrder(r, freshId) =>
      AdmitGrows(s, r, freshId);
      var a := Admit(s, r, freshId);
      if a.Admitted? {
        AdmitWf(s, r, freshId);
        AdmittedInflight(s, r, freshId);
        MatchWf(a.state, OrderId(r, freshId));
        MatchGrows(a.state, OrderId(r, freshId));
      }
    case CancelOrder(id, event) => CancelGrows(s, id, event);
    case _ =>
  }

  /** Handling a command never revives or changes a finished order. */
  lemma HandleFinished(s: State, c: Command, x: Id)
    requires Wf(s) && x in s.orders && !s.orders[x].Live()
    ensures x in Handle(s, c).state.orders && Handle(s, c).state.orders[x] == s.orders[x]
  {
    hide Wf, Admit, Cancel, Match, Matchable;
    match c
    case CreateOrder(r, freshId) =>
      StepFinished(s, Place(r, freshId), x);
      var a := Admit(s, r, freshId);
      if a.Admitted? {
        AdmitWf(s, r, freshId);
        AdmittedInflight(s, r, freshId);
        MatchWf(a.state, OrderId(r, freshId));
        StepFinished(a.state, MatchNow(OrderId(r, freshId)), x);
      }
    case CancelOrder(id, event) => StepFinished(s, Withdraw(id, event), x);
    case _ =>
  }

  /** Being absorbed does not depend on the draw. */
  lemma AbsorbedStored(s: State, c: Command)
    ensures Absorbed(s, c) <==> Absorbed(s, Stored(c))
  {
  }

  lemma AbsorbedStays(s: State, c: Command, d: Command)
    requires Wf(s) && Absorbed(s, c)
    ensures Absorbed(Handle(s, d).state, c)
  {
    hide Handle, Wf;
    HandleGrows(s, d);
    if c.CancelOrder? {
      HandleFinished(s, d, c.order);
    }
  }

  /** An admitted order is in the state it leaves. */
  lemma AdmittedStays(s: State, r: Request, freshId: Id)
    requires Wf(s) && Admit(s, r, freshId).Admitted?
    ensures OrderId(r, freshId) in Handle(s, CreateOrder(r, freshId)).state.orders
  {
    hide Validate, MatchLoop, Match, QueueOk, Rests, Uncrossed, AccountsOk, Matchable;
    var a := Admit(s, r, freshId);
    AdmitWf(s, r, freshId);
    AdmittedInflight(s, r, freshId);
    MatchWf(a.state, OrderId(r, freshId));
    MatchGrows(a.state, OrderId(r, freshId));
  }

  /** An accepted command that names its order is absorbed by the state it leaves. */
  lemma AcceptedIsAbsorbed(s: State, c: Command)
    requires Wf(s) && Explicit(c)
    ensures Handle(s, c).accepted ==> Absorbed(Handle(s, c).state, c)
  {
    hide Validate, MatchLoop, Match, QueueOk, Rests, Uncrossed, AccountsOk, Matchable;
    if c.CreateOrder? && Admit(s, c.request, c.freshId).Admitted? {
      AdmittedStays(s, c.request, c.freshId);
    }
  }

  // ---------------------------------------------------------------------
  // Redelivery anywhere in the log
  // ---------------------------------------------------------------------

  /** A delivery of a command, marked when it repeats an earlier one. */
  datatype Delivery = Delivery(command: Command, repeat: bool)

  function CommandsIn(log: seq<Delivery>): seq<Command> {
    if log == [] then [] else [log[0].command] + CommandsIn(log[1..])
  }

  function Originals(log: seq<Delivery>): seq<Command> {
    if log == [] then []
    else (if log[0].repeat then [] else [log[0].command]) + Originals(log[1..])
  }

  /** Every repeat is of a command accepted before, with any draw; seen holds those accepted so far. */
  ghost predicate OnlyRepeats(s: State, seen: set<Command>, log: seq<Delivery>)
    requires Wf(s)
    decreases log
  {
    if log == [] then true else
      var h := Handle(s, log[0].command);
      if log[0].repeat then Stored(log[0].command) in seen && OnlyRepeats(h.state, seen, log[1..])
      else OnlyRepeats(h.state, if h.accepted && Explicit(log[0].command) then seen + {Stored(log[0].command)} else seen, log[1..])
  }

  /** Any number of redeliveries at any later points change neither the final state nor the events emitted. */
  lemma {:induction false} RepeatsChangeNothing(s: State, seen: set<Command>, log: seq<Delivery>)
    requires Wf(s) && OnlyRepeats(s, seen, log)
    requires forall c | c in seen :: Absorbed(s, c)
    ensures HandleAll(s, CommandsIn(log)) == HandleAll(s, Originals(log))
    ensures EventsOf(s, CommandsIn(log)) == EventsOf(s, Originals(log))
    decreases log
  {
    hide Handle, Wf, Absorbed, Explicit, Redraw;
    if log != [] {
      var c, rest := log[0].command, log[1..];
      var h := Handle(s, c);
      assert CommandsIn(log)[1..] == CommandsIn(rest);
      if log[0].repeat {
        AbsorbedStored(s, c);
        AbsorbedIsNoOp(s, c);
        RepeatsChangeNothing(s, seen, rest);
        assert Originals(log) == Originals(rest);
      } else {
        var seen' := if h.accepted && Explicit(c) then seen + {Stored(c)} else seen;
        forall d | d in seen' ensures Absorbed(h.state, d) {
          if d in seen {
            AbsorbedStays(s, d, c);
          } else {
            AcceptedIsAbsorbed(s, c);
            AbsorbedStored(h.state, c);
          }
        }
        RepeatsChangeNothing(h.state, seen', rest);
        assert Originals(log)[1..] == Originals(rest);
      }
    }
  }

  // ---------------------------------------------------------------------
  // Commands that change nothing
  // ---------------------------------------------------------------------

  /** The ledger entry that reserving for the request would open is there. */
  predicate HasEntry(s: State, r: Request) {
    if r.side == "SELL" then AskedKey(r) in s.positions else r.userId in s.balances
  }

  /** The guards with which the handlers turn a command away. They do not mention the draw. */
  predicate Idle(s: State, c: Command) {
    match c
    case CreateOrder(r, _) =>
      || !WellFormed(r)
      || (r.orderId != NO_ID && r.orderId in s.orders)
      || r.eventId !in s.markets
      || (!Affordable(s, r) && HasEntry(s, r))
    case CancelOrder(id, event) =>
      || id == NO_ID || id !in s.orders
      || (event != NO_ID && s.orders[id].terms.event != event)
      || !s.orders[id].Live()
    case CreateMarket(event) => event == NO_ID || event in s.markets
    case CreateUser(user) => user == NO_ID || user in s.balances
    case ReadOnly => true
  }

  /** The identifier drawn for a request without one is new. */
  predicate NewDraw(s: State, c: Command) {
    c.CreateOrder? && c.request.orderId == NO_ID ==> c.freshId !in s.orders
  }

  lemma RefusedIsIdle(s: State, r: Request, freshId: Id)
    requires OrderId(r, freshId) !in s.orders && r.eventId in s.markets && WellFormed(r) && !Affordable(s, r)
    ensures !Admit(s, r, freshId).Admitted? && !Admit(s, r, freshId).Existing?
    ensures HasEntry(s, r) ==> Admit(s, r, freshId).state == s
    ensures HasEntry(Admit(s, r, freshId).state, r)
  {
    hide Validate, WellFormed, Affordable;
    ValidTerms(r, OrderId(r, freshId));
    AdmittedExactlyWhen(s, r, freshId);
    var t := Validate(r, OrderId(r, freshId)).value;
    ReserveEntry(s, t);
  }

  lemma ReserveEntry(s: State, t: Terms)
    ensures Reserve(s, t).Denied? ==>
              var s1 := Reserve(s, t).state;
              && (if t.side.Buy? then t.user in s1.balances else KeyOf(t) in s1.positions)
              && ((if t.side.Buy? then t.user in s.balances else KeyOf(t) in s.positions) ==> s1 == s)
  {
    if t.side.Buy? && t.user in s.balances {
      assert s.balances[t.user := s.balances[t.user]] == s.balances;
    }
    if t.side.Sell? && KeyOf(t) in s.positions {
      assert s.positions[KeyOf(t) := s.positions[KeyOf(t)]] == s.positions;
    }
  }

  lemma IdleCreate(s: State, r: Request, freshId: Id)
    requires Wf(s) && Idle(s, CreateOrder(r, freshId))
    ensures !Admit(s, r, freshId).Admitted? && Admit(s, r, freshId).state == s
  {
    hide Validate, WellFormed, Affordable, Reserve, HasEntry, Wf;
    AdmittedExactlyWhen(s, r, freshId);
    if WellFormed(r) && OrderId(r, freshId) !in s.orders && r.eventId in s.markets {
      RefusedIsIdle(s, r, freshId);
    }
  }

  /** An idle command changes nothing and emits nothing. */
  lemma IdleIsNoOp(s: State, c: Command)
    requires Wf(s) && Idle(s, c)
    ensures Handle(s, c).state == s && Handle(s, c).events == []
  {
    hide Wf, Admit, Match, Matchable, Affordable, WellFormed, HasEntry, Cancel;
    match c
    case CreateOrder(r, freshId) => IdleCreate(s, r, freshId);
    case CancelOrder(id, event) => CanceledExactlyWhen(s, id, event);
    case _ =>
  }

  /** An absorbed command is idle: its effect is one of the guards. */
  lemma AbsorbedIsIdle(s: State, c: Command)
    requires Wf(s) && Absorbed(s, c)
    ensures Idle(s, c)
  {
    hide Wf, Affordable, WellFormed, HasEntry;
  }

  /** A later state that can never be s again: it knows more, or has finished an order that was live. */
  ghost predicate Beyond(s: State, s': State) {
    || !(s'.markets.Keys <= s.markets.Keys)
    || !(s'.balances.Keys <= s.balances.Keys)
    || !(s'.positions.Keys <= s.positions.Keys)
    || !(s'.orders.Keys <= s.orders.Keys)
    || exists x :: x in s.orders && s.orders[x].Live() && x in s'.orders && !s'.orders[x].Live()
  }

  lemma BusyCreate(s: State, r: Request, freshId: Id)
    requires Wf(s) && !Idle(s, CreateOrder(r, freshId)) && NewDraw(s, CreateOrder(r, freshId))
    ensures Beyond(s, Handle(s, CreateOrder(r, freshId)).state)
  {
    hide Wf, Admit, Match, Matchable, Affordable, WellFormed;
    AdmittedExactlyWhen(s, r, freshId);
    if Affordable(s, r) {
      AdmittedStays(s, r, freshId);
    } else {
      RefusedIsIdle(s, r, freshId);
    }
  }

  lemma BusyCancel(s: State, id: Id, event: Id)
    requires Wf(s) && !Idle(s, CancelOrder(id, event))
    ensures Beyond(s, Cancel(s, id, event).state)
  {
    hide Wf, RemoveId, Cancel;
    CanceledExactlyWhen(s, id, event);
    CanceledNotLive(s, id, event);
  }

  lemma CanceledNotLive(s: State, id: Id, event: Id)
    requires Cancel(s, id, event).result.Ok?
    ensures id in Cancel(s, id, event).state.orders && !Cancel(s, id, event).state.orders[id].Live()
  {
    hide RemoveId;
  }

  /** Any other command takes the state somewhere it never comes back from. */
  lemma BusyMoves(s: State, c: Command)
    requires Wf(s) && !Idle(s, c) && NewDraw(s, c)
    ensures Beyond(s, Handle(s, c).state)
  {
    hide Wf, Admit, Match, Matchable, Affordable, WellFormed, HasEntry, Cancel;
    match c
    case CreateOrder(r, freshId) => BusyCreate(s, r, freshId);
    case CancelOrder(id, event) => BusyCancel(s, id, event);
    case _ =>
  }

  lemma BeyondStays(s: State, s1: State, c: Command)
    requires Wf(s1) && Beyond(s, s1)
    ensures Beyond(s, Handle(s1, c).state)
  {
    hide Handle, Wf;
    HandleGrows(s1, c);
    if x :| x in s.orders && s.orders[x].Live() && x in s1.orders && !s1.orders[x].Live() {
      HandleFinished(s1, c, x);
    }
  }

  lemma {:induction false} BeyondThrough(s: State, s1: State, log: seq<Command>)
    requires Wf(s1) && Beyond(s, s1)
    ensures Beyond(s, HandleAll(s1, log))
    decreases log
  {
    hide Handle, Wf, Beyond;
    if log != [] {
      BeyondStays(s, s1, log[0]);
      BeyondThrough(s, Handle(s1, log[0]).state, log[1..]);
    }
  }

  lemma NotBeyondItself(s: State)
    ensures !Beyond(s, s)
  {
  }

  /**
   Handling a log of commands leaves the state as it was if and only if each command
   is turned away by a guard, read off that very state.
   */
  lemma {:induction false} NoOpExactlyWhen(s: State, log: seq<Command>)
    requires Wf(s) && forall i :: 0 <= i < |log| ==> NewDraw(s, log[i])
    ensures HandleAll(s, log) == s <==> forall i :: 0 <= i < |log| ==> Idle(s, log[i])
    ensures HandleAll(s, log) == s ==> EventsOf(s, log) == []
    decreases log
  {
    hide Handle, Wf, Idle, Beyond, NewDraw;
    if log != [] {
      if Idle(s, log[0]) {
        IdleIsNoOp(s, log[0]);
        forall i | 0 <= i < |log[1..]| ensures NewDraw(s, log[1..][i]) && log[1..][i] == log[i + 1] {
          assert NewDraw(s, log[i + 1]);
        }
        NoOpExactlyWhen(s, log[1..]);
        assert forall i :: 0 < i < |log| ==> log[i] == log[1..][i - 1];
      } else {
        assert NewDraw(s, log[0]);
        BusyMoves(s, log[0]);
        BeyondThrough(s, Handle(s, log[0]).state, log[1..]);
        NotBeyondItself(s);
      }
    }
  }

  // ---------------------------------------------------------------------
  // Replay on top of the live state
  // ---------------------------------------------------------------------

  /** The replay reads the same stored commands and draws its own identifiers. */
  predicate Redraws(log: seq<Command>, again: seq<Command>) {
    |again| == |log| && forall i :: 0 <= i < |log| ==> Stored(again[i]) == Stored(log[i])
  }

  lemma IdleStored(s: State, c: Command, d: Command)
    requires Stored(c) == Stored(d)
    ensures Idle(s, c) <==> Idle(s, d)
    ensures Explicit(c) <==> Explicit(d)
  {
  }

  /**
   Replaying a log on the live state it produced, with any new draws, changes nothing
   if and only if the live state turns each of its commands away.
   */
  lemma ReplayExactlyWhen(s: State, log: seq<Command>, again: seq<Command>)
    requires Wf(s) && Redraws(log, again)
    requires forall i :: 0 <= i < |again| ==> NewDraw(HandleAll(s, log), again[i])
    ensures HandleAll(HandleAll(s, log), again) == HandleAll(s, log) <==>
              forall i :: 0 <= i < |log| ==> Idle(HandleAll(s, log), log[i])
  {
    hide Handle, Wf, Idle, HandleAll, NewDraw, Redraw;
    var live := HandleAll(s, log);
    NoOpExactlyWhen(live, again);
    forall i | 0 <= i < |log| ensures Idle(live, log[i]) <==> Idle(live, again[i]) {
      IdleStored(live, log[i], again[i]);
    }
  }

  ghost predicate AllAccepted(s: State, log: seq<Command>)
    requires Wf(s)
    decreases log
  {
    log != [] ==> Handle(s, log[0]).accepted && AllAccepted(Handle(s, log[0]).state, log[1..])
  }

  lemma {:induction false} LogAbsorbed(s: State, log: seq<Command>, i: nat)
    requires Wf(s) && AllAccepted(s, log) && i < |log| && Explicit(log[i])
    ensures Absorbed(HandleAll(s, log), log[i])
    decreases log
  {
    hide Handle, Wf, Absorbed, Explicit;
    var s1 := Handle(s, log[0]).state;
    if i == 0 {
      AcceptedIsAbsorbed(s, log[0]);
      AbsorbedThrough(s1, log[1..], log[0]);
    } else {
      LogAbsorbed(s1, log[1..], i - 1);
    }
  }

  lemma {:induction false} AbsorbedThrough(s: State, log: seq<Command>, c: Command)
    requires Wf(s) && Absorbed(s, c)
    ensures Absorbed(HandleAll(s, log), c)
    decreases log
  {
    hide Handle, Wf, Absorbed;
    if log != [] {
      AbsorbedStays(s, c, log[0]);
      AbsorbedThrough(Handle(s, log[0]).state, log[1..], c);
    }
  }

  /**
   For a log in which everything was accepted, the replay changes nothing if and only
   if each order without an identifier of its own would be turned away by now; for a
   log whose orders are all named it therefore never changes anything.
   */
  lemma AcceptedReplayExactlyWhen(s: State, log: seq<Command>, again: seq<Command>)
    requires Wf(s) && AllAccepted(s, log) && Redraws(log, again)
    requires forall i :: 0 <= i < |again| ==> NewDraw(HandleAll(s, log), again[i])
    ensures HandleAll(HandleAll(s, log), again) == HandleAll(s, log) <==>
              forall i :: 0 <= i < |log| && !Explicit(log[i]) ==> Idle(HandleAll(s, log), log[i])
  {
    hide Handle, Wf, Idle, HandleAll, NewDraw, Redraws, AllAccepted, Absorbed, Explicit;
    ReplayExactlyWhen(s, log, again);
    forall i | 0 <= i < |log| && Explicit(log[i]) ensures Idle(HandleAll(s, log), log[i]) {
      LogAbsorbed(s, log, i);
      AbsorbedIsIdle(HandleAll(s, log), log[i]);
    }
  }

  /** Named commands that were all accepted: every redraw of the log is a no-op on the live state. */
  lemma ReplayIsNoOp(s: State, log: seq<Command>, again: seq<Command>)
    requires Wf(s) && AllAccepted(s, log) && Redraws(log, again)
    requires forall i :: 0 <= i < |log| ==> Explicit(log[i])
    ensures HandleAll(HandleAll(s, log), again) == HandleAll(s, log)
    ensures EventsOf(HandleAll(s, log), again) == []
  {
    hide Handle, Wf, HandleAll, AllAccepted, Absorbed;
    forall i | 0 <= i < |again| ensures NewDraw(HandleAll(s, log), again[i]) {
      IdleStored(s, log[i], again[i]);
    }
    AcceptedReplayExactlyWhen(s, log, again);
    NoOpExactlyWhen(HandleAll(s, log), again);
  }

  /** An order without an identifier that can still be paid for is placed again, under the new one. */
  lemma NamelessOrderRepeats(s: State, r: Request, first: Id, second: Id)
    requires Wf(s) && r.orderId == NO_ID && WellFormed(r) && r.eventId in s.markets
    requires var live := Handle(s, CreateOrder(r, first)).state;
             Affordable(live, r) && second !in live.orders
    ensures var live := Handle(s, CreateOrder(r, first)).state;
            second in HandleAll(live, [CreateOrder(r, second)]).orders && second !in live.orders
  {
    hide Handle, Wf, HandleAll, WellFormed, Affordable;
    var live := Handle(s, CreateOrder(r, first)).state;
    HandleGrows(s, CreateOrder(r, first));
    AdmittedExactlyWhen(live, r, second);
    AdmittedStays(live, r, second);
    OneCommand(live, CreateOrder(r, second));
  }

  /**
   A log with a rejected command: an order for an event that is created only later is
   refused the first time and accepted by the replay.
   */
  lemma RejectedThenReplayed(s: State, r: Request, first: Id, second: Id)
    requires Wf(s) && WellFormed(r) && Affordable(s, r) && r.eventId !in s.markets
    requires OrderId(r, first) !in s.orders && OrderId(r, second) !in s.orders
    ensures var live := HandleAll(s, [CreateOrder(r, first), CreateMarket(r.eventId)]);
            && !Handle(s, CreateOrder(r, first)).accepted
            && OrderId(r, second) !in live.orders
            && OrderId(r, second) in HandleAll(live, [CreateOrder(r, second), CreateMarket(r.eventId)]).orders
  {
    hide Handle, Wf, HandleAll, WellFormed, Affordable;
    var c, d, e := CreateOrder(r, first), CreateMarket(r.eventId), CreateOrder(r, second);
    AdmittedExactlyWhen(s, r, first);
    TwoCommands(s, c, d);
    var live := HandleAll(s, [c, d]);
    UnknownEventRefused(s, r, first);
    assert live == CreateEvent(s, r.eventId) by { HandleMarket(s, r.eventId); }
    AffordableIgnoresMarkets(s, r);
    AdmittedExactlyWhen(live, r, second);
    AdmittedStays(live, r, second);
    TwoCommands(live, e, d);
    HandleGrows(Handle(live, e).state, d);
  }

  lemma UnknownEventRefused(s: State, r: Request, freshId: Id)
    requires Wf(s) && WellFormed(r) && r.eventId !in s.markets && OrderId(r, freshId) !in s.orders
    ensures Handle(s, CreateOrder(r, freshId)).state == s && !Handle(s, CreateOrder(r, freshId)).accepted
    ensures r.eventId != NO_ID
  {
    hide Wf, Validate;
  }

  lemma HandleMarket(s: State, event: Id)
    requires Wf(s)
    ensures Handle(s, CreateMarket(event)).state == CreateEvent(s, event)
  {
    hide Wf;
  }

  lemma AffordableIgnoresMarkets(s: State, r: Request)
    ensures Affordable(CreateEvent(s, r.eventId), r) <==> Affordable(s, r)
    ensures r.eventId != NO_ID ==> r.eventId in CreateEvent(s, r.eventId).markets
    ensures CreateEvent(s, r.eventId).orders == s.orders
  {
  }

  // ---------------------------------------------------------------------
  // The replay loop
  // ---------------------------------------------------------------------

  /** An entry of the durable command stream. */
  datatype Entry = Missing | Unreadable | Readable(command: Command)

  /** The commands of the readable entries, each with the identifier drawn for it. */
  function ReadableIn(entries: seq<Entry>, draws: seq<Id>): seq<Command>
    requires |draws| == |entries|
  {
    if entries == [] then []
    else (if entries[0].Readable? then [Redraw(entries[0].command, draws[0])] else []) + ReadableIn(entries[1..], draws[1..])
  }

  lemma {:induction false} ReadableAppend(entries: seq<Entry>, draws: seq<Id>, e: Entry, draw: Id)
    requires |draws| == |entries|
    ensures ReadableIn(entries + [e], draws + [draw]) ==
            ReadableIn(entries, draws) + (if e.Readable? then [Redraw(e.command, draw)] else [])
  {
    if entries != [] {
      assert (entries + [e])[1..] == entries[1..] + [e] && (draws + [draw])[1..] == draws[1..] + [draw];
      ReadableAppend(entries[1..], draws[1..], e, draw);
    }
  }

  /** Every readable entry is executed once and in order, as its request stands and with its own draw; no other entry is. */
  lemma {:induction false} ReadableEntries(entries: seq<Entry>, draws: seq<Id>) returns (at: seq<nat>)
    requires |draws| == |entries|
    ensures |at| == |ReadableIn(entries, draws)|
    ensures forall i :: 0 <= i < |at| ==> at[i] < |entries| && entries[at[i]].Readable?
    ensures forall i :: 0 <= i < |at| ==>
              var c := entries[at[i]].command;
              ReadableIn(entries, draws)[i] == if c.CreateOrder? then CreateOrder(c.request, draws[at[i]]) else c
    ensures forall i, j :: 0 <= i < j < |at| ==> at[i] < at[j]
    ensures forall k :: 0 <= k < |entries| && entries[k].Readable? ==> k in at
  {
    if entries == [] {
      at := [];
    } else {
      var n := |entries| - 1;
      assert entries == entries[..n] + [entries[n]] && draws == draws[..n] + [draws[n]];
      ReadableAppend(entries[..n], draws[..n], entries[n], draws[n]);
      at := ReadableEntries(entries[..n], draws[..n]);
      if entries[n].Readable? {
        at := at + [n];
      }
    }
  }

  /** One partition's command loop: the engine, the replaying flag and the event stream. */
  class PartitionLoop {
    const engine: Engine
    var replaying: bool
    var stream: seq<Event>

    constructor (engine: Engine)
      ensures this.engine == engine && !replaying && stream == []
    {
      this.engine, replaying, stream := engine, false, [];
    }

    /** Handle one command; events are appended to the stream unless replaying. */
    method Apply(c: Command)
      requires engine.Valid()
      modifies this`stream, engine
      ensures engine.Valid() && engine.View() == Handle(old(engine.View()), c).state
      ensures stream == old(stream) + (if replaying then [] else Handle(old(engine.View()), c).events)
    {
      hide Admit, Match, Cancel, Wf, Matchable;
      ghost var s := engine.View();
      var emitted: seq<Event> := [];
      match c {
        case CreateOrder(r, freshId) =>
          var a, trades := engine.HandleCreateOrder(r, freshId, true);
          if a.Ok? && a.value.Some? {
            emitted := [OrderCreated(a.value.value)] + TradeEvents(trades);
          }
        case CancelOrder(id, event) =>
          var r := engine.HandleCancelOrder(id, event);
          if r.Ok? {
            emitted := [OrderCanceled(id)];
          }
        case CreateMarket(event) =>
          var ok := engine.HandleCreateEvent(event);
        case CreateUser(user) =>
          var ok := engine.HandleUserCreated(user);
        case ReadOnly =>
      }
      assert emitted == Handle(s, c).events;
      if !replaying {
        stream := stream + emitted;
      }
    }

    /** Re-execute the whole command log with new draws; the stream is not written. */
    method ReplayCommandLog(entries: seq<Entry>, draws: seq<Id>)
      requires engine.Valid() && |draws| == |entries|
      modifies this, engine
      ensures engine.Valid() && engine.View() == HandleAll(old(engine.View()), ReadableIn(entries, draws))
      ensures stream == old(stream) && !replaying
    {
      hide Handle, Wf, Redraw;
      replaying := true;
      for i := 0 to |entries|
        invariant replaying && stream == old(stream) && engine.Valid()
        invariant Wf(old(engine.View())) && engine.View() == HandleAll(old(engine.View()), ReadableIn(entries[..i], draws[..i]))
      {
        assert entries[..i + 1] == entries[..i] + [entries[i]] && draws[..i + 1] == draws[..i] + [draws[i]];
        ReadableAppend(entries[..i], draws[..i], entries[i], draws[i]);
        if entries[i].Readable? {
          var c := Redraw(entries[i].command, draws[i]);
          HandleAllAppend(old(engine.View()), ReadableIn(entries[..i], draws[..i]), [c]);
          OneCommand(engine.View(), c);
          Apply(c);
        } else {
          assert ReadableIn(entries[..i + 1], draws[..i + 1]) == ReadableIn(entries[..i], draws[..i]);
        }
      }
      assert entries[..|entries|] == entries && draws[..|draws|] == draws;
      replaying := false;
    }
  }
}
