/**
 Rebuilding the engine after a restart (internal/engine/replay.go): the log is replayed
 from the state the process started in. Two things are lost on the way: an identifier
 that was drawn live is drawn anew, and an order whose publication failed live was
 forgotten, while the replay publishes nothing and so forgets nothing.
 */
module Restart {
  import opened Types
  import opened Matching
  import opened EngineState
  import opened Invariant
  import opened MatchInvariant
  import opened Shares
  import opened Cash
  import opened Runs
  import opened Outcomes
  import opened Commands
  import opened Replay
  import opened Priority
  import Funding

  /** A command as it was handled live, and the identifier the replay will draw for it. */
  datatype Handling = Handling(command: Command, published: bool, redraw: Id)

  /** Handle one command live; published says whether the creation of an admitted order got out. */
  ghost function HandleLive(s: State, h: Handling): (s': State)
    requires Wf(s)
    ensures Wf(s')
  {
    if h.command.CreateOrder? && !h.published && Admit(s, h.command.request, h.command.freshId).Admitted? then
      var id := OrderId(h.command.request, h.command.freshId);
      AdmitWf(s, h.command.request, h.command.freshId);
      AdmittedInflight(s, h.command.request, h.command.freshId);
      EmitFailsWf(Admit(s, h.command.request, h.command.freshId).state, id);
      EmitFails(Admit(s, h.command.request, h.command.freshId).state, id)
    else Handle(s, h.command).state
  }

  ghost function LiveAll(s: State, log: seq<Handling>): (s': State)
    requires Wf(s)
    ensures Wf(s')
    decreases log
  {
    if log == [] then s else LiveAll(HandleLive(s, log[0]), log[1..])
  }

  /** The same log as the replay executes it. */
  function Replayed(log: seq<Handling>): seq<Command> {
    if log == [] then [] else [Redraw(log[0].command, log[0].redraw)] + Replayed(log[1..])
  }

  /** The identifier a command gives its order. */
  function Named(c: Command): Option<Id> {
    if c.CreateOrder? then Some(OrderId(c.request, c.freshId)) else None
  }

  function Nameless(c: Command): bool {
    c.CreateOrder? && c.request.orderId == NO_ID
  }

  /** Drawn identifiers are new and used once. */
  ghost predicate DrawsNew(s: State, log: seq<Handling>) {
    && (forall i :: 0 <= i < |log| && Nameless(log[i].command) ==>
          log[i].command.freshId !in s.orders && log[i].redraw !in s.orders)
    && (forall i, j :: 0 <= i < |log| && 0 <= j < |log| && Nameless(log[i].command) ==>
          && Named(log[j].command) != Some(log[i].redraw)
          && (i != j ==> Named(log[j].command) != Some(log[i].command.freshId)))
  }

  /** The publication of an admitted order fails. */
  predicate Fails(s: State, h: Handling) {
    h.command.CreateOrder? && !h.published && Admit(s, h.command.request, h.command.freshId).Admitted?
  }

  /** The order of the first command is not submitted again. */
  ghost predicate NotRetried(log: seq<Handling>)
    requires log != []
  {
    forall j :: 0 < j < |log| ==> Named(log[j].command) != Named(log[0].command)
  }

  /**
   A failed order that is submitted again under its identifier leaves its lock reserved,
   by which the live ledger is told apart: shares always, cash in budget.
   */
  ghost predicate FailuresTell(s: State, log: seq<Handling>, budgeted: bool)
    requires Wf(s)
    decreases log
  {
    log != [] ==>
      && (Fails(s, log[0]) ==>
            || Nameless(log[0].command) || NotRetried(log)
            || log[0].command.request.side == "SELL"
            || (budgeted && Admit(s, log[0].command.request, log[0].command.freshId).order.locked > 0))
      && FailuresTell(HandleLive(s, log[0]), log[1..], budgeted)
  }

  /** The command placed no order that the replay would miss or add. */
  predicate Reproducible(s: State, h: Handling) {
    h.command.CreateOrder? && Admit(s, h.command.request, h.command.freshId).Admitted? ==>
      h.published && !Nameless(h.command)
  }

  ghost predicate AllReproducible(s: State, log: seq<Handling>)
    requires Wf(s)
    decreases log
  {
    log != [] ==> Reproducible(s, log[0]) && AllReproducible(HandleLive(s, log[0]), log[1..])
  }

  // ---------------------------------------------------------------------
  // One command
  // ---------------------------------------------------------------------

  /** Which orders are known after a command: at most the one it names is new. */
  lemma LiveKeys(s: State, h: Handling)
    requires Wf(s)
    ensures HandleLive(s, h).orders.Keys <= s.orders.Keys + (if Named(h.command).Some? then {Named(h.command).value} else {})
    ensures h.command.CreateOrder? && !h.published && Admit(s, h.command.request, h.command.freshId).Admitted? ==>
              Named(h.command).value !in HandleLive(s, h).orders
  {
    hide Wf, Match, Matchable;
    if h.command.CreateOrder? {
      AdmitKeys(s, h.command.request, h.command.freshId);
    } else if h.command.CancelOrder? {
      CancelKeys(s, h.command.order, h.command.eventId);
    }
  }

  lemma AdmitKeys(s: State, r: Request, freshId: Id)
    requires Wf(s)
    ensures Admit(s, r, freshId).state.orders.Keys <= s.orders.Keys + {OrderId(r, freshId)}
    ensures Handle(s, CreateOrder(r, freshId)).state.orders.Keys <= s.orders.Keys + {OrderId(r, freshId)}
  {
    hide Wf, Validate, Match, Matchable;
    var a, id := Admit(s, r, freshId), OrderId(r, freshId);
    ReserveBooksAny(s, r, freshId);
    if a.Admitted? {
      AdmitWf(s, r, freshId);
      AdmittedInflight(s, r, freshId);
      MatchWf(a.state, id);
      MatchTerms(a.state, id, id);
    }
  }

  lemma CancelKeys(s: State, id: Id, event: Id)
    ensures Cancel(s, id, event).state.orders.Keys <= s.orders.Keys
  {
    hide RemoveId;
  }

  /** An order that is not admitted is not admitted under another new identifier either, with the same effect. */
  lemma RefusedEither(s: State, r: Request, first: Id, second: Id)
    requires first !in s.orders && second !in s.orders && r.orderId == NO_ID
    ensures Admit(s, r, second).Admitted? <==> Admit(s, r, first).Admitted?
    ensures !Admit(s, r, first).Admitted? ==> Admit(s, r, second).state == Admit(s, r, first).state
  {
    hide Admit, Affordable, WellFormed, Reserve, Validate;
    AdmittedExactlyWhen(s, r, first);
    AdmittedExactlyWhen(s, r, second);
    if !Admit(s, r, first).Admitted? {
      RefusedState(s, r, first);
      RefusedState(s, r, second);
      if WellFormed(r) {
        ValidateDraw(r, first, second);
        ReserveIgnoresId(s, Validate(r, first).value, second);
      }
    }
  }

  lemma RefusedState(s: State, r: Request, freshId: Id)
    requires !Admit(s, r, freshId).Admitted? && r.orderId == NO_ID && freshId !in s.orders
    ensures Admit(s, r, freshId).state ==
            if WellFormed(r) && r.eventId in s.markets then Reserve(s, Validate(r, freshId).value).state else s
  {
    hide Validate, WellFormed, Reserve;
  }

  lemma ValidateDraw(r: Request, first: Id, second: Id)
    requires WellFormed(r)
    ensures Validate(r, second).value == Validate(r, first).value.(id := second)
  {
  }

  lemma ReserveIgnoresId(s: State, t: Terms, id: Id)
    ensures Reserve(s, t.(id := id)) == Reserve(s, t)
  {
  }

  /** A reproducible command has the same effect in the replay. */
  lemma SameEffect(s: State, h: Handling)
    requires Wf(s) && Reproducible(s, h)
    requires Nameless(h.command) ==> h.command.freshId !in s.orders && h.redraw !in s.orders
    ensures Handle(s, Redraw(h.command, h.redraw)).state == HandleLive(s, h)
  {
    hide Wf, Admit, Match, Matchable, TradesOf;
    if Nameless(h.command) {
      RefusedEither(s, h.command.request, h.command.freshId, h.redraw);
    } else if h.command.CreateOrder? {
      SameAdmission(s, h.command.request, h.command.freshId, h.redraw);
    }
  }

  // ---------------------------------------------------------------------
  // The whole log
  // ---------------------------------------------------------------------

  lemma DrawsStayNew(s: State, log: seq<Handling>)
    requires Wf(s) && log != [] && DrawsNew(s, log)
    ensures DrawsNew(HandleLive(s, log[0]), log[1..])
  {
    hide HandleLive, Wf, Named;
    LiveKeys(s, log[0]);
    forall i | 0 <= i < |log[1..]| ensures log[1..][i] == log[i + 1] {
    }
    forall i | 0 <= i < |log[1..]| && Nameless(log[1..][i].command)
      ensures log[1..][i].command.freshId !in HandleLive(s, log[0]).orders && log[1..][i].redraw !in HandleLive(s, log[0]).orders
    {
      assert Named(log[0].command) != Some(log[i + 1].redraw);
      assert Named(log[0].command) != Some(log[i + 1].command.freshId);
    }
  }

  /** An identifier no later command names is never known again. */
  lemma {:induction false} NeverNamed(s: State, log: seq<Handling>, x: Id)
    requires Wf(s) && x !in s.orders && forall i :: 0 <= i < |log| ==> Named(log[i].command) != Some(x)
    ensures x !in LiveAll(s, log).orders
    decreases log
  {
    hide HandleLive, Wf, Named;
    if log != [] {
      LiveKeys(s, log[0]);
      NeverNamed(HandleLive(s, log[0]), log[1..], x);
    }
  }

  lemma {:induction false} KnownStays(s: State, log: seq<Command>, x: Id)
    requires Wf(s) && x in s.orders
    ensures x in HandleAll(s, log).orders
    decreases log
  {
    hide Handle, Wf;
    if log != [] {
      HandleGrows(s, log[0]);
      KnownStays(Handle(s, log[0]).state, log[1..], x);
    }
  }

  /** The replay knows an order that the live engine does not. */
  lemma Diverges(s: State, log: seq<Handling>)
    requires Wf(s) && log != [] && DrawsNew(s, log) && !Reproducible(s, log[0])
    requires Nameless(log[0].command) || NotRetried(log)
    ensures HandleAll(s, Replayed(log)) != LiveAll(s, log)
  {
    hide Handle, HandleLive, Wf, Admit, HandleAll, LiveAll;
    var h := log[0];
    var c := Redraw(h.command, h.redraw);
    var r := h.command.request;
    var x := OrderId(r, h.redraw);
    if Nameless(h.command) {
      RefusedEither(s, r, h.command.freshId, h.redraw);
    }
    assert Admit(s, r, h.redraw).Admitted? by { SameAdmission(s, r, h.command.freshId, h.redraw); }
    AdmittedStays(s, r, h.redraw);
    ReplayedFirst(s, log);
    KnownStays(Handle(s, c).state, Replayed(log[1..]), x);
    LiveFirst(s, log);
    LiveKeys(s, h);
    NewOrder(s, r, h.redraw);
    forall i | 0 <= i < |log[1..]| ensures Named(log[1..][i].command) != Some(x) {
      assert log[1..][i] == log[i + 1];
    }
    NeverNamed(HandleLive(s, h), log[1..], x);
  }

  lemma SameAdmission(s: State, r: Request, first: Id, second: Id)
    ensures r.orderId != NO_ID ==> Admit(s, r, second) == Admit(s, r, first)
  {
    hide Validate;
  }

  lemma NewOrder(s: State, r: Request, freshId: Id)
    requires Admit(s, r, freshId).Admitted?
    ensures OrderId(r, freshId) !in s.orders
  {
    hide Validate;
  }

  lemma ReplayedFirst(s: State, log: seq<Handling>)
    requires Wf(s) && log != []
    ensures HandleAll(s, Replayed(log)) == HandleAll(Handle(s, Redraw(log[0].command, log[0].redraw)).state, Replayed(log[1..]))
  {
    hide Handle, Wf;
    assert Replayed(log)[1..] == Replayed(log[1..]);
  }

  lemma LiveFirst(s: State, log: seq<Handling>)
    requires Wf(s) && log != []
    ensures LiveAll(s, log) == LiveAll(HandleLive(s, log[0]), log[1..])
  {
  }

  // ---------------------------------------------------------------------
  // What a failed publication leaves behind
  // ---------------------------------------------------------------------

  ghost predicate HandleInBudget(s: State, c: Command)
    requires Wf(s)
  {
    c.CreateOrder? && Admit(s, c.request, c.freshId).Admitted? ==>
      var s1 := Admit(s, c.request, c.freshId).state;
      Matchable(s1, OrderId(c.request, c.freshId)) && InBudget(s1, OrderId(c.request, c.freshId))
  }

  ghost predicate LogInBudget(s: State, log: seq<Command>)
    requires Wf(s)
    decreases log
  {
    log != [] ==> HandleInBudget(s, log[0]) && LogInBudget(Handle(s, log[0]).state, log[1..])
  }

  ghost predicate LiveInBudget(s: State, log: seq<Handling>)
    requires Wf(s)
    decreases log
  {
    log != [] ==>
      (Fails(s, log[0]) || HandleInBudget(s, log[0].command)) && LiveInBudget(HandleLive(s, log[0]), log[1..])
  }

  /** The reservation invariant holds at the start, and both the live run and the replay are in budget. */
  ghost predicate Budgeted(s: State, log: seq<Handling>)
    requires Wf(s)
  {
    CashOk(s, [], {}) && LogInBudget(s, Replayed(log)) && LiveInBudget(s, log)
  }

  lemma HandleKeepsShares(s: State, c: Command)
    requires Wf(s) && SharesOk(s, [], {})
    ensures SharesOk(Handle(s, c).state, [], {})
    ensures forall key: PositionKey :: ShareSlack(Handle(s, c).state, key) == ShareSlack(s, key)
  {
    hide Wf, SharesOk, Admit, Cancel, Match, Matchable, ShareSlack, ShareTotal;
    match c
    case CreateOrder(r, freshId) =>
      AdmitShares(s, r, freshId);
      var a := Admit(s, r, freshId);
      if a.Admitted? {
        AdmitWf(s, r, freshId);
        AdmittedInflight(s, r, freshId);
        MatchShares(a.state, OrderId(r, freshId));
      }
    case CancelOrder(id, event) => CancelShares(s, id, event);
    case CreateMarket(event) => OpenShares(s, CreateEvent(s, event));
    case CreateUser(user) => OpenShares(s, UserCreated(s, user));
    case ReadOnly =>
  }

  lemma HandleKeepsCash(s: State, c: Command)
    requires Wf(s) && CashOk(s, [], {}) && HandleInBudget(s, c)
    ensures CashOk(Handle(s, c).state, [], {})
    ensures forall user: Id :: CashSlack(Handle(s, c).state, user) == CashSlack(s, user)
  {
    hide Wf, CashOk, Admit, Cancel, Match, Matchable, CashSlack, CashTotal, InBudget, UserCreated;
    match c
    case CreateOrder(r, freshId) =>
      AdmitCash(s, r, freshId);
      var a := Admit(s, r, freshId);
      if a.Admitted? {
        AdmitWf(s, r, freshId);
        AdmittedInflight(s, r, freshId);
        MatchWf(a.state, OrderId(r, freshId));
        MatchCash(a.state, OrderId(r, freshId));
      }
    case CancelOrder(id, event) => CancelCash(s, id, event);
    case CreateMarket(event) => OpenCash(s, CreateEvent(s, event));
    case CreateUser(user) => UserCreatedCash(s, user);
    case ReadOnly =>
  }

  lemma {:induction false} ReplayKeepsShares(s: State, log: seq<Command>)
    requires Wf(s) && SharesOk(s, [], {})
    ensures forall key: PositionKey :: ShareSlack(HandleAll(s, log), key) == ShareSlack(s, key)
    decreases log
  {
    hide Handle, Wf, SharesOk, ShareSlack;
    if log != [] {
      HandleKeepsShares(s, log[0]);
      ReplayKeepsShares(Handle(s, log[0]).state, log[1..]);
    }
  }

  lemma {:induction false} ReplayKeepsCash(s: State, log: seq<Command>)
    requires Wf(s) && CashOk(s, [], {}) && LogInBudget(s, log)
    ensures forall user: Id :: CashSlack(HandleAll(s, log), user) == CashSlack(s, user)
    decreases log
  {
    hide Handle, Wf, CashOk, CashSlack, HandleInBudget;
    if log != [] {
      HandleKeepsCash(s, log[0]);
      ReplayKeepsCash(Handle(s, log[0]).state, log[1..]);
    }
  }

  /** A failed publication turns the order's lock into slack. */
  lemma FailureLeaks(s: State, h: Handling)
    requires Wf(s) && Fails(s, h)
    ensures var o := Admit(s, h.command.request, h.command.freshId).order;
            && o.locked >= 0
            && (SharesOk(s, [], {}) ==> SharesOk(HandleLive(s, h), [], {}))
            && (CashOk(s, [], {}) ==> CashOk(HandleLive(s, h), [], {}))
            && (SharesOk(s, [], {}) ==> forall key: PositionKey ::
                  ShareSlack(HandleLive(s, h), key) == ShareSlack(s, key) + SellLock(o, key))
            && (CashOk(s, [], {}) ==> forall user: Id ::
                  CashSlack(HandleLive(s, h), user) == CashSlack(s, user) + BuyLock(o, user))
  {
    hide Wf, SharesOk, CashOk, Admit, ShareSlack, CashSlack, ShareTotal, CashTotal, Freezes;
    var r, freshId := h.command.request, h.command.freshId;
    var a, id := Admit(s, r, freshId), OrderId(r, freshId);
    AdmitWf(s, r, freshId);
    AdmittedInflight(s, r, freshId);
    AdmissionFreezes(s, r, freshId);
    LockNonNegative(a.state, id);
    if SharesOk(s, [], {}) {
      AdmitShares(s, r, freshId);
      EmitFailsShares(a.state, id);
    }
    if CashOk(s, [], {}) {
      AdmitCash(s, r, freshId);
      EmitFailsCash(a.state, id);
    }
  }

  lemma LockNonNegative(s: State, id: Id)
    requires Wf(s) && id in s.orders
    ensures s.orders[id].locked >= 0
  {
    hide QueueOk, Rests, Uncrossed, AccountsOk;
    assert OrderOk(s.orders[id]);
  }

  /** The slack of the live ledger only grows. */
  lemma {:induction false} LiveSharesGrow(s: State, log: seq<Handling>)
    requires Wf(s) && SharesOk(s, [], {})
    ensures forall key: PositionKey :: ShareSlack(LiveAll(s, log), key) >= ShareSlack(s, key)
    decreases log
  {
    hide Wf, Handle, SharesOk, ShareSlack, Admit, CashOk;
    if log != [] {
      if Fails(s, log[0]) {
        FailureLeaks(s, log[0]);
      } else {
        HandleKeepsShares(s, log[0].command);
      }
      LiveSharesGrow(HandleLive(s, log[0]), log[1..]);
    }
  }

  lemma {:induction false} LiveCashGrows(s: State, log: seq<Handling>)
    requires Wf(s) && CashOk(s, [], {}) && LiveInBudget(s, log)
    ensures forall user: Id :: CashSlack(LiveAll(s, log), user) >= CashSlack(s, user)
    decreases log
  {
    hide Wf, Handle, CashOk, CashSlack, Admit, SharesOk, HandleInBudget;
    if log != [] {
      if Fails(s, log[0]) {
        FailureLeaks(s, log[0]);
      } else {
        HandleKeepsCash(s, log[0].command);
      }
      LiveCashGrows(HandleLive(s, log[0]), log[1..]);
    }
  }

  /** The shares of a failed SELL stay reserved live and not in the replay, submitted again or not. */
  lemma SellTells(s: State, log: seq<Handling>)
    requires Wf(s) && SharesOk(s, [], {}) && log != [] && Fails(s, log[0]) && log[0].command.request.side == "SELL"
    ensures HandleAll(s, Replayed(log)) != LiveAll(s, log)
  {
    hide Wf, Handle, HandleLive, HandleAll, LiveAll, SharesOk, CashOk, ShareSlack, Admit, Freezes;
    var r, freshId := log[0].command.request, log[0].command.freshId;
    var o := Admit(s, r, freshId).order;
    AdmissionFreezes(s, r, freshId);
    AdmittedExactlyWhen(s, r, freshId);
    FailureLeaks(s, log[0]);
    LiveFirst(s, log);
    LiveSharesGrow(HandleLive(s, log[0]), log[1..]);
    ReplayKeepsShares(s, Replayed(log));
    assert SellLock(o, KeyOf(o.terms)) == r.quantity > 0;
    assert ShareSlack(LiveAll(s, log), KeyOf(o.terms)) > ShareSlack(HandleAll(s, Replayed(log)), KeyOf(o.terms));
  }

  /** So does the cash of a failed BUY, in budget. */
  lemma BuyTells(s: State, log: seq<Handling>)
    requires Wf(s) && Budgeted(s, log) && log != [] && Fails(s, log[0])
    requires Admit(s, log[0].command.request, log[0].command.freshId).order.locked > 0
    requires log[0].command.request.side != "SELL"
    ensures HandleAll(s, Replayed(log)) != LiveAll(s, log)
  {
    hide Wf, Handle, HandleLive, HandleAll, LiveAll, CashOk, SharesOk, CashSlack, Admit, Freezes, LogInBudget;
    var r, freshId := log[0].command.request, log[0].command.freshId;
    var o := Admit(s, r, freshId).order;
    AdmissionFreezes(s, r, freshId);
    AdmittedExactlyWhen(s, r, freshId);
    FailureLeaks(s, log[0]);
    LiveFirst(s, log);
    LiveCashGrows(HandleLive(s, log[0]), log[1..]);
    ReplayKeepsCash(s, Replayed(log));
    assert BuyLock(o, r.userId) == o.locked;
    assert CashSlack(LiveAll(s, log), r.userId) > CashSlack(HandleAll(s, Replayed(log)), r.userId);
  }

  /**
   Replaying one partition's log from the state the process started in rebuilds the live
   state if and only if no admitted order's publication failed and no admitted order was
   named by a draw.
   */
  lemma {:induction false} RebuildsExactlyWhen(s: State, log: seq<Handling>, budgeted: bool)
    requires Wf(s) && SharesOk(s, [], {}) && DrawsNew(s, log) && FailuresTell(s, log, budgeted)
    requires budgeted ==> Budgeted(s, log)
    ensures HandleAll(s, Replayed(log)) == LiveAll(s, log) <==> AllReproducible(s, log)
    decreases log
  {
    hide Handle, HandleLive, Wf, Reproducible, DrawsNew, Named, Nameless, SharesOk, Admit, Budgeted;
    if log != [] {
      if Reproducible(s, log[0]) {
        FirstDraws(s, log);
        SameEffect(s, log[0]);
        DrawsStayNew(s, log);
        ReplayedFirst(s, log);
        HandleKeepsShares(s, Redraw(log[0].command, log[0].redraw));
        if budgeted {
          BudgetRest(s, log);
        }
        RebuildsExactlyWhen(HandleLive(s, log[0]), log[1..], budgeted);
      } else {
        FirstDiverges(s, log, budgeted);
      }
    }
  }

  lemma FirstDiverges(s: State, log: seq<Handling>, budgeted: bool)
    requires Wf(s) && SharesOk(s, [], {}) && log != [] && DrawsNew(s, log) && FailuresTell(s, log, budgeted)
    requires budgeted ==> Budgeted(s, log)
    requires !Reproducible(s, log[0])
    ensures HandleAll(s, Replayed(log)) != LiveAll(s, log)
  {
    hide Handle, HandleLive, HandleAll, LiveAll, Wf, DrawsNew, Named, SharesOk, Admit, Budgeted, NotRetried;
    if Nameless(log[0].command) || NotRetried(log) {
      Diverges(s, log);
    } else if log[0].command.request.side == "SELL" {
      SellTells(s, log);
    } else {
      BuyTells(s, log);
    }
  }

  lemma BudgetRest(s: State, log: seq<Handling>)
    requires Wf(s) && log != [] && Budgeted(s, log)
    requires Handle(s, Redraw(log[0].command, log[0].redraw)).state == HandleLive(s, log[0])
    ensures Budgeted(HandleLive(s, log[0]), log[1..])
  {
    hide Handle, HandleLive, Wf, CashOk, CashSlack, HandleInBudget, Admit;
    assert Replayed(log)[0] == Redraw(log[0].command, log[0].redraw) && Replayed(log)[1..] == Replayed(log[1..]);
    HandleKeepsCash(s, Replayed(log)[0]);
  }

  lemma FirstDraws(s: State, log: seq<Handling>)
    requires DrawsNew(s, log) && log != []
    ensures Nameless(log[0].command) ==> log[0].command.freshId !in s.orders && log[0].redraw !in s.orders
  {
  }

  // ---------------------------------------------------------------------
  // The remaining cases
  // ---------------------------------------------------------------------

  /**
   A market BUY of a user without cash locks nothing. When its publication fails and it is
   submitted again at once, the failure leaves no trace, and the replay rebuilds the state
   in spite of it.
   */
  lemma ZeroLockRetry(s: State, r: Request, freshId: Id, redraw: Id)
    requires Wf(s) && r.orderId != NO_ID && Admit(s, r, freshId).Admitted? && Admit(s, r, freshId).order.locked == 0
    ensures var c := CreateOrder(r, freshId);
            var log := [Handling(c, false, redraw), Handling(c, true, redraw)];
            HandleAll(s, Replayed(log)) == LiveAll(s, log)
  {
    hide Handle, Wf, HandleAll, LiveAll, Admit, Match, Matchable;
    var c := CreateOrder(r, freshId);
    var first, second := Handling(c, false, redraw), Handling(c, true, redraw);
    var log := [first, second];
    assert log[1..] == [second] && [second][1..] == [];
    LiveFirst(s, log);
    LiveFirst(HandleLive(s, first), [second]);
    LiveNothing(HandleLive(HandleLive(s, first), second));
    ForgottenIsFresh(s, r, freshId);
    ReplayedTwice(c, redraw);
    SameAdmission(s, r, freshId, redraw);
    TwoCommands(s, Redraw(c, redraw), Redraw(c, redraw));
    AdmittedStays(s, r, redraw);
    AbsorbedIsNoOp(Handle(s, Redraw(c, redraw)).state, Redraw(c, redraw));
    SameHandling(s, HandleLive(s, first), r, freshId, redraw);
  }

  lemma LiveNothing(s: State)
    requires Wf(s)
    ensures LiveAll(s, []) == s
  {
  }

  lemma ReplayedTwice(c: Command, redraw: Id)
    ensures Replayed([Handling(c, false, redraw), Handling(c, true, redraw)]) == [Redraw(c, redraw), Redraw(c, redraw)]
  {
    var a, b := Handling(c, false, redraw), Handling(c, true, redraw);
    assert [b][1..] == [];
    assert Replayed([b]) == [Redraw(c, redraw)];
    assert [a, b][1..] == [b];
  }

  /** Forgetting an order that locked nothing leaves a state that admits it the same way. */
  lemma ForgottenIsFresh(s: State, r: Request, freshId: Id)
    requires Wf(s) && Admit(s, r, freshId).Admitted? && Admit(s, r, freshId).order.locked == 0
    ensures var a := Admit(s, r, freshId);
            Admit(EmitFails(a.state, OrderId(r, freshId)), r, freshId) == a
  {
    hide Validate, QueueOk, Rests, Uncrossed, AccountsOk, OrdersOk;
    var a, id := Admit(s, r, freshId), OrderId(r, freshId);
    var v := Validate(r, id);
    assert id !in s.inflight by { KnownInflight(s, id); }
    assert a.state.orders - {id} == s.orders;
    assert a.state.inflight - {id} == s.inflight;
    assert EmitFails(a.state, id) == Reserve(s, v.value).state;
    ReserveNothing(s, v.value);
  }

  lemma KnownInflight(s: State, id: Id)
    requires Wf(s)
    ensures id in s.inflight ==> id in s.orders
  {
    hide QueueOk, Rests, Uncrossed, AccountsOk, OrdersOk;
  }

  lemma ReserveNothing(s: State, t: Terms)
    requires Reserve(s, t).Reserved? && Reserve(s, t).lock == 0
    ensures Reserve(Reserve(s, t).state, t) == Reserve(s, t)
  {
  }

  lemma SameHandling(s: State, s1: State, r: Request, freshId: Id, redraw: Id)
    requires Wf(s) && Wf(s1) && r.orderId != NO_ID
    requires Admit(s1, r, freshId) == Admit(s, r, freshId) && Admit(s, r, freshId).Admitted?
    ensures Handle(s1, CreateOrder(r, freshId)).state == Handle(s, CreateOrder(r, redraw)).state
  {
    hide Wf, Admit, Match, Matchable, TradesOf;
    SameAdmission(s, r, freshId, redraw);
  }

  // ---------------------------------------------------------------------
  // Several partitions
  // ---------------------------------------------------------------------

  /**
   An engine that owns several partitions replays each stream on its own, in an order of
   its own, while balances are shared by all. Two orders of one user that are affordable
   one at a time end in different states, so the live state is rebuilt only if the streams
   are interleaved as they were.
   */
  lemma StreamsDoNotCommute(s: State, r: Request, q: Request)
    requires Wf(s) && r.orderId != NO_ID && q.orderId != NO_ID && r.orderId != q.orderId
    requires Admit(s, r, NO_ID).Admitted? && Admit(s, q, NO_ID).Admitted?
    requires !Affordable(Handle(s, CreateOrder(r, NO_ID)).state, q)
    ensures var c, d := CreateOrder(r, NO_ID), CreateOrder(q, NO_ID);
            HandleAll(s, [c, d]) != HandleAll(s, [d, c])
  {
    hide Handle, Wf, HandleAll, Admit, Affordable;
    var c, d := CreateOrder(r, NO_ID), CreateOrder(q, NO_ID);
    TwoCommands(s, c, d);
    TwoCommands(s, d, c);
    var s1 := Handle(s, c).state;
    AdmitKeys(s, r, NO_ID);
    NewOrder(s, q, NO_ID);
    AdmittedExactlyWhen(s1, q, NO_ID);
    RefusedKeys(s1, q);
    AdmittedStays(s, q, NO_ID);
    HandleGrows(Handle(s, d).state, c);
  }

  lemma RefusedKeys(s: State, q: Request)
    requires Wf(s) && !Admit(s, q, NO_ID).Admitted?
    ensures Handle(s, CreateOrder(q, NO_ID)).state.orders == s.orders
  {
    hide Wf, Admit;
    RefusalChangesNothing(s, q, NO_ID);
  }

  /** For instance: two markets, and two bids of a user who has the cash for one. */
  function TwoMarkets(cash: nat): State {
    State(map[1 := EMPTY_MARKET, 2 := EMPTY_MARKET], map[], map[1 := Holding(cash, 0)], map[], {}, map[], 0, 0)
  }

  function BidIn(event: Id, cash: nat): Request {
    Request(event, event, 1, "LIMIT", "YES", "BUY", 1, cash)
  }

  lemma TwoMarketsOk(cash: nat)
    ensures Wf(TwoMarkets(cash))
  {
    hide QueueOk, Uncrossed;
    var s := TwoMarkets(cash);
    forall event, outcome, side ensures QueueOk(s, event, outcome, side) {
      NoQueueIn(s, event, outcome, side);
    }
    forall event, outcome ensures Uncrossed(s, event, outcome) {
      NoQueueIn(s, event, outcome, Buy);
    }
  }

  lemma NoQueueIn(s: State, event: Id, outcome: Outcome, side: Side)
    requires forall e | e in s.markets :: s.markets[e] == EMPTY_MARKET
    ensures QueueOk(s, event, outcome, side) && Uncrossed(s, event, outcome)
  {
  }

  lemma TwoStreams(cash: nat)
    requires cash > 0
    ensures Wf(TwoMarkets(cash))
    ensures var c, d := CreateOrder(BidIn(1, cash), NO_ID), CreateOrder(BidIn(2, cash), NO_ID);
            HandleAll(TwoMarkets(cash), [c, d]) != HandleAll(TwoMarkets(cash), [d, c])
  {
    hide Wf, HandleAll, Handle, Admit, Affordable;
    var s := TwoMarkets(cash);
    TwoMarketsOk(cash);
    BidsAdmitted(cash);
    CashSpent(cash);
    StreamsDoNotCommute(s, BidIn(1, cash), BidIn(2, cash));
  }

  lemma BidsAdmitted(cash: nat)
    requires cash > 0
    ensures Admit(TwoMarkets(cash), BidIn(1, cash), NO_ID).Admitted? && Admit(TwoMarkets(cash), BidIn(2, cash), NO_ID).Admitted?
  {
    AdmittedExactlyWhen(TwoMarkets(cash), BidIn(1, cash), NO_ID);
    AdmittedExactlyWhen(TwoMarkets(cash), BidIn(2, cash), NO_ID);
  }

  /** The first bid finds no seller and keeps the cash frozen. */
  lemma CashSpent(cash: nat)
    requires cash > 0 && Wf(TwoMarkets(cash))
    ensures !Affordable(Handle(TwoMarkets(cash), CreateOrder(BidIn(1, cash), NO_ID)).state, BidIn(2, cash))
  {
    hide Wf, Match, Matchable, TradesOf, Pool, Eligible;
    var s, r := TwoMarkets(cash), BidIn(1, cash);
    BidsAdmitted(cash);
    var a := Admit(s, r, NO_ID);
    AdmitWf(s, r, NO_ID);
    AdmittedInflight(s, r, NO_ID);
    MatchWf(a.state, 1);
    IsReady(a.state, 1);
    OnlyOrder(a.state);
    Funding.TradesExactlyWhen(a.state, 1);
    NoTradesNoMoves(a.state, 1);
  }

  lemma OnlyOrder(s: State)
    requires s.orders.Keys == {1} && 1 in s.inflight
    ensures forall x :: x in s.orders ==> x !in Pool(s, s.orders[1].terms)
  {
  }

  lemma NoTradesNoMoves(s: State, id: Id)
    requires Ready(s, id) && TradesOf(s, id) == [] && s.orders[id].terms.kind.Limit?
    ensures Match(s, id).balances == s.balances
  {
    hide MatchLoop, Traded, TradesOf, QueueOk, Rests, Uncrossed, AccountsOk;
    TradedFields(s, id);
    TradedStanding(s, id);
    TradedQuantity(s, id, id);
    TradedOrder(s, id, id);
    assert OrderOk(s.orders[id]);
  }
}
