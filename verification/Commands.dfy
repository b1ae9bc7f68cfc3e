/**
 Commands as one partition worker handles them, one after the other, and the
 events they emit. Handling a command is a function of the state.
 */
module Commands {
  import opened Types
  import opened EngineState
  import opened Invariant
  import opened StepInvariant
  import opened MatchInvariant

  /** freshId is drawn anew in each execution; it names the order when the request does not. */
  datatype Command =
    | CreateOrder(request: Request, freshId: Id)
    | CancelOrder(order: Id, eventId: Id)
    | CreateMarket(event: Id)
    | CreateUser(user: Id)
    | ReadOnly

  /** The same command in another execution. */
  function Redraw(c: Command, freshId: Id): Command {
    if c.CreateOrder? then CreateOrder(c.request, freshId) else c
  }

  /** What the durable command stream holds: the command without any draw. */
  function Stored(c: Command): Command {
    Redraw(c, NO_ID)
  }

  datatype Event =
    | OrderCreated(order: Order)
    | TradeExecuted(trade: Trade)
    | OrderCanceled(orderId: Id)

  /** accepted is the success flag of the reply. */
  datatype Handled = Handled(state: State, accepted: bool, events: seq<Event>)

  function TradeEvents(trades: seq<Trade>): seq<Event> {
    seq(|trades|, i requires 0 <= i < |trades| => TradeExecuted(trades[i]))
  }

  /** Handle one command with every publication succeeding. */
  ghost function Handle(s: State, c: Command): (h: Handled)
    requires Wf(s)
    ensures Wf(h.state)
  {
    match c
    case CreateOrder(r, freshId) =>
      var a := Admit(s, r, freshId);
      AdmitWf(s, r, freshId);
      if a.Admitted? then
        AdmittedInflight(s, r, freshId);
        var id := OrderId(r, freshId);
        MatchWf(a.state, id);
        Handled(Match(a.state, id), true, [OrderCreated(a.order)] + TradeEvents(TradesOf(a.state, id)))
      else Handled(a.state, a.Existing?, [])
    case CancelOrder(id, event) =>
      CancelWf(s, id, event);
      var x := Cancel(s, id, event);
      Handled(x.state, x.result.Ok?, if x.result.Ok? then [OrderCanceled(id)] else [])
    case CreateMarket(event) =>
      CreateEventWf(s, event);
      Handled(CreateEvent(s, event), event != NO_ID, [])
    case CreateUser(user) =>
      UserCreatedWf(s, user);
      Handled(UserCreated(s, user), user != NO_ID, [])
    case ReadOnly => Handled(s, true, [])
  }

  lemma AdmittedInflight(s: State, r: Request, freshId: Id)
    requires Admit(s, r, freshId).Admitted?
    ensures OrderId(r, freshId) in Admit(s, r, freshId).state.inflight
  {
    hide Validate;
  }

  ghost function HandleAll(s: State, log: seq<Command>): (s': State)
    requires Wf(s)
    ensures Wf(s')
    decreases log
  {
    if log == [] then s else HandleAll(Handle(s, log[0]).state, log[1..])
  }

  /** The events a log of commands emits. */
  ghost function EventsOf(s: State, log: seq<Command>): seq<Event>
    requires Wf(s)
    decreases log
  {
    if log == [] then [] else Handle(s, log[0]).events + EventsOf(Handle(s, log[0]).state, log[1..])
  }

  lemma {:induction false} HandleAllAppend(s: State, a: seq<Command>, b: seq<Command>)
    requires Wf(s)
    ensures HandleAll(s, a + b) == HandleAll(HandleAll(s, a), b)
    decreases a
  {
    hide Handle, Wf;
    if a == [] {
      assert a + b == b;
    } else {
      assert (a + b)[1..] == a[1..] + b;
      HandleAllAppend(Handle(s, a[0]).state, a[1..], b);
    }
  }

  lemma OneCommand(s: State, c: Command)
    requires Wf(s)
    ensures HandleAll(s, [c]) == Handle(s, c).state
  {
    hide Handle, Wf;
    assert [c][1..] == [];
  }

  lemma TwoCommands(s: State, c: Command, d: Command)
    requires Wf(s)
    ensures HandleAll(s, [c, d]) == Handle(Handle(s, c).state, d).state
  {
    hide Handle, Wf, HandleAll;
    assert [c] + [d] == [c, d];
    HandleAllAppend(s, [c], [d]);
    OneCommand(s, c);
    OneCommand(Handle(s, c).state, d);
  }
}
