/**
 Runs: any sequence of the engine's atomic sections, in any interleaving of
 handlers, from any well-formed state. The theorems here say what holds after
 every run.
 */
module Runs {
  import opened Types
  import opened Matching
  import opened EngineState
  import opened Invariant
  import opened StepInvariant
  import opened MatchInvariant
  import opened Shares
  import opened Cash

  datatype Step =
    | OpenUser(user: Id)
    | OpenEvent(event: Id)
    | Place(request: Request, freshId: Id)
    | Unpublished(order: Id)
    | MatchNow(order: Id)
    | Withdraw(order: Id, event: Id)

  /** An order is matched or dropped once, by the handler that admitted it. */
  predicate Enabled(s: State, step: Step) {
    match step
    case Unpublished(id) => id in s.inflight
    case MatchNow(id) => id in s.inflight && Matchable(s, id) && Keyed(s.orders)
    case _ => true
  }

  function Apply(s: State, step: Step): State
    requires Enabled(s, step)
  {
    match step
    case OpenUser(user) => UserCreated(s, user)
    case OpenEvent(event) => CreateEvent(s, event)
    case Place(request, freshId) => Admit(s, request, freshId).state
    case Unpublished(id) => EmitFails(s, id)
    case MatchNow(id) => Match(s, id)
    case Withdraw(id, event) => Cancel(s, id, event).state
  }

  function TradesIn(s: State, step: Step): seq<Trade>
    requires Enabled(s, step)
  {
    if step.MatchNow? then TradesOf(s, step.order) else []
  }

  /** A sequence of steps each of which is possible when its turn comes. */
  predicate IsRun(s: State, steps: seq<Step>)
    decreases steps
  {
    steps == [] || (Enabled(s, steps[0]) && IsRun(Apply(s, steps[0]), steps[1..]))
  }

  function Run(s: State, steps: seq<Step>): State
    requires IsRun(s, steps)
    decreases steps
  {
    if steps == [] then s else Run(Apply(s, steps[0]), steps[1..])
  }

  /** All trades of a run, in order. */
  function RunTrades(s: State, steps: seq<Step>): seq<Trade>
    requires IsRun(s, steps)
    decreases steps
  {
    if steps == [] then [] else TradesIn(s, steps[0]) + RunTrades(Apply(s, steps[0]), steps[1..])
  }

  // ---------------------------------------------------------------------
  // Books
  // ---------------------------------------------------------------------

  lemma StepWf(s: State, step: Step)
    requires Wf(s) && Enabled(s, step)
    ensures Wf(Apply(s, step))
  {
    hide Wf, Admit, Cancel, Match, Matchable, UserCreated, CreateEvent, EmitFails;
    match step
    case OpenUser(user) => UserCreatedWf(s, user);
    case OpenEvent(event) => CreateEventWf(s, event);
    case Place(request, freshId) => AdmitWf(s, request, freshId);
    case Unpublished(id) => EmitFailsWf(s, id);
    case MatchNow(id) => MatchWf(s, id);
    case Withdraw(id, event) => CancelWf(s, id, event);
  }

  /** Every run keeps orders well formed and books uncrossed, ordered and free of dead orders. */
  lemma {:induction false} RunWf(s: State, steps: seq<Step>)
    requires Wf(s) && IsRun(s, steps)
    ensures Wf(Run(s, steps))
    decreases steps
  {
    hide Wf, Apply, Enabled;
    if steps != [] {
      StepWf(s, steps[0]);
      RunWf(Apply(s, steps[0]), steps[1..]);
    }
  }

  /** In every reachable state, a bid and an ask of different users never cross. */
  lemma NeverCrossed(s: State, steps: seq<Step>, event: Id, outcome: Outcome, bid: Id, ask: Id)
    requires Wf(s) && IsRun(s, steps)
    requires bid in Resting(Run(s, steps), event, outcome, Buy)
    requires ask in Resting(Run(s, steps), event, outcome, Sell)
    ensures var s' := Run(s, steps);
            && Belongs(s', bid, event, outcome, Buy) && Belongs(s', ask, event, outcome, Sell)
            && (s'.orders[bid].terms.user != s'.orders[ask].terms.user ==>
                  s'.orders[bid].terms.price < s'.orders[ask].terms.price)
  {
    hide Run, IsRun;
    RunWf(s, steps);
    var s' := Run(s, steps);
    assert QueueOk(s', event, outcome, Buy) && QueueOk(s', event, outcome, Sell);
    QueueMember(s', event, outcome, Buy, bid);
    QueueMember(s', event, outcome, Sell, ask);
    assert Uncrossed(s', event, outcome) && Apart(s'.orders, bid, ask);
  }

  /** In every reachable state, a queue is in strict price order and first come first served within a price. */
  lemma AlwaysPriceTime(s: State, steps: seq<Step>, event: Id, outcome: Outcome, side: Side, i: nat, j: nat)
    requires Wf(s) && IsRun(s, steps)
    requires i < j < |Resting(Run(s, steps), event, outcome, side)|
    ensures var s' := Run(s, steps);
            var queue := Resting(s', event, outcome, side);
            && Belongs(s', queue[i], event, outcome, side) && Belongs(s', queue[j], event, outcome, side)
            && Before(s'.orders, s'.arrival, side, queue[i], queue[j])
  {
    hide Run, IsRun;
    RunWf(s, steps);
    assert QueueOk(Run(s, steps), event, outcome, side);
  }

  // ---------------------------------------------------------------------
  // Shares
  // ---------------------------------------------------------------------

  lemma StepShares(s: State, step: Step)
    requires Wf(s) && Enabled(s, step) && SharesOk(s, [], {})
    ensures SharesOk(Apply(s, step), [], {})
    ensures forall event, outcome ::
              ShareTotal(Apply(s, step).positions, event, outcome) == ShareTotal(s.positions, event, outcome)
    ensures forall key: PositionKey ::
              ShareSlack(Apply(s, step), key) == ShareSlack(s, key) + LeakedShares(s, step, key)
  {
    hide Wf, SharesOk, Admit, Cancel, Match, Matchable, ShareSlack, ShareTotal;
    match step
    case OpenUser(user) => OpenShares(s, UserCreated(s, user));
    case OpenEvent(event) => OpenShares(s, CreateEvent(s, event));
    case Place(request, freshId) => AdmitShares(s, request, freshId);
    case Unpublished(id) =>
      InflightKnown(s, id);
      EmitFailsShares(s, id);
    case MatchNow(id) => MatchShares(s, id);
    case Withdraw(id, event) => CancelShares(s, id, event);
  }

  /** Shares of an order whose publication failed: still reserved, locked by no order. */
  function LeakedShares(s: State, step: Step, key: PositionKey): int {
    if step.Unpublished? && step.order in s.orders then SellLock(s.orders[step.order], key) else 0
  }

  function LeakedSharesIn(s: State, steps: seq<Step>, key: PositionKey): int
    requires IsRun(s, steps)
    decreases steps
  {
    if steps == [] then 0
    else LeakedShares(s, steps[0], key) + LeakedSharesIn(Apply(s, steps[0]), steps[1..], key)
  }

  /** Every run, over budget or not, conserves the shares of every outcome of every event. */
  lemma {:induction false} RunShares(s: State, steps: seq<Step>)
    requires Wf(s) && IsRun(s, steps) && SharesOk(s, [], {})
    ensures SharesOk(Run(s, steps), [], {})
    ensures forall event, outcome ::
              ShareTotal(Run(s, steps).positions, event, outcome) == ShareTotal(s.positions, event, outcome)
    ensures forall key: PositionKey ::
              ShareSlack(Run(s, steps), key) == ShareSlack(s, key) + LeakedSharesIn(s, steps, key)
    decreases steps
  {
    hide Wf, Apply, Enabled, SharesOk, ShareSlack, ShareTotal, LeakedShares;
    if steps != [] {
      StepWf(s, steps[0]);
      StepShares(s, steps[0]);
      RunShares(Apply(s, steps[0]), steps[1..]);
    }
  }

  // ---------------------------------------------------------------------
  // Cash
  // ---------------------------------------------------------------------

  ghost predicate StepInBudget(s: State, step: Step)
    requires Enabled(s, step)
  {
    step.MatchNow? ==> InBudget(s, step.order)
  }

  /** Every market BUY of the run spends at most what it locked. */
  ghost predicate RunInBudget(s: State, steps: seq<Step>)
    requires IsRun(s, steps)
    decreases steps
  {
    steps != [] ==> StepInBudget(s, steps[0]) && RunInBudget(Apply(s, steps[0]), steps[1..])
  }

  /** The cash a step brings in: the starting balance of a new account. */
  function Grant(s: State, step: Step): int {
    if step.OpenUser? && step.user != NO_ID && step.user !in s.balances then DEFAULT_STARTING_BALANCE else 0
  }

  function Grants(s: State, steps: seq<Step>): int
    requires IsRun(s, steps)
    decreases steps
  {
    if steps == [] then 0 else Grant(s, steps[0]) + Grants(Apply(s, steps[0]), steps[1..])
  }

  /** Cash of an order whose publication failed: still reserved, locked by no order. */
  function LeakedCash(s: State, step: Step, user: Id): int {
    if step.Unpublished? && step.order in s.orders then BuyLock(s.orders[step.order], user) else 0
  }

  function LeakedCashIn(s: State, steps: seq<Step>, user: Id): int
    requires IsRun(s, steps)
    decreases steps
  {
    if steps == [] then 0
    else LeakedCash(s, steps[0], user) + LeakedCashIn(Apply(s, steps[0]), steps[1..], user)
  }

  lemma StepCash(s: State, step: Step)
    requires Wf(s) && Enabled(s, step) && CashOk(s, [], {}) && StepInBudget(s, step)
    ensures CashOk(Apply(s, step), [], {})
    ensures CashTotal(Apply(s, step).balances) == CashTotal(s.balances) + Grant(s, step)
    ensures forall user: Id :: CashSlack(Apply(s, step), user) == CashSlack(s, user) + LeakedCash(s, step, user)
  {
    hide Wf, CashOk, Admit, Cancel, Match, Matchable, CashSlack, CashTotal, UserCreated, InBudget;
    match step
    case OpenUser(user) => UserCreatedCash(s, user);
    case OpenEvent(event) => OpenCash(s, CreateEvent(s, event));
    case Place(request, freshId) => AdmitCash(s, request, freshId);
    case Unpublished(id) =>
      InflightKnown(s, id);
      EmitFailsCash(s, id);
    case MatchNow(id) => MatchCash(s, id);
    case Withdraw(id, event) => CancelCash(s, id, event);
  }

  lemma InflightKnown(s: State, id: Id)
    requires Wf(s) && id in s.inflight
    ensures id in s.orders
  {
  }

  /**
   Every in-budget run keeps the reservation invariant, changes the cash total by
   its grants only, and leaves each user's reserved cash equal to the locks of the
   user's orders plus what failed publications left behind.
   */
  lemma {:induction false} RunCash(s: State, steps: seq<Step>)
    requires Wf(s) && IsRun(s, steps) && CashOk(s, [], {}) && RunInBudget(s, steps)
    ensures CashOk(Run(s, steps), [], {})
    ensures CashTotal(Run(s, steps).balances) == CashTotal(s.balances) + Grants(s, steps)
    ensures forall user: Id :: CashSlack(Run(s, steps), user) == CashSlack(s, user) + LeakedCashIn(s, steps, user)
    decreases steps
  {
    hide Wf, Apply, Enabled, CashOk, CashSlack, CashTotal, Grant, LeakedCash, StepInBudget;
    if steps != [] {
      StepWf(s, steps[0]);
      StepCash(s, steps[0]);
      RunCash(Apply(s, steps[0]), steps[1..]);
    }
  }

  /** No user's reserved cash leaks when every publication succeeds. */
  lemma {:induction false} NoLeak(s: State, steps: seq<Step>, user: Id)
    requires IsRun(s, steps) && forall i :: 0 <= i < |steps| ==> !steps[i].Unpublished?
    ensures LeakedCashIn(s, steps, user) == 0
    decreases steps
  {
    if steps != [] {
      NoLeak(Apply(s, steps[0]), steps[1..], user);
    }
  }

  /** A run whose BUY orders are all limit orders is in budget. */
  lemma {:induction false} LimitRunsInBudget(s: State, steps: seq<Step>)
    requires Wf(s) && IsRun(s, steps) && OnlyLimitBuys(s)
    requires forall i :: 0 <= i < |steps| ==> !(steps[i].Place? && steps[i].request.side == "BUY" && steps[i].request.orderType == "MARKET")
    ensures RunInBudget(s, steps)
    decreases steps
  {
    hide Wf, Apply, Enabled;
    if steps != [] {
      LimitBudget(s, steps[0]);
      StepWf(s, steps[0]);
      LimitBuysKept(s, steps[0]);
      LimitRunsInBudget(Apply(s, steps[0]), steps[1..]);
    }
  }

  ghost predicate OnlyLimitBuys(s: State) {
    forall id | id in s.orders && s.orders[id].terms.side.Buy? :: s.orders[id].terms.kind.Limit?
  }

  lemma LimitBudget(s: State, step: Step)
    requires Enabled(s, step) && OnlyLimitBuys(s)
    ensures StepInBudget(s, step)
  {
    hide TradesOf;
  }

  lemma LimitBuysKept(s: State, step: Step)
    requires Wf(s) && Enabled(s, step) && OnlyLimitBuys(s)
    requires !(step.Place? && step.request.side == "BUY" && step.request.orderType == "MARKET")
    ensures OnlyLimitBuys(Apply(s, step))
  {
    hide Match, QueueOk, Rests, Uncrossed, AccountsOk, Matchable;
    if step.MatchNow? {
      var s' := Match(s, step.order);
      forall x | x in s'.orders ensures x in s.orders && s'.orders[x].terms == s.orders[x].terms {
        MatchTerms(s, step.order, x);
      }
    } else if step.Place? {
      ReserveBooksAny(s, step.request, step.freshId);
    }
  }

  lemma ReserveBooksAny(s: State, r: Request, freshId: Id)
    ensures var v := Validate(r, OrderId(r, freshId));
            v.Ok? ==> Reserve(s, v.value).state.orders == s.orders
  {
  }

  /** Matching changes no order's terms. */
  lemma MatchTerms(s: State, id: Id, x: Id)
    requires Wf(s) && id in s.inflight && Matchable(s, id) && Keyed(s.orders)
    ensures Match(s, id).orders.Keys == s.orders.Keys
    ensures x in s.orders ==> Match(s, id).orders[x].terms == s.orders[x].terms
  {
    hide MatchLoop, Traded, QueueOk, Rests, Uncrossed, AccountsOk, Settle, Release, OrderOk;
    if s.orders[id].status.Pending? {
      IsReady(s, id);
      TradedWf(s, id);
      var s1 := Traded(s, id);
      var s2 := SettleAll(s1, TradesOf(s, id));
      SettleAllSameButLocks(s1, TradesOf(s, id));
      ReleaseSameButLocks(s2, id);
      if x in s.orders {
        TradedOrder(s, id, x);
        assert Bare(s2.orders[x]) == Bare(s1.orders[x]);
      }
    }
  }
}
