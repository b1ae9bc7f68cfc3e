/**
 The window between admitting an order and matching it, in which its handler does
 not hold the engine mutex: a cancellation that lands there returns the lock once
 and the order never trades or rests.
 */
module Window {
  import opened Types
  import opened Matching
  import opened EngineState
  import opened Invariant
  import opened StepInvariant
  import opened MatchInvariant
  import opened Shares
  import opened Cash
  import opened Runs
  import opened Lifecycle
  import opened Outcomes

  /** The step is not the matching, dropping or canceling of this order. */
  predicate LeavesAlone(step: Step, x: Id) {
    step != Unpublished(x) && step != MatchNow(x) && !(step.Withdraw? && step.order == x)
  }

  ghost predicate Waiting(s: State, x: Id) {
    x in s.inflight && x in s.orders && s.orders[x].status.Pending?
  }

  lemma MatchWaiting(s: State, id: Id, x: Id)
    requires Wf(s) && Enabled(s, MatchNow(id)) && x != id && Waiting(s, x)
    ensures Waiting(Match(s, id), x) && Match(s, id).orders[x] == s.orders[x]
    ensures Quantity(TradesOf(s, id), x) == 0
  {
    hide MatchLoop, Traded, QueueOk, Rests, Uncrossed, AccountsOk, Settle, OrderOk;
    MatchTerms(s, id, x);
    if s.orders[id].status.Pending? {
      IsReady(s, id);
      TradedWf(s, id);
      TradedFields(s, id);
      TradedInflight(s, id, x);
      SettleAllSameButLocks(Traded(s, id), TradesOf(s, id));
      forall i | 0 <= i < |TradesOf(s, id)| ensures !TradesOf(s, id)[i].Names(x) {
        WaitingUnnamed(s, id, x, i);
      }
      SettleAllOther(Traded(s, id), TradesOf(s, id), x);
      QuantityOfUnnamed(TradesOf(s, id), x);
    }
  }

  lemma WaitingUnnamed(s: State, id: Id, x: Id, i: nat)
    requires Ready(s, id) && x != id && Waiting(s, x) && i < |TradesOf(s, id)|
    ensures !TradesOf(s, id)[i].Names(x)
  {
    hide TradesOf, MatchLoop;
    var t := s.orders[id].terms;
    TradeSound(s, id, i);
    assert QueueOk(s, t.event, t.outcome, t.side.Opposite());
    QueueMember(s, t.event, t.outcome, t.side.Opposite(), TradesOf(s, id)[i].maker);
  }

  lemma StepWaiting(s: State, step: Step, x: Id)
    requires Wf(s) && Enabled(s, step) && Waiting(s, x) && LeavesAlone(step, x)
    ensures Waiting(Apply(s, step), x) && Apply(s, step).orders[x] == s.orders[x]
    ensures Quantity(TradesIn(s, step), x) == 0
  {
    hide Match, QueueOk, Rests, Uncrossed, AccountsOk, OrderOk, Matchable, TradesOf;
    match step
    case MatchNow(id) => MatchWaiting(s, id, x);
    case Place(request, freshId) => PlaceWaiting(s, request, freshId, x);
    case Withdraw(id, event) => CancelWaiting(s, id, event, x);
    case _ =>
  }

  lemma PlaceWaiting(s: State, r: Request, freshId: Id, x: Id)
    requires Waiting(s, x)
    ensures Waiting(Admit(s, r, freshId).state, x) && Admit(s, r, freshId).state.orders[x] == s.orders[x]
  {
    hide Validate, Reserve;
    var v := Validate(r, OrderId(r, freshId));
    if v.Ok? {
      ReserveBooks(s, v.value);
    }
  }

  lemma CancelWaiting(s: State, id: Id, event: Id, x: Id)
    requires Waiting(s, x) && id != x
    ensures Waiting(Cancel(s, id, event).state, x) && Cancel(s, id, event).state.orders[x] == s.orders[x]
  {
    hide RemoveId;
  }

  /** An admitted order is untouched by every interleaving of other handlers. */
  lemma {:induction false} RunWaiting(s: State, steps: seq<Step>, x: Id)
    requires Wf(s) && IsRun(s, steps) && Waiting(s, x)
    requires forall i :: 0 <= i < |steps| ==> LeavesAlone(steps[i], x)
    ensures Waiting(Run(s, steps), x) && Run(s, steps).orders[x] == s.orders[x]
    ensures Quantity(RunTrades(s, steps), x) == 0
    decreases steps
  {
    hide Wf, Apply, Enabled, TradesIn, Waiting;
    if steps != [] {
      assert LeavesAlone(steps[0], x);
      StepWf(s, steps[0]);
      StepWaiting(s, steps[0], x);
      RunWaiting(Apply(s, steps[0]), steps[1..], x);
      QuantityAppend(TradesIn(s, steps[0]), RunTrades(Apply(s, steps[0]), steps[1..]), x);
    }
  }

  /** What canceling a live order does to the ledger: its lock comes back, nobody else is affected. */
  ghost predicate ReturnsLock(s: State, s': State, o: Order) {
    && (forall user: Id ::
          Get(s'.balances, user) ==
          (var h := Get(s.balances, user);
           Holding(h.available + BuyLock(o, user), h.reserved - BuyLock(o, user))))
    && (forall key: PositionKey ::
          Get(s'.positions, key) ==
          (var h := Get(s.positions, key);
           Holding(h.available + SellLock(o, key), h.reserved - SellLock(o, key))))
  }

  /** What the order has locked is among its user's reserved funds. */
  predicate LockCovered(s: State, o: Order) {
    && (o.terms.side.Buy? ==> Get(s.balances, o.terms.user).reserved >= o.locked)
    && (o.terms.side.Sell? ==> Get(s.positions, KeyOf(o.terms)).reserved >= o.locked)
  }

  /** The reservation invariants cover every order. */
  lemma InvariantCovers(s: State, id: Id)
    requires OrdersOk(s) && id in s.orders
    requires s.orders[id].terms.side.Buy? ==> CashOk(s, [], {})
    requires s.orders[id].terms.side.Sell? ==> SharesOk(s, [], {})
    ensures LockCovered(s, s.orders[id])
  {
    hide Get, OrderOk, BuyOk, SellOk, CashSlack, ShareSlack;
    if s.orders[id].terms.side.Buy? {
      ReservedCashCovers(s, id);
    } else {
      ReservedCovers(s, id);
    }
  }

  lemma CancelReturnsLock(s: State, id: Id)
    requires Wf(s) && id in s.orders && LockCovered(s, s.orders[id])
    requires id != NO_ID && id in s.orders && s.orders[id].Live()
    ensures var c := Cancel(s, id, NO_ID);
            && c.result.Ok? && ReturnsLock(s, c.state, s.orders[id])
            && c.state.orders == s.orders[id := s.orders[id].(status := Canceled, locked := 0)]
  {
    hide QueueOk, Rests, Uncrossed, AccountsOk, RemoveId, Get;
    assert OrderOk(s.orders[id]);
    ReleaseReturns(s, Withdrawn(s, id), id);
  }

  /** A covered release of s' returns the lock to holdings that are those of s. */
  lemma ReleaseReturns(s: State, s': State, id: Id)
    requires id in s.orders && id in s'.orders && s.orders[id].terms == s'.orders[id].terms
    requires s'.balances == s.balances && s'.positions == s.positions && s'.orders[id].locked == s.orders[id].locked >= 0
    requires s.orders[id].terms.side.Buy? ==> Get(s.balances, s.orders[id].terms.user).reserved >= s.orders[id].locked
    requires s.orders[id].terms.side.Sell? ==> Get(s.positions, KeyOf(s.orders[id].terms)).reserved >= s.orders[id].locked
    ensures ReturnsLock(s, Release(s', id), s.orders[id])
    ensures Release(s', id).orders == s'.orders[id := s'.orders[id].(locked := 0)]
  {
    hide Get;
    var o := s.orders[id];
    var b, p := Get(s.balances, o.terms.user), Get(s.positions, KeyOf(o.terms));
    forall user: Id
      ensures Get(Release(s', id).balances, user) == Holding(Get(s.balances, user).available + BuyLock(o, user),
                                                             Get(s.balances, user).reserved - BuyLock(o, user))
    {
      GetSet(s.balances, o.terms.user, Unfreeze(b, o.locked), user);
    }
    forall key: PositionKey
      ensures Get(Release(s', id).positions, key) == Holding(Get(s.positions, key).available + SellLock(o, key),
                                                             Get(s.positions, key).reserved - SellLock(o, key))
    {
      GetSet(s.positions, KeyOf(o.terms), Unfreeze(p, o.locked), key);
    }
    assert s'.orders[id := s'.orders[id]] == s'.orders;
  }

  /** A fresh order waits with exactly the lock it was admitted with. */
  lemma AdmittedWaits(s: State, r: Request, freshId: Id)
    requires Admit(s, r, freshId).Admitted?
    ensures var a := Admit(s, r, freshId);
            Waiting(a.state, OrderId(r, freshId)) && a.state.orders[OrderId(r, freshId)] == a.order && a.order.filled == 0
  {
    hide Validate;
  }

  /**
   Admit an order, let any other handlers run, cancel it, and let any handlers run,
   the one that will try to match it included. The order ends canceled with nothing
   locked, it was never traded, and the cancellation returned the whole lock. A SELL
   needs no budget; a BUY needs its own lock to be covered when it is canceled.
   */
  lemma CanceledInWindow(s: State, r: Request, freshId: Id, before: seq<Step>, after: seq<Step>)
    requires Wf(s) && SharesOk(s, [], {}) && Admit(s, r, freshId).Admitted? && OrderId(r, freshId) != NO_ID
    requires IsRun(Admit(s, r, freshId).state, before)
    requires forall i :: 0 <= i < |before| ==> LeavesAlone(before[i], OrderId(r, freshId))
    requires var s1 := Run(Admit(s, r, freshId).state, before);
             && (r.side == "BUY" ==> Get(s1.balances, r.userId).reserved >= Admit(s, r, freshId).order.locked)
             && IsRun(Cancel(s1, OrderId(r, freshId), NO_ID).state, after)
    requires forall i :: 0 <= i < |after| ==> after[i] != Unpublished(OrderId(r, freshId))
    ensures var x := OrderId(r, freshId);
            var o := Admit(s, r, freshId).order;
            var s1 := Run(Admit(s, r, freshId).state, before);
            var s2 := Cancel(s1, x, NO_ID).state;
            && ReturnsLock(s1, s2, o)
            && Run(s2, after).orders.Keys >= {x}
            && Run(s2, after).orders[x] == o.(status := Canceled, locked := 0)
            && Quantity(RunTrades(Admit(s, r, freshId).state, before), x) == 0
            && Quantity(RunTrades(s2, after), x) == 0
  {
    hide Wf, Admit, Cancel, Run, RunTrades, IsRun, SharesOk, ReturnsLock, Get;
    var x := OrderId(r, freshId);
    var s0 := Admit(s, r, freshId).state;
    AdmitWf(s, r, freshId);
    AdmitShares(s, r, freshId);
    AdmittedWaits(s, r, freshId);
    AdmissionFreezes(s, r, freshId);
    RunWf(s0, before);
    RunShares(s0, before);
    RunWaiting(s0, before, x);
    var s1 := Run(s0, before);
    SellCovered(s1, x);
    CancelReturnsLock(s1, x);
    CancelWf(s1, x, NO_ID);
    FinishedIsFinal(Cancel(s1, x, NO_ID).state, after, x);
  }

  lemma SellCovered(s: State, id: Id)
    requires Wf(s) && id in s.orders
    ensures s.orders[id].terms.side.Sell? && SharesOk(s, [], {}) ==> LockCovered(s, s.orders[id])
  {
    hide QueueOk, Rests, Uncrossed, AccountsOk, SharesOk, OrdersOk;
    if s.orders[id].terms.side.Sell? && SharesOk(s, [], {}) {
      InvariantCovers(s, id);
    }
  }

  /**
   When publishing the canceled order fails after all, dropping it moves no funds and
   leaves none behind: the lock was returned once, by the cancellation.
   */
  lemma DroppedAfterCancel(s: State, after: seq<Step>, x: Id)
    requires Wf(s) && x in s.orders && s.orders[x].status.Canceled? && s.orders[x].locked == 0
    requires IsRun(s, after) && forall i :: 0 <= i < |after| ==> after[i] != Unpublished(x)
    requires x in Run(s, after).inflight
    ensures var last := Run(s, after);
            var dropped := Apply(last, Unpublished(x));
            && x !in dropped.orders && dropped.balances == last.balances && dropped.positions == last.positions
            && (forall user: Id :: LeakedCash(last, Unpublished(x), user) == 0)
            && (forall key: PositionKey :: LeakedShares(last, Unpublished(x), key) == 0)
            && Quantity(RunTrades(s, after), x) == 0
  {
    hide Wf, Run, RunTrades, IsRun;
    FinishedIsFinal(s, after, x);
  }

  /** Admitting and canceling with nothing in between restores every holding. */
  lemma AdmitCancelRestores(s: State, r: Request, freshId: Id)
    requires Wf(s) && Admit(s, r, freshId).Admitted? && OrderId(r, freshId) != NO_ID
    ensures var s' := Cancel(Admit(s, r, freshId).state, OrderId(r, freshId), NO_ID).state;
            && (forall user: Id :: Get(s'.balances, user) == Get(s.balances, user))
            && (forall key: PositionKey :: Get(s'.positions, key) == Get(s.positions, key))
  {
    hide Wf, Admit, Freezes, RemoveId, Release, Get;
    var a, id := Admit(s, r, freshId), OrderId(r, freshId);
    AdmissionFreezes(s, r, freshId);
    AdmitWf(s, r, freshId);
    AdmittedCovered(s, a.state, id);
    ReleaseReturns(a.state, Withdrawn(a.state, id), id);
    FreezeReturned(s, a.state, Release(Withdrawn(a.state, id), id), a.order);
  }

  lemma FreezeReturned(s: State, s1: State, s2: State, o: Order)
    requires Freezes(s, s1, o) && ReturnsLock(s1, s2, o)
    ensures forall user: Id :: Get(s2.balances, user) == Get(s.balances, user)
    ensures forall key: PositionKey :: Get(s2.positions, key) == Get(s.positions, key)
  {
    hide Get, BuyLock, SellLock;
  }

  /** What was just frozen is there to be returned. */
  lemma AdmittedCovered(s: State, s1: State, id: Id)
    requires Wf(s) && Wf(s1) && id in s1.orders && Freezes(s, s1, s1.orders[id])
    ensures var o := s1.orders[id];
            && o.locked >= 0 && o.terms.event in s1.markets
            && (o.terms.side.Buy? ==> Get(s1.balances, o.terms.user).reserved >= o.locked)
            && (o.terms.side.Sell? ==> Get(s1.positions, KeyOf(o.terms)).reserved >= o.locked)
  {
    hide QueueOk, Rests, Uncrossed, Get;
    var o := s1.orders[id];
    assert OrderOk(o);
    assert Get(s.balances, o.terms.user).Solvent();
    assert Get(s.positions, KeyOf(o.terms)).Solvent();
  }
}
