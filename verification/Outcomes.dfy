/**
 The outcome of one command, said without the code's own steps: exactly when an
 order is admitted and what it locks, where it stands after matching, and exactly
 when a cancellation succeeds.
 */
module Outcomes {
  import opened Types
  import opened Matching
  import opened EngineState
  import opened Invariant
  import opened StepInvariant
  import opened MatchInvariant
  import opened Shares
  import opened Cash

  function AskedKey(r: Request): PositionKey {
    PositionKey(r.userId, r.eventId, if r.outcome == "YES" then Yes else No)
  }

  /** What the request asks the ledger to freeze. */
  function Demand(s: State, r: Request): int {
    if r.side == "SELL" then r.quantity
    else if r.orderType == "MARKET" then Get(s.balances, r.userId).available
    else r.quantity * r.price
  }

  predicate Affordable(s: State, r: Request) {
    Demand(s, r) <= (if r.side == "SELL" then Get(s.positions, AskedKey(r)).available else Get(s.balances, r.userId).available)
  }

  lemma ValidTerms(r: Request, id: Id)
    requires WellFormed(r)
    ensures var t := Validate(r, id).value;
            KeyOf(t) == AskedKey(r) && (t.side.Sell? <==> r.side == "SELL") && (t.kind.Market? <==> r.orderType == "MARKET")
  {
  }

  /** An order is admitted if and only if it is well formed, new, for a known event, and affordable. */
  lemma AdmittedExactlyWhen(s: State, r: Request, freshId: Id)
    ensures Admit(s, r, freshId).Admitted? <==>
              && WellFormed(r) && OrderId(r, freshId) !in s.orders && r.eventId in s.markets && Affordable(s, r)
    ensures Admit(s, r, freshId).Existing? <==> WellFormed(r) && OrderId(r, freshId) in s.orders
    ensures Admit(s, r, freshId).Existing? ==> Admit(s, r, freshId).status == s.orders[OrderId(r, freshId)].status
  {
    hide Validate, WellFormed, AskedKey, Get;
    if WellFormed(r) {
      ValidTerms(r, OrderId(r, freshId));
    }
  }

  /** Only the requesting user's holding of what the order spends moves, from available to reserved. */
  ghost predicate Freezes(s: State, s': State, o: Order) {
    && (forall user: Id ::
          Get(s'.balances, user) ==
          Holding(Get(s.balances, user).available - BuyLock(o, user), Get(s.balances, user).reserved + BuyLock(o, user)))
    && (forall key: PositionKey ::
          Get(s'.positions, key) ==
          Holding(Get(s.positions, key).available - SellLock(o, key), Get(s.positions, key).reserved + SellLock(o, key)))
  }

  /** An admitted order is pending and unfilled, and exactly its demand is frozen. */
  lemma AdmissionFreezes(s: State, r: Request, freshId: Id)
    requires Admit(s, r, freshId).Admitted?
    ensures var a := Admit(s, r, freshId);
            && a.order.status.Pending? && a.order.filled == 0 && a.order.remaining == r.quantity
            && Carries(a.order.terms, r)
            && a.order.locked == Demand(s, r)
            && Freezes(s, a.state, a.order)
            && a.state.orders == s.orders[OrderId(r, freshId) := a.order] && a.state.markets == s.markets
  {
    hide Validate, WellFormed, AskedKey;
    if WellFormed(r) {
      ValidTerms(r, OrderId(r, freshId));
    }
  }

  /** A refused or repeated order changes no holding, no order and no book. */
  lemma RefusalChangesNothing(s: State, r: Request, freshId: Id)
    requires !Admit(s, r, freshId).Admitted?
    ensures var s' := Admit(s, r, freshId).state;
            && (forall user: Id :: Get(s'.balances, user) == Get(s.balances, user))
            && (forall key: PositionKey :: Get(s'.positions, key) == Get(s.positions, key))
            && s'.orders == s.orders && s'.markets == s.markets
  {
    hide Validate;
  }

  /**
   After matching, an order is filled exactly when nothing remains. What remains of a
   limit order rests, behind everything that arrived before; a market order never rests.
   */
  lemma MatchOutcome(s: State, id: Id)
    requires Ready(s, id)
    ensures id in Match(s, id).orders
    ensures var s' := Match(s, id);
            var o := s'.orders[id];
            && (o.status.Filled? <==> o.remaining == 0)
            && (o.status.Canceled? <==> o.remaining > 0 && o.terms.kind.Market?)
            && (o.status.Partial? <==> o.remaining > 0 && o.terms.kind.Limit? && o.filled > 0)
            && (id in Beside(s', o.terms) <==> o.remaining > 0 && o.terms.kind.Limit?)
            && s'.arrival == (if o.Live() then s.arrival[id := s.clock] else s.arrival)
            && (!o.Live() ==> o.locked == 0)
  {
    hide MatchLoop, Traded, TradesOf, Settle, QueueOk, Rests, Uncrossed, AccountsOk, OrderOk, Release, Resting;
    var s1, trades := Traded(s, id), TradesOf(s, id);
    TradedFields(s, id);
    TradedWf(s, id);
    SettleAllSameButLocks(s1, trades);
    var s2 := SettleAll(s1, trades);
    ReleaseSameButLocks(s2, id);
    assert Bare(s2.orders[id]) == Bare(s1.orders[id]);
    ReleaseEmpties(s2, id);
    TradedStanding(s, id);
    SameBooks(s1, Match(s, id), s1.orders[id].terms);
  }

  lemma ReleaseEmpties(s: State, id: Id)
    requires id in s.orders && s.orders[id].locked >= 0
    ensures id in Release(s, id).orders && Release(s, id).orders[id].locked == 0
    ensures Bare(Release(s, id).orders[id]) == Bare(s.orders[id])
  {
  }

  lemma SameBooks(s: State, s': State, t: Terms)
    requires s'.markets == s.markets
    ensures Beside(s', t) == Beside(s, t)
  {
  }

  lemma TradedStanding(s: State, id: Id)
    requires Ready(s, id)
    ensures var o := Traded(s, id).orders[id];
            && (o.status.Filled? <==> o.remaining == 0)
            && (o.status.Canceled? <==> o.remaining > 0 && o.terms.kind.Market?)
            && (o.status.Partial? <==> o.remaining > 0 && o.terms.kind.Limit? && o.filled > 0)
            && (id in Beside(Traded(s, id), o.terms) <==> o.remaining > 0 && o.terms.kind.Limit?)
  {
    hide MatchLoop, Traded, QueueOk, Rests, Uncrossed, AccountsOk;
    TradedFields(s, id);
    TradedOrder(s, id, id);
    TradedBeside(s, id);
    FacingReady(s, id);
  }

  /** A cancellation succeeds if and only if the order is known, of the given event, and live; a failed one changes nothing. */
  lemma CanceledExactlyWhen(s: State, id: Id, event: Id)
    requires Wf(s)
    ensures Cancel(s, id, event).result.Ok? <==>
              id != NO_ID && id in s.orders && (event == NO_ID || s.orders[id].terms.event == event) && s.orders[id].Live()
    ensures Cancel(s, id, event).result.Err? ==> Cancel(s, id, event).state == s
  {
    hide QueueOk, Rests, Uncrossed, AccountsOk, Withdrawn, Release;
    if id in s.orders {
      assert OrderOk(s.orders[id]);
    }
  }
}
