/**
 The life of one order over a run: its filled quantity is the sum of its trades,
 nobody trades with themselves, and FILLED and CANCELED are final.
 */
module Lifecycle {
  import opened Types
  import opened Matching
  import opened EngineState
  import opened Invariant
  import opened StepInvariant
  import opened MatchInvariant
  import opened Shares
  import opened Runs

  lemma {:induction false} QuantityAppend(a: seq<Trade>, b: seq<Trade>, id: Id)
    ensures Quantity(a + b, id) == Quantity(a, id) + Quantity(b, id)
  {
    if a == [] {
      assert a + b == b;
    } else {
      assert (a + b)[1..] == a[1..] + b;
      QuantityAppend(a[1..], b, id);
    }
  }

  lemma {:induction false} QuantityOfUnnamed(trades: seq<Trade>, id: Id)
    requires forall i :: 0 <= i < |trades| ==> !trades[i].Names(id)
    ensures Quantity(trades, id) == 0
  {
    if trades != [] {
      QuantityOfUnnamed(trades[1..], id);
    }
  }

  /** The order book agrees with a trade history. */
  ghost predicate History(s: State, trades: seq<Trade>) {
    forall id: Id :: Quantity(trades, id) == (if id in s.orders then s.orders[id].filled else 0)
  }

  /** An order nobody traded is not named by the trades of a match. */
  lemma MatchNames(s: State, id: Id, x: Id)
    requires Ready(s, id) && x !in s.orders
    ensures Quantity(TradesOf(s, id), x) == 0
  {
    hide TradesOf, MatchLoop;
    var t := s.orders[id].terms;
    assert QueueOk(s, t.event, t.outcome, t.side.Opposite());
    forall i | 0 <= i < |TradesOf(s, id)| ensures !TradesOf(s, id)[i].Names(x) {
      TradeSound(s, id, i);
      QueueMember(s, t.event, t.outcome, t.side.Opposite(), TradesOf(s, id)[i].maker);
    }
    QuantityOfUnnamed(TradesOf(s, id), x);
  }

  /** Matching adds to each order's fill exactly what its trades moved. */
  lemma MatchFills(s: State, id: Id, x: Id)
    requires Wf(s) && id in s.inflight && Matchable(s, id) && Keyed(s.orders)
    ensures Match(s, id).orders.Keys == s.orders.Keys
    ensures if x in s.orders then Match(s, id).orders[x].filled == s.orders[x].filled + Quantity(TradesOf(s, id), x)
            else Quantity(TradesOf(s, id), x) == 0
  {
    hide MatchLoop, Traded, QueueOk, Rests, Uncrossed, AccountsOk, Settle, Release, OrderOk;
    MatchTerms(s, id, x);
    if s.orders[id].status.Pending? {
      IsReady(s, id);
      if x in s.orders {
        var s1 := Traded(s, id);
        TradedWf(s, id);
        TradedQuantity(s, id, x);
        SettleAllSameButLocks(s1, TradesOf(s, id));
        var s2 := SettleAll(s1, TradesOf(s, id));
        ReleaseSameButLocks(s2, id);
        assert Bare(s2.orders[x]) == Bare(s1.orders[x]);
      } else {
        MatchNames(s, id, x);
      }
    }
  }

  lemma StepHistory(s: State, step: Step, trades: seq<Trade>)
    requires Wf(s) && Enabled(s, step) && History(s, trades)
    ensures History(Apply(s, step), trades + TradesIn(s, step))
  {
    hide Match, QueueOk, Rests, Uncrossed, AccountsOk, Matchable, Withdrawn, TradesOf;
    var s' := Apply(s, step);
    forall x: Id
      ensures Quantity(trades + TradesIn(s, step), x) == (if x in s'.orders then s'.orders[x].filled else 0)
    {
      QuantityAppend(trades, TradesIn(s, step), x);
      if step.MatchNow? {
        MatchFills(s, step.order, x);
      } else if step.Place? {
        ReserveBooksAny(s, step.request, step.freshId);
      } else if step.Withdraw? {
        CancelFills(s, step.order, step.event, x);
      }
    }
  }

  lemma CancelFills(s: State, id: Id, event: Id, x: Id)
    ensures var s' := Cancel(s, id, event).state;
            && (x in s'.orders <==> x in s.orders)
            && (x in s.orders ==> s'.orders[x].filled == s.orders[x].filled)
  {
    hide RemoveId;
  }

  /** Over every run, an order's filled quantity is the sum of all trades naming it. */
  lemma {:induction false} RunHistory(s: State, steps: seq<Step>, trades: seq<Trade>)
    requires Wf(s) && IsRun(s, steps) && History(s, trades)
    ensures History(Run(s, steps), trades + RunTrades(s, steps))
    decreases steps
  {
    hide Wf, Apply, Enabled, TradesIn, History;
    if steps == [] {
      assert trades + [] == trades;
    } else {
      StepWf(s, steps[0]);
      StepHistory(s, steps[0], trades);
      var s1 := Apply(s, steps[0]);
      RunHistory(s1, steps[1..], trades + TradesIn(s, steps[0]));
      assert trades + RunTrades(s, steps) == trades + TradesIn(s, steps[0]) + RunTrades(s1, steps[1..]);
    }
  }

  /** No trade of any run has the same user on both sides, and every trade moves a positive quantity. */
  lemma {:induction false} NoSelfTrade(s: State, steps: seq<Step>, i: nat)
    requires Wf(s) && IsRun(s, steps) && i < |RunTrades(s, steps)|
    ensures var t := RunTrades(s, steps)[i];
            t.buyer != t.seller && t.quantity > 0 && t.price > 0 && t.taker != t.maker
    decreases steps
  {
    hide Wf, Apply, Enabled, TradesOf, Matchable;
    var n := |TradesIn(s, steps[0])|;
    if i < n {
      MatchNowSound(s, steps[0].order, i);
    } else {
      StepWf(s, steps[0]);
      NoSelfTrade(Apply(s, steps[0]), steps[1..], i - n);
    }
  }

  lemma MatchNowSound(s: State, id: Id, i: nat)
    requires Wf(s) && Enabled(s, MatchNow(id)) && i < |TradesOf(s, id)|
    ensures Sound(TradesOf(s, id)[i])
  {
    hide MatchLoop, QueueOk, Rests, Uncrossed, AccountsOk;
    IsReady(s, id);
    TradeSound(s, id, i);
  }

  // ---------------------------------------------------------------------
  // Final statuses
  // ---------------------------------------------------------------------

  lemma UnlockOther(orders: Orders, id: Id, t: Trade, x: Id)
    requires x in orders && x != id
    ensures Unlock(orders, id, t)[x] == orders[x]
  {
  }

  lemma {:induction false} SettleAllOther(s: State, trades: seq<Trade>, x: Id)
    requires x in s.orders && forall i :: 0 <= i < |trades| ==> !trades[i].Names(x)
    ensures SettleAll(s, trades).orders[x] == s.orders[x]
    decreases trades
  {
    if trades != [] {
      UnlockOther(s.orders, trades[0].taker, trades[0], x);
      UnlockOther(Unlock(s.orders, trades[0].taker, trades[0]), trades[0].maker, trades[0], x);
      SettleAllOther(Settle(s, trades[0]), trades[1..], x);
    }
  }

  /** A finished order is not named by any trade of a match. */
  lemma FinishedUnnamed(s: State, id: Id, x: Id)
    requires Ready(s, id) && x in s.orders && !s.orders[x].Live()
    ensures x != id && x !in Facing(s, s.orders[id].terms)
    ensures forall i :: 0 <= i < |TradesOf(s, id)| ==> !TradesOf(s, id)[i].Names(x)
  {
    hide TradesOf, MatchLoop;
    var t := s.orders[id].terms;
    assert QueueOk(s, t.event, t.outcome, t.side.Opposite());
    if x in Facing(s, t) {
      QueueMember(s, t.event, t.outcome, t.side.Opposite(), x);
    }
    forall i | 0 <= i < |TradesOf(s, id)| ensures !TradesOf(s, id)[i].Names(x) {
      TradeSound(s, id, i);
    }
  }

  lemma MatchFinished(s: State, id: Id, x: Id)
    requires Wf(s) && Enabled(s, MatchNow(id)) && x in s.orders && !s.orders[x].Live()
    ensures x in Match(s, id).orders && Match(s, id).orders[x] == s.orders[x]
    ensures Quantity(TradesOf(s, id), x) == 0
  {
    hide MatchLoop, Traded, QueueOk, Rests, Uncrossed, AccountsOk, Settle;
    MatchTerms(s, id, x);
    if s.orders[id].status.Pending? {
      IsReady(s, id);
      FinishedUnnamed(s, id, x);
      TradedOther(s, id, x);
      SettleAllOther(Traded(s, id), TradesOf(s, id), x);
      QuantityOfUnnamed(TradesOf(s, id), x);
    }
  }

  /** No step changes a filled or canceled order, except a failed publication that forgets it. */
  lemma StepFinished(s: State, step: Step, x: Id)
    requires Wf(s) && Enabled(s, step) && x in s.orders && !s.orders[x].Live() && step != Unpublished(x)
    ensures x in Apply(s, step).orders && Apply(s, step).orders[x] == s.orders[x]
    ensures Quantity(TradesIn(s, step), x) == 0
  {
    hide Match, QueueOk, Rests, Uncrossed, AccountsOk, Matchable, TradesOf;
    if step.MatchNow? {
      MatchFinished(s, step.order, x);
    } else if step.Place? {
      ReserveBooksAny(s, step.request, step.freshId);
    } else if step.Withdraw? {
      CancelFinished(s, step.order, step.event, x);
    }
  }

  lemma CancelFinished(s: State, id: Id, event: Id, x: Id)
    requires OrdersOk(s) && x in s.orders && !s.orders[x].Live()
    ensures var s' := Cancel(s, id, event).state;
            x in s'.orders && s'.orders[x] == s.orders[x]
  {
    hide RemoveId;
    assert OrderOk(s.orders[x]);
  }

  /**
   A filled or canceled order never changes again, and no later trade names it, in
   any run that does not contain the failed publication of that very order.
   */
  lemma {:induction false} FinishedIsFinal(s: State, steps: seq<Step>, x: Id)
    requires Wf(s) && IsRun(s, steps) && x in s.orders && !s.orders[x].Live()
    requires forall i :: 0 <= i < |steps| ==> steps[i] != Unpublished(x)
    ensures x in Run(s, steps).orders && Run(s, steps).orders[x] == s.orders[x]
    ensures Quantity(RunTrades(s, steps), x) == 0
    decreases steps
  {
    hide Wf, Apply, Enabled, TradesIn;
    if steps != [] {
      StepWf(s, steps[0]);
      StepFinished(s, steps[0], x);
      FinishedIsFinal(Apply(s, steps[0]), steps[1..], x);
      QuantityAppend(TradesIn(s, steps[0]), RunTrades(Apply(s, steps[0]), steps[1..]), x);
    }
  }
}
