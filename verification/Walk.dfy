/**
 The cost of an order read off the book beforehand: walk the facing queue, skip what
 cannot trade with the order, and buy from each of the others in turn until the
 quantity is reached. It is what the match loop then spends.
 */
module Walk {
  import opened Types
  import opened Matching
  import opened EngineState
  import opened Invariant
  import opened MatchInvariant
  import opened Cash

  /** What n more shares cost, from the front of a queue. */
  function WalkCost(orders: Orders, queue: seq<Id>, inc: Id, n: int): int
    requires inc in orders && Known(orders, queue)
    decreases queue
  {
    if queue == [] || n <= 0 then 0
    else if !Eligible(orders, queue[0], inc) then WalkCost(orders, queue[1..], inc, n)
    else
      var bought := Min(n, orders[queue[0]].remaining);
      bought * orders[queue[0]].terms.price + WalkCost(orders, queue[1..], inc, n - bought)
  }

  /** What matching an order will cost, before it is matched. */
  function CostOfWalking(s: State, id: Id): int
    requires Matchable(s, id)
  {
    WalkCost(s.orders, Facing(s, s.orders[id].terms), id, s.orders[id].remaining)
  }

  lemma {:induction false} WalkSkips(orders: Orders, front: seq<Id>, rest: seq<Id>, inc: Id, n: int)
    requires inc in orders && Known(orders, front) && Known(orders, rest) && Known(orders, front + rest)
    requires forall i :: 0 <= i < |front| ==> !Eligible(orders, front[i], inc)
    ensures WalkCost(orders, front + rest, inc, n) == WalkCost(orders, rest, inc, n)
    decreases front
  {
    hide Eligible;
    if front == [] {
      assert front + rest == rest;
    } else {
      assert (front + rest)[0] == front[0] && (front + rest)[1..] == front[1..] + rest;
      WalkSkips(orders, front[1..], rest, inc, n);
      if n <= 0 {
        WalkOfNothing(orders, front + rest, inc, n);
        WalkOfNothing(orders, rest, inc, n);
      }
    }
  }

  lemma WalkOfNothing(orders: Orders, queue: seq<Id>, inc: Id, n: int)
    requires inc in orders && Known(orders, queue) && n <= 0
    ensures WalkCost(orders, queue, inc, n) == 0
  {
  }

  /** The walk only looks at the orders in the queue and at the terms of the incoming one. */
  lemma {:induction false} WalkAgrees(orders: Orders, orders': Orders, queue: seq<Id>, inc: Id, n: int)
    requires inc in orders && inc in orders' && orders'[inc].terms == orders[inc].terms
    requires Known(orders, queue) && Known(orders', queue)
    requires forall i :: 0 <= i < |queue| ==> orders'[queue[i]] == orders[queue[i]]
    ensures WalkCost(orders', queue, inc, n) == WalkCost(orders, queue, inc, n)
    decreases queue
  {
    if queue != [] && n > 0 {
      assert orders'[queue[0]] == orders[queue[0]];
      WalkAgrees(orders, orders', queue[1..], inc, n);
      WalkAgrees(orders, orders', queue[1..], inc, n - Min(n, orders[queue[0]].remaining));
    }
  }

  /** Where a round found its maker, and what it left of the queue. */
  lemma PairPosition(orders: Orders, queue: seq<Id>, inc: Id, next: nat) returns (d: nat, k: nat)
    requires inc in orders && Known(orders, queue) && TryPair(orders, queue, inc, next).Pair?
    ensures d <= k < |queue| && queue[k] == TryPair(orders, queue, inc, next).maker
    ensures forall j :: 0 <= j < k ==> !Eligible(orders, queue[j], inc)
    ensures var a := TryPair(orders, queue, inc, next);
            a.queue == (if a.orders[a.maker].remaining <= 0 then queue[d..k] + queue[k + 1..] else queue[d..])
  {
    hide DropStale, FirstEligible;
    var live := DropStale(orders, queue);
    var i := FirstEligible(orders, live, inc);
    d, k := |queue| - |live|, |queue| - |live| + i;
    forall j | 0 <= j < k ensures !Eligible(orders, queue[j], inc) {
      if j >= d {
        assert live[j - d] == queue[j];
      }
    }
    assert RemoveAt(live, i) == queue[d..k] + queue[k + 1..];
  }

  lemma DistinctPart(queue: seq<Id>, d: nat, k: nat)
    requires Distinct(queue) && d <= k < |queue|
    ensures Distinct(queue[d..]) && Distinct(queue[d..k] + queue[k + 1..])
  {
    var part := queue[d..k] + queue[k + 1..];
    forall i, j | 0 <= i < j < |part| ensures part[i] != part[j] {
      assert part[i] == queue[if i < k - d then d + i else d + i + 1];
      assert part[j] == queue[if j < k - d then d + j else d + j + 1];
    }
  }

  /** A round spends on its maker, and the walk goes on behind it. */
  lemma PairWalks(orders: Orders, queue: seq<Id>, inc: Id, next: nat)
    requires inc in orders && Known(orders, queue) && Keyed(orders) && Distinct(queue) && inc !in queue
    requires TryPair(orders, queue, inc, next).Pair?
    ensures var a := TryPair(orders, queue, inc, next);
            && Distinct(a.queue) && inc !in a.queue && Known(a.orders, a.queue) && inc in a.orders
            && WalkCost(orders, queue, inc, orders[inc].remaining)
               == a.trade.Cost() + WalkCost(a.orders, a.queue, inc, a.orders[inc].remaining)
  {
    hide TryPair, Eligible;
    var a := TryPair(orders, queue, inc, next);
    var n := orders[inc].remaining;
    PairEffect(orders, queue, inc, next);
    var d, k := PairPosition(orders, queue, inc, next);
    DistinctPart(queue, d, k);
    var front, rest := queue[..k], queue[k + 1..];
    assert queue == front + ([queue[k]] + rest);
    WalkSkips(orders, front, [queue[k]] + rest, inc, n);
    assert ([queue[k]] + rest)[1..] == rest;
    assert WalkCost(orders, [queue[k]] + rest, inc, n) == a.trade.Cost() + WalkCost(orders, rest, inc, n - a.trade.quantity);
    assert a.orders[inc].remaining == n - a.trade.quantity;
    if a.orders[a.maker].remaining <= 0 {
      var kept := queue[d..k];
      forall i | 0 <= i < |kept| ensures kept[i] in a.orders && a.orders[kept[i]] == orders[kept[i]] && !Eligible(a.orders, kept[i], inc) {
        assert kept[i] == queue[d + i];
        SameEligible(orders, a.orders, kept[i], inc);
      }
      assert Known(a.orders, kept + rest);
      WalkSkips(a.orders, kept, rest, inc, n - a.trade.quantity);
      forall i | 0 <= i < |rest| ensures a.orders[rest[i]] == orders[rest[i]] {
        assert rest[i] == queue[k + 1 + i];
      }
      WalkAgrees(orders, a.orders, rest, inc, n - a.trade.quantity);
    } else {
      WalkOfNothing(orders, rest, inc, n - a.trade.quantity);
      WalkOfNothing(a.orders, a.queue, inc, n - a.trade.quantity);
    }
  }

  lemma SameEligible(orders: Orders, orders': Orders, r: Id, inc: Id)
    requires r in orders && r in orders' && inc in orders && inc in orders'
    requires orders'[r] == orders[r] && orders'[inc].terms == orders[inc].terms
    ensures Eligible(orders', r, inc) <==> Eligible(orders, r, inc)
  {
  }

  /** When the loop stops short, nothing in the queue could trade, so the walk costs nothing more. */
  lemma StopWalks(orders: Orders, queue: seq<Id>, inc: Id, next: nat)
    requires inc in orders && Known(orders, queue) && TryPair(orders, queue, inc, next).Stop?
    ensures WalkCost(orders, queue, inc, orders[inc].remaining) == 0
  {
    hide TryPair, Eligible, WalkCost;
    if orders[inc].remaining > 0 {
      forall i | 0 <= i < |queue| ensures !Eligible(orders, queue[i], inc) {
        StopMeetsNone(orders, queue, inc, next, i);
      }
      assert queue + [] == queue;
      WalkSkips(orders, queue, [], inc, orders[inc].remaining);
      WalkOfEmpty(orders, inc, orders[inc].remaining);
    } else {
      WalkOfNothing(orders, queue, inc, orders[inc].remaining);
    }
  }

  lemma WalkOfEmpty(orders: Orders, inc: Id, n: int)
    requires inc in orders
    ensures WalkCost(orders, [], inc, n) == 0
  {
  }

  lemma StopMeetsNone(orders: Orders, queue: seq<Id>, inc: Id, next: nat, i: nat)
    requires inc in orders && Known(orders, queue) && TryPair(orders, queue, inc, next).Stop?
    requires orders[inc].remaining > 0 && i < |queue|
    ensures !Eligible(orders, queue[i], inc)
  {
    hide DropStale, FirstEligible, CanMatch;
    var live := DropStale(orders, queue);
    var d := |queue| - |live|;
    if i < d {
      assert Stale(orders[queue[i]]);
    } else {
      assert live[i - d] == queue[i];
    }
  }

  /** The match loop of a BUY spends what the walk foretells. */
  lemma {:induction false} LoopSpendsWalk(orders: Orders, queue: seq<Id>, inc: Id, next: nat)
    requires inc in orders && Known(orders, queue) && Keyed(orders) && Distinct(queue) && inc !in queue
    requires orders[inc].terms.side.Buy?
    ensures Spend(MatchLoop(orders, queue, inc, next).trades, inc) == WalkCost(orders, queue, inc, orders[inc].remaining)
    decreases Clamp(orders[inc].remaining)
  {
    hide TryPair, WalkCost;
    var a := TryPair(orders, queue, inc, next);
    if a.Pair? {
      PairEffect(orders, queue, inc, next);
      PairShifts(orders, queue, inc, next, inc);
      PairWalks(orders, queue, inc, next);
      LoopSpendsWalk(a.orders, a.queue, inc, next + 1);
      SpendFirst(a.trade, MatchLoop(a.orders, a.queue, inc, next + 1).trades, inc);
    } else {
      StopWalks(orders, queue, inc, next);
    }
  }

  /** Before a BUY is matched, its cost can be read off the book. */
  lemma SpendIsWalk(s: State, id: Id)
    requires Ready(s, id) && s.orders[id].terms.side.Buy?
    ensures Spend(TradesOf(s, id), id) == CostOfWalking(s, id)
  {
    hide MatchLoop, WalkCost, QueueOk, Rests, Uncrossed, AccountsOk;
    FacingReady(s, id);
    FacingDistinct(s, id);
    LoopSpendsWalk(s.orders, Facing(s, s.orders[id].terms), id, s.nextTrade);
  }

  lemma FacingDistinct(s: State, id: Id)
    requires Ready(s, id)
    ensures Distinct(Facing(s, s.orders[id].terms))
  {
    hide Rests, Uncrossed, AccountsOk;
    FacingReady(s, id);
    var t := s.orders[id].terms;
    var queue := Facing(s, t);
    forall i, j | 0 <= i < j < |queue| ensures queue[i] != queue[j] {
      assert Before(s.orders, s.arrival, t.side.Opposite(), queue[i], queue[j]);
    }
  }

  /** A market BUY is in budget if and only if walking the book costs at most its lock. */
  lemma InBudgetExactlyWhen(s: State, id: Id)
    requires Ready(s, id) && s.orders[id].terms.side.Buy? && s.orders[id].terms.kind.Market?
    ensures InBudget(s, id) <==> CostOfWalking(s, id) <= s.orders[id].locked
  {
    hide TradesOf, CostOfWalking;
    SpendIsWalk(s, id);
  }
}
