/**
 The match loop against an independent statement of what it is for: repeatedly
 trade with the best-priced, earliest-arrived order that can trade. The rule is
 stated over a set of candidates, so it knows nothing about queues or sorting.
 */
module PriceTime {
  import opened Types
  import opened Matching
  import Sums

  /** r has price-time priority over every other candidate that can trade with inc. */
  ghost predicate IsBest(orders: Orders, arrival: map<Id, nat>, pool: set<Id>, inc: Id, r: Id)
    requires inc in orders
  {
    && r in pool && r in orders && Eligible(orders, r, inc)
    && forall x | x in pool && x in orders && x != r && Eligible(orders, x, inc) ::
         Before(orders, arrival, orders[inc].terms.side.Opposite(), r, x)
  }

  datatype Result = Result(orders: Orders, trades: seq<Trade>)

  /** The greedy rule. */
  ghost function Greedy(orders: Orders, arrival: map<Id, nat>, pool: set<Id>, inc: Id, next: nat): Result
    requires inc in orders
    decreases Clamp(orders[inc].remaining)
  {
    if orders[inc].remaining > 0 && exists r :: IsBest(orders, arrival, pool, inc, r) then
      var r :| IsBest(orders, arrival, pool, inc, r);
      var n := Min(orders[inc].remaining, orders[r].remaining);
      var g := Greedy(orders[inc := FillTaker(orders[inc], n)][r := FillMaker(orders[r], n)],
                      arrival, pool, inc, next + 1);
      Result(g.orders, [BuildTrade(orders[inc].terms, orders[r].terms, n, next)] + g.trades)
    else
      Result(orders, [])
  }

  /** The queue is a priority-ordered part of the pool that holds everything tradable in it. */
  ghost predicate Covers(orders: Orders, arrival: map<Id, nat>, pool: set<Id>, queue: seq<Id>, inc: Id) {
    && inc in orders && Known(orders, queue) && Keyed(orders)
    && Prioritized(orders, arrival, orders[inc].terms.side.Opposite(), queue)
    && (forall i :: 0 <= i < |queue| ==> queue[i] in pool)
    && (forall x | x in pool && x in orders && Eligible(orders, x, inc) :: x in queue)
  }

  /** In a priority-ordered queue, what is not ahead of a position is behind it. */
  lemma NotAheadIsBehind(
      orders: Orders, arrival: map<Id, nat>, side: Side, queue: seq<Id>, d: nat, i: nat, x: Id)
    requires Prioritized(orders, arrival, side, queue)
    requires d + i < |queue| && x in queue[d..]
    requires forall j :: 0 <= j < i ==> queue[d..][j] != x
    ensures x == queue[d + i] || Before(orders, arrival, side, queue[d + i], x)
  {
    var j :| 0 <= j < |queue[d..]| && queue[d..][j] == x;
    assert queue[d + j] == x;
  }

  /** A tradable order of the pool sits behind the chosen position. */
  lemma FirstIsBefore(
      orders: Orders, arrival: map<Id, nat>, pool: set<Id>, queue: seq<Id>, inc: Id, next: nat, x: Id)
    requires Covers(orders, arrival, pool, queue, inc)
    requires TryPair(orders, queue, inc, next).Pair?
    requires x in pool && x in orders && Eligible(orders, x, inc)
    ensures var r := TryPair(orders, queue, inc, next).maker;
            x == r || Before(orders, arrival, orders[inc].terms.side.Opposite(), r, x)
  {
    hide DropStale, FirstEligible, Prioritized, Before, Keyed, CanMatch;
    var live := DropStale(orders, queue);
    DropStaleMember(orders, queue, x);
    NotAheadIsBehind(orders, arrival, orders[inc].terms.side.Opposite(), queue,
                     |queue| - |live|, FirstEligible(orders, live, inc), x);
  }

  /** A round keeps the queue covering the pool. */
  lemma PairCovers(
      orders: Orders, arrival: map<Id, nat>, pool: set<Id>, queue: seq<Id>, inc: Id, next: nat)
    requires Covers(orders, arrival, pool, queue, inc)
    requires TryPair(orders, queue, inc, next).Pair?
    ensures var a := TryPair(orders, queue, inc, next);
            Covers(a.orders, arrival, pool, a.queue, inc)
  {
    hide TryPair, DropStale, FirstEligible;
    var a := TryPair(orders, queue, inc, next);
    PairShifts(orders, queue, inc, next, inc);
    PairPrioritized(orders, arrival, orders[inc].terms.side.Opposite(), queue, inc, next);
    forall x | x in a.queue
      ensures x in pool
    {
      PairMember(orders, queue, inc, next, x);
    }
    forall x | x in pool && x in a.orders && Eligible(a.orders, x, inc)
      ensures x in a.queue
    {
      EligibleBefore(orders, queue, inc, next, x);
      PairMember(orders, queue, inc, next, x);
    }
  }

  /** What can trade after a round could trade before it. */
  lemma EligibleBefore(orders: Orders, queue: seq<Id>, inc: Id, next: nat, x: Id)
    requires inc in orders && Known(orders, queue) && Keyed(orders)
    requires TryPair(orders, queue, inc, next).Pair?
    requires x in TryPair(orders, queue, inc, next).orders
    requires Eligible(TryPair(orders, queue, inc, next).orders, x, inc)
    ensures x in orders && Eligible(orders, x, inc)
  {
    hide TryPair, DropStale, FirstEligible;
    PairEffect(orders, queue, inc, next);
  }

  /** The loop pairs with the best candidate. */
  lemma ChoosesBest(
      orders: Orders, arrival: map<Id, nat>, pool: set<Id>, queue: seq<Id>, inc: Id, next: nat)
    requires Covers(orders, arrival, pool, queue, inc)
    requires TryPair(orders, queue, inc, next).Pair?
    ensures IsBest(orders, arrival, pool, inc, TryPair(orders, queue, inc, next).maker)
  {
    hide TryPair, DropStale, FirstEligible;
    var r := TryPair(orders, queue, inc, next).maker;
    PairEffect(orders, queue, inc, next);
    forall x | x in pool && x in orders && x != r && Eligible(orders, x, inc)
      ensures Before(orders, arrival, orders[inc].terms.side.Opposite(), r, x)
    {
      FirstIsBefore(orders, arrival, pool, queue, inc, next, x);
    }
  }

  /** There is at most one best candidate. */
  lemma BestIsUnique(orders: Orders, arrival: map<Id, nat>, pool: set<Id>, inc: Id, r: Id, x: Id)
    requires inc in orders
    requires IsBest(orders, arrival, pool, inc, r) && IsBest(orders, arrival, pool, inc, x)
    ensures r == x
  {
  }

  /** When the loop stops short, there is no candidate left. */
  lemma StopsWithoutBest(
      orders: Orders, arrival: map<Id, nat>, pool: set<Id>, queue: seq<Id>, inc: Id, next: nat, r: Id)
    requires Covers(orders, arrival, pool, queue, inc) && orders[inc].remaining > 0
    requires TryPair(orders, queue, inc, next).Stop?
    ensures !(r in pool && r in orders && Eligible(orders, r, inc))
  {
    if r in pool && r in orders && Eligible(orders, r, inc) {
      DropStaleMember(orders, queue, r);
    }
  }

  /** The loop and the greedy rule produce the same trades and the same orders. */
  lemma {:induction false} MatchIsGreedy(
      orders: Orders, arrival: map<Id, nat>, pool: set<Id>, queue: seq<Id>, inc: Id, next: nat)
    requires Covers(orders, arrival, pool, queue, inc)
    ensures var m := MatchLoop(orders, queue, inc, next);
            Greedy(orders, arrival, pool, inc, next) == Result(m.orders, m.trades)
    decreases Clamp(orders[inc].remaining)
  {
    hide TryPair, DropStale, FirstEligible;
    var a := TryPair(orders, queue, inc, next);
    if a.Pair? {
      PairEffect(orders, queue, inc, next);
      PairCovers(orders, arrival, pool, queue, inc, next);
      MatchIsGreedy(a.orders, arrival, pool, a.queue, inc, next + 1);
      ChoosesBest(orders, arrival, pool, queue, inc, next);
      forall r | IsBest(orders, arrival, pool, inc, r)
        ensures r == a.maker
      {
        BestIsUnique(orders, arrival, pool, inc, a.maker, r);
      }
    } else if orders[inc].remaining > 0 {
      forall r
        ensures !IsBest(orders, arrival, pool, inc, r)
      {
        StopsWithoutBest(orders, arrival, pool, queue, inc, next, r);
      }
    }
  }

  // ---------------------------------------------------------------------
  // Prices
  // ---------------------------------------------------------------------

  /** Every maker the loop trades with could trade with inc from the start. */
  lemma {:induction false} MakerEligible(orders: Orders, queue: seq<Id>, inc: Id, next: nat, i: nat)
    requires inc in orders && Known(orders, queue) && Keyed(orders)
    requires i < |MatchLoop(orders, queue, inc, next).trades|
    ensures var t := MatchLoop(orders, queue, inc, next).trades[i];
            && t.maker in orders && t.maker in queue && Eligible(orders, t.maker, inc)
            && t.price == orders[t.maker].terms.price
    decreases i
  {
    hide TryPair, DropStale, FirstEligible;
    PairEffect(orders, queue, inc, next);
    if i > 0 {
      var a := TryPair(orders, queue, inc, next);
      PairShifts(orders, queue, inc, next, inc);
      MakerEligible(a.orders, a.queue, inc, next + 1, i - 1);
      var t := MatchLoop(orders, queue, inc, next).trades[i];
      EligibleBefore(orders, queue, inc, next, t.maker);
      PairMember(orders, queue, inc, next, t.maker);
      PairShifts(orders, queue, inc, next, t.maker);
    }
  }

  predicate NoBetter(takerSide: Side, p: int, q: int) {
    if takerSide.Buy? then p <= q else p >= q
  }

  /** Prices only get worse for the taker as it walks the book. */
  lemma {:induction false} PricesMonotone(
      orders: Orders, arrival: map<Id, nat>, pool: set<Id>, queue: seq<Id>, inc: Id, next: nat, i: nat, j: nat)
    requires Covers(orders, arrival, pool, queue, inc)
    requires i <= j < |MatchLoop(orders, queue, inc, next).trades|
    ensures var trades := MatchLoop(orders, queue, inc, next).trades;
            NoBetter(orders[inc].terms.side, trades[i].price, trades[j].price)
    decreases i
  {
    hide TryPair, DropStale, FirstEligible;
    MakerEligible(orders, queue, inc, next, j);
    var a := TryPair(orders, queue, inc, next);
    var trades := MatchLoop(orders, queue, inc, next).trades;
    if i == 0 {
      MakerEligible(orders, queue, inc, next, 0);
      PairEffect(orders, queue, inc, next);
      FirstIsBefore(orders, arrival, pool, queue, inc, next, trades[j].maker);
    } else {
      PairShifts(orders, queue, inc, next, inc);
      PairCovers(orders, arrival, pool, queue, inc, next);
      PricesMonotone(a.orders, arrival, pool, a.queue, inc, next + 1, i - 1, j - 1);
    }
  }

  /** A limit taker never trades at a price worse than its limit. */
  lemma PriceWithinLimit(orders: Orders, queue: seq<Id>, inc: Id, next: nat, i: nat)
    requires inc in orders && Known(orders, queue) && Keyed(orders)
    requires i < |MatchLoop(orders, queue, inc, next).trades|
    requires orders[inc].terms.kind.Limit?
    ensures NoBetter(orders[inc].terms.side, MatchLoop(orders, queue, inc, next).trades[i].price, orders[inc].terms.price)
  {
    MatchTrade(orders, queue, inc, next, i);
  }

  // ---------------------------------------------------------------------
  // Maximal fill
  // ---------------------------------------------------------------------

  ghost function Weights(orders: Orders, pool: set<Id>, inc: Id): map<Id, int>
    requires inc in orders
  {
    map r | r in pool && r in orders :: if Eligible(orders, r, inc) then orders[r].remaining else 0
  }

  /** The total remainder of all candidates that can trade with inc. */
  ghost function Liquidity(orders: Orders, pool: set<Id>, inc: Id): int
    requires inc in orders
  {
    Sums.Sum(Weights(orders, pool, inc))
  }

  /** A round consumes exactly its quantity of the liquidity. */
  lemma PairConsumes(
      orders: Orders, arrival: map<Id, nat>, pool: set<Id>, queue: seq<Id>, inc: Id, next: nat)
    requires Covers(orders, arrival, pool, queue, inc) && inc !in pool
    requires TryPair(orders, queue, inc, next).Pair?
    ensures var a := TryPair(orders, queue, inc, next);
            Liquidity(a.orders, pool, inc) == Liquidity(orders, pool, inc) - a.trade.quantity
  {
    hide TryPair, DropStale, FirstEligible;
    PairEffect(orders, queue, inc, next);
    var a := TryPair(orders, queue, inc, next);
    var w := Weights(orders, pool, inc);
    var r := a.maker;
    assert Weights(a.orders, pool, inc) == w[r := w[r] - a.trade.quantity];
    Sums.Update(w, r, w[r] - a.trade.quantity);
  }

  /** The incoming order fills as far as its own size and the tradable liquidity allow. */
  lemma {:induction false} MaximalFill(
      orders: Orders, arrival: map<Id, nat>, pool: set<Id>, queue: seq<Id>, inc: Id, next: nat)
    requires Covers(orders, arrival, pool, queue, inc) && inc !in pool
    requires orders[inc].remaining >= 0
    ensures var m := MatchLoop(orders, queue, inc, next);
            Quantity(m.trades, inc) == Min(orders[inc].remaining, Liquidity(orders, pool, inc))
    decreases Clamp(orders[inc].remaining)
  {
    hide TryPair, DropStale, FirstEligible;
    var a := TryPair(orders, queue, inc, next);
    var w := Weights(orders, pool, inc);
    Sums.NonNegative(w);
    if a.Pair? {
      PairEffect(orders, queue, inc, next);
      PairCovers(orders, arrival, pool, queue, inc, next);
      PairConsumes(orders, arrival, pool, queue, inc, next);
      MaximalFill(a.orders, arrival, pool, a.queue, inc, next + 1);
      QuantityPrepends(a.trade, MatchLoop(a.orders, a.queue, inc, next + 1).trades, inc);
      PairShifts(orders, queue, inc, next, inc);
      LiquidityAtLeast(a.orders, pool, inc);
    } else if orders[inc].remaining > 0 {
      forall r | r in w
        ensures w[r] == 0
      {
        StopsWithoutBest(orders, arrival, pool, queue, inc, next, r);
      }
      Sums.Zero(w);
    }
  }

  lemma LiquidityAtLeast(orders: Orders, pool: set<Id>, inc: Id)
    requires inc in orders
    ensures Liquidity(orders, pool, inc) >= 0
  {
    Sums.NonNegative(Weights(orders, pool, inc));
  }
}
