/**
 The depth of a book (internal/engine/engine.go, aggregateBids and aggregateAsks):
 resting orders tallied by price, then sorted.
 */
module Depth {
  import opened Types
  import opened Matching
  import Sums

  datatype Level = Level(price: int, quantity: int, total: int, count: int)

  datatype Tally = Tally(quantity: int, count: int)

  /** The orders that depth counts. */
  predicate Shown(o: Order) {
    o.Live() && o.remaining > 0
  }

  /** Shares and orders shown at one price. */
  function QuantityAt(orders: Orders, queue: seq<Id>, price: int): int
    requires Known(orders, queue)
  {
    if queue == [] then 0 else
      var n := |queue| - 1;
      QuantityAt(orders, queue[..n], price)
      + (if Shown(orders[queue[n]]) && orders[queue[n]].terms.price == price then orders[queue[n]].remaining else 0)
  }

  function CountAt(orders: Orders, queue: seq<Id>, price: int): (n: nat)
    requires Known(orders, queue)
  {
    if queue == [] then 0 else
      var n := |queue| - 1;
      CountAt(orders, queue[..n], price)
      + (if Shown(orders[queue[n]]) && orders[queue[n]].terms.price == price then 1 else 0)
  }

  predicate AheadOf(side: Side, p: int, q: int) {
    if side.Buy? then p > q else p < q
  }

  /** Best price first, no price twice. */
  ghost predicate Ordered(side: Side, levels: seq<Level>) {
    forall i, j :: 0 <= i < j < |levels| ==> AheadOf(side, levels[i].price, levels[j].price)
  }

  /** The level says what is shown at its price, and something is. */
  predicate Exact(orders: Orders, queue: seq<Id>, l: Level)
    requires Known(orders, queue)
  {
    && CountAt(orders, queue, l.price) > 0
    && l.quantity == QuantityAt(orders, queue, l.price)
    && l.count == CountAt(orders, queue, l.price)
    && l.total == l.price * l.quantity
  }

  predicate HasPrice(levels: seq<Level>, price: int) {
    exists i :: 0 <= i < |levels| && levels[i].price == price
  }

  /** Exactly one exact level for every price at which something is shown, best first. */
  ghost predicate IsDepth(side: Side, orders: Orders, queue: seq<Id>, levels: seq<Level>)
    requires Known(orders, queue)
  {
    && Ordered(side, levels)
    && (forall i :: 0 <= i < |levels| ==> Exact(orders, queue, levels[i]))
    && (forall price: int :: CountAt(orders, queue, price) > 0 ==> HasPrice(levels, price))
  }

  lemma FirstIsAhead(side: Side, levels: seq<Level>, i: nat)
    requires Ordered(side, levels) && i < |levels|
    ensures i == 0 || AheadOf(side, levels[0].price, levels[i].price)
  {
  }

  lemma {:induction false} OrderedUnique(side: Side, a: seq<Level>, b: seq<Level>)
    requires Ordered(side, a) && Ordered(side, b) && forall x :: x in a <==> x in b
    ensures a == b
  {
    assert b != [] ==> b[0] in b;
    if a != [] {
      assert a[0] in a;
      var i :| 0 <= i < |b| && b[i] == a[0];
      var j :| 0 <= j < |a| && a[j] == b[0];
      FirstIsAhead(side, b, i);
      FirstIsAhead(side, a, j);
      forall x ensures x in a[1..] <==> x in b[1..] {
        assert x in a[1..] <==> x in a && x != a[0];
        assert x in b[1..] <==> x in b && x != b[0];
      }
      OrderedUnique(side, a[1..], b[1..]);
    }
  }

  lemma SharesLevels(side: Side, orders: Orders, queue: seq<Id>, a: seq<Level>, b: seq<Level>, x: Level)
    requires Known(orders, queue) && IsDepth(side, orders, queue, a) && IsDepth(side, orders, queue, b) && x in a
    ensures x in b
  {
    hide CountAt, QuantityAt, Ordered;
    var i :| 0 <= i < |a| && a[i] == x;
    assert Exact(orders, queue, a[i]);
    var k :| 0 <= k < |b| && b[k].price == x.price;
    assert Exact(orders, queue, b[k]);
  }

  /** There is only one such list of levels. */
  lemma DepthIsUnique(side: Side, orders: Orders, queue: seq<Id>, a: seq<Level>, b: seq<Level>)
    requires Known(orders, queue) && IsDepth(side, orders, queue, a) && IsDepth(side, orders, queue, b)
    ensures a == b
  {
    hide Exact, HasPrice;
    forall x ensures x in a <==> x in b {
      if x in a {
        SharesLevels(side, orders, queue, a, b, x);
      }
      if x in b {
        SharesLevels(side, orders, queue, b, a, x);
      }
    }
    OrderedUnique(side, a, b);
  }

  // ---------------------------------------------------------------------
  // The method
  // ---------------------------------------------------------------------

  /** The tally of each price of a queue. */
  ghost predicate Tallied(orders: Orders, queue: seq<Id>, tallies: map<int, Tally>)
    requires Known(orders, queue)
  {
    forall price: int ::
      && (price in tallies <==> CountAt(orders, queue, price) > 0)
      && (price in tallies ==>
            tallies[price] == Tally(QuantityAt(orders, queue, price), CountAt(orders, queue, price)))
      && (price !in tallies ==> QuantityAt(orders, queue, price) == 0)
  }

  lemma TallyStep(orders: Orders, queue: seq<Id>, id: Id, tallies: map<int, Tally>)
    requires Known(orders, queue) && id in orders && Tallied(orders, queue, tallies)
    ensures Known(orders, queue + [id])
    ensures var o := orders[id];
            var p := o.terms.price;
            var t := if p in tallies then tallies[p] else Tally(0, 0);
            Tallied(orders, queue + [id],
                    if Shown(o) then tallies[p := Tally(t.quantity + o.remaining, t.count + 1)] else tallies)
  {
    assert (queue + [id])[..|queue|] == queue;
  }

  method Tallies(orders: Orders, queue: seq<Id>) returns (tallies: map<int, Tally>)
    requires Known(orders, queue)
    ensures Tallied(orders, queue, tallies)
  {
    hide Tallied;
    tallies := map[];
    assert Tallied(orders, queue[..0], tallies) by { TalliedEmpty(orders); assert queue[..0] == []; }
    for i := 0 to |queue|
      invariant Tallied(orders, queue[..i], tallies)
    {
      assert queue[..i + 1] == queue[..i] + [queue[i]];
      TallyStep(orders, queue[..i], queue[i], tallies);
      var o := orders[queue[i]];
      if Shown(o) {
        var p := o.terms.price;
        var t := if p in tallies then tallies[p] else Tally(0, 0);
        tallies := tallies[p := Tally(t.quantity + o.remaining, t.count + 1)];
      }
    }
    assert queue[..|queue|] == queue;
  }

  lemma TalliedEmpty(orders: Orders)
    ensures Tallied(orders, [], map[])
  {
  }

  function LevelOf(price: int, t: Tally): Level {
    Level(price, t.quantity, price * t.quantity, t.count)
  }

  /** Insert a level of a new price at its place. */
  method InsertLevel(side: Side, levels: seq<Level>, l: Level) returns (r: seq<Level>)
    requires Ordered(side, levels) && !HasPrice(levels, l.price)
    ensures Ordered(side, r) && |r| == |levels| + 1
    ensures forall x :: x in r <==> x == l || x in levels
  {
    var i := 0;
    while i < |levels| && AheadOf(side, levels[i].price, l.price)
      invariant 0 <= i <= |levels|
      invariant forall j :: 0 <= j < i ==> AheadOf(side, levels[j].price, l.price)
    {
      i := i + 1;
    }
    r := levels[..i] + [l] + levels[i..];
    forall j | i <= j < |levels| ensures AheadOf(side, l.price, levels[j].price) {
      assert levels[i].price != l.price;
    }
    assert levels == levels[..i] + levels[i..];
  }

  /** Any key: a map is iterated in no particular order. */
  method NextKey<K(==)>(keys: set<K>) returns (key: K)
    requires keys != {}
    ensures key in keys
  {
    key :| key in keys;
  }

  /**
   Tally the orders of one side of a book, take the levels out of the tally in any
   order, and sort them by price.
   */
  method Aggregate(side: Side, orders: Orders, queue: seq<Id>) returns (levels: seq<Level>)
    requires Known(orders, queue)
    ensures IsDepth(side, orders, queue, levels)
    ensures forall i, j :: 0 <= i < j < |levels| ==>
              if side == Buy then levels[i].price > levels[j].price else levels[i].price < levels[j].price
  {
    hide Tallied, QuantityAt, CountAt, Ordered, HasPrice;
    var tallies := Tallies(orders, queue);
    var prices: set<int> := tallies.Keys;
    levels := [];
    assert Ordered(side, levels) by { NoLevels(side); }
    while prices != {}
      invariant prices <= tallies.Keys && Ordered(side, levels)
      invariant forall x :: x in levels <==> x.price in tallies && x.price !in prices && x == LevelOf(x.price, tallies[x.price])
      decreases |prices|
    {
      var price := NextKey(prices);
      prices := prices - {price};
      PriceFree(levels, price);
      levels := InsertLevel(side, levels, LevelOf(price, tallies[price]));
    }
    TalliesAreDepth(side, orders, queue, tallies, levels);
    BidsFallAsksRise(side, levels);
  }

  /** Bids are listed from the highest price down, asks from the lowest up. */
  lemma BidsFallAsksRise(side: Side, levels: seq<Level>)
    requires Ordered(side, levels)
    ensures forall i, j :: 0 <= i < j < |levels| ==>
              if side == Buy then levels[i].price > levels[j].price else levels[i].price < levels[j].price
  {
  }

  lemma NoLevels(side: Side)
    ensures Ordered(side, [])
  {
  }

  lemma PriceFree(levels: seq<Level>, price: int)
    requires forall x :: x in levels ==> x.price != price
    ensures !HasPrice(levels, price)
  {
    forall i | 0 <= i < |levels| ensures levels[i].price != price {
      assert levels[i] in levels;
    }
  }

  lemma TalliesAreDepth(side: Side, orders: Orders, queue: seq<Id>, tallies: map<int, Tally>, levels: seq<Level>)
    requires Known(orders, queue) && Tallied(orders, queue, tallies) && Ordered(side, levels)
    requires forall x :: x in levels <==> x.price in tallies && x == LevelOf(x.price, tallies[x.price])
    ensures IsDepth(side, orders, queue, levels)
  {
    hide QuantityAt, CountAt, Ordered;
    forall i | 0 <= i < |levels| ensures Exact(orders, queue, levels[i]) {
      assert levels[i] in levels;
    }
    forall price: int | CountAt(orders, queue, price) > 0 ensures HasPrice(levels, price) {
      assert LevelOf(price, tallies[price]) in levels;
    }
  }

  // ---------------------------------------------------------------------
  // What the numbers of a level mean
  // ---------------------------------------------------------------------

  /** The positions of the queue whose orders are pending or partly filled, with a remainder, at the price. */
  ghost function Positions(orders: Orders, queue: seq<Id>, price: int): set<int>
    requires Known(orders, queue)
  {
    set i | 0 <= i < |queue| && (orders[queue[i]].status == Pending || orders[queue[i]].status == Partial)
            && orders[queue[i]].remaining > 0 && orders[queue[i]].terms.price == price
  }

  ghost function Remainders(orders: Orders, queue: seq<Id>, price: int): map<int, int>
    requires Known(orders, queue)
  {
    map i | i in Positions(orders, queue, price) :: orders[queue[i]].remaining
  }

  predicate Counts(o: Order, price: int) {
    (o.status == Pending || o.status == Partial) && o.remaining > 0 && o.terms.price == price
  }

  lemma PositionsStep(orders: Orders, init: seq<Id>, id: Id, price: int)
    requires Known(orders, init) && id in orders
    ensures Known(orders, init + [id]) && |init| !in Positions(orders, init, price)
    ensures Positions(orders, init + [id], price)
         == Positions(orders, init, price) + (if Counts(orders[id], price) then {|init|} else {})
    ensures Remainders(orders, init + [id], price)
         == if Counts(orders[id], price) then Remainders(orders, init, price)[|init| := orders[id].remaining]
            else Remainders(orders, init, price)
  {
    var queue := init + [id];
    assert forall i :: 0 <= i < |init| ==> queue[i] == init[i];
    var before, after := Positions(orders, init, price), Positions(orders, queue, price);
    forall i: int ensures i in after <==> i in before || (i == |init| && Counts(orders[id], price)) {
    }
    forall i | i in after ensures i in before ==> Remainders(orders, queue, price)[i] == Remainders(orders, init, price)[i] {
    }
  }

  /** A level counts those positions and sums their remainders. */
  lemma {:induction false} LevelMeans(orders: Orders, queue: seq<Id>, price: int)
    requires Known(orders, queue)
    ensures CountAt(orders, queue, price) == |Positions(orders, queue, price)|
    ensures QuantityAt(orders, queue, price) == Sums.Sum(Remainders(orders, queue, price))
    decreases queue
  {
    hide Positions, Remainders;
    if queue == [] {
      NoPositions(orders, price);
    } else {
      var n := |queue| - 1;
      var init, o := queue[..n], orders[queue[n]];
      assert queue == init + [queue[n]];
      LevelMeans(orders, init, price);
      PositionsStep(orders, init, queue[n], price);
      RemaindersOf(orders, init, price);
      Sums.Update(Remainders(orders, init, price), n, o.remaining);
    }
  }

  lemma RemaindersOf(orders: Orders, queue: seq<Id>, price: int)
    requires Known(orders, queue)
    ensures Remainders(orders, queue, price).Keys == Positions(orders, queue, price)
  {
  }

  lemma NoPositions(orders: Orders, price: int)
    ensures Positions(orders, [], price) == {} && Sums.Sum(Remainders(orders, [], price)) == 0
  {
    assert Remainders(orders, [], price) == map[];
  }
}
