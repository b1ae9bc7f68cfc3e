/**
 The matching core of internal/engine/engine.go as functions on an order table
 and a queue of resting orders, and the greedy price-time rule it implements.
 */
module Matching {
  import opened Types

  type Orders = map<Id, Order>

  // ---------------------------------------------------------------------
  // The code's own steps
  // ---------------------------------------------------------------------

  predicate CanMatch(incoming: Terms, resting: Terms) {
    && incoming.outcome == resting.outcome
    && (incoming.kind.Market?
        || (if incoming.side.Buy? then resting.price <= incoming.price
            else resting.price >= incoming.price))
  }

  /** A resting order that findCounterparty skips. */
  predicate Dead(o: Order) {
    o.status.Filled? || o.status.Canceled? || o.status.Rejected? || o.remaining <= 0
  }

  /** A resting order that removeInvalidBids and removeInvalidAsks drop. */
  predicate Stale(o: Order) {
    o.status.Filled? || o.status.Canceled? || o.remaining <= 0
  }

  /** Every queued identifier names an order. */
  predicate Known(orders: Orders, queue: seq<Id>) {
    forall i :: 0 <= i < |queue| ==> queue[i] in orders
  }

  /** No identifier is queued twice. */
  predicate Distinct(queue: seq<Id>) {
    forall i, j :: 0 <= i < j < |queue| ==> queue[i] != queue[j]
  }

  predicate Eligible(orders: Orders, r: Id, inc: Id)
    requires r in orders && inc in orders
  {
    && !Dead(orders[r])
    && orders[r].terms.user != orders[inc].terms.user
    && CanMatch(orders[inc].terms, orders[r].terms)
  }

  /** The queue without its stale front. */
  function DropStale(orders: Orders, queue: seq<Id>): (rest: seq<Id>)
    requires Known(orders, queue)
    ensures |rest| <= |queue| && rest == queue[|queue| - |rest|..]
    ensures forall i :: 0 <= i < |queue| - |rest| ==> Stale(orders[queue[i]])
    ensures rest != [] ==> !Stale(orders[rest[0]])
  {
    if queue != [] && Stale(orders[queue[0]]) then
      var tail := queue[1..];
      var rest := DropStale(orders, tail);
      assert tail[|tail| - |rest|..] == queue[|queue| - |rest|..];
      assert forall i :: 0 < i < |queue| ==> queue[i] == tail[i - 1];
      rest
    else queue
  }

  /** The first position whose order can trade against inc, or -1. */
  function FirstEligible(orders: Orders, queue: seq<Id>, inc: Id): (i: int)
    requires Known(orders, queue) && inc in orders
    ensures -1 <= i < |queue|
    ensures i >= 0 ==> Eligible(orders, queue[i], inc)
    ensures forall j :: 0 <= j < (if i < 0 then |queue| else i) ==> !Eligible(orders, queue[j], inc)
  {
    if queue == [] then -1
    else if Eligible(orders, queue[0], inc) then 0
    else
      var j := FirstEligible(orders, queue[1..], inc);
      if j < 0 then -1 else j + 1
  }

  function RemoveAt(queue: seq<Id>, i: nat): seq<Id>
    requires i < |queue|
  {
    queue[..i] + queue[i + 1..]
  }

  /** The trade of a pair: the maker sets the price. */
  function BuildTrade(taker: Terms, maker: Terms, quantity: int, id: nat): Trade {
    Trade(id, taker.id, maker.id, taker.event, taker.outcome,
          if taker.side.Buy? then taker.user else maker.user,
          if taker.side.Buy? then maker.user else taker.user,
          taker.side, quantity, maker.price)
  }

  function FillTaker(o: Order, quantity: int): Order {
    o.(remaining := o.remaining - quantity, filled := o.filled + quantity)
  }

  function FillMaker(o: Order, quantity: int): Order {
    if o.remaining - quantity <= 0
    then o.(remaining := 0, filled := o.filled + quantity, status := Filled)
    else o.(remaining := o.remaining - quantity, filled := o.filled + quantity, status := Partial)
  }

  datatype Attempt =
    | Stop(queue: seq<Id>)
    | Pair(orders: Orders, queue: seq<Id>, trade: Trade, maker: Id)

  /** One round of the match loop. */
  function TryPair(orders: Orders, queue: seq<Id>, inc: Id, next: nat): (a: Attempt)
    requires inc in orders && Known(orders, queue)
    ensures a.Pair? ==> Known(a.orders, a.queue) && inc in a.orders
    ensures a.Pair? ==> 0 <= a.orders[inc].remaining < orders[inc].remaining
  {
    if orders[inc].remaining <= 0 then Stop(queue) else
      var live := DropStale(orders, queue);
      var i := FirstEligible(orders, live, inc);
      if i < 0 then Stop(live) else
        var r := live[i];
        var quantity := Min(orders[inc].remaining, orders[r].remaining);
        var taker := FillTaker(orders[inc], quantity);
        var maker := FillMaker(orders[r], quantity);
        Pair(orders[inc := taker][r := maker],
             if maker.remaining <= 0 then RemoveAt(live, i) else live,
             BuildTrade(orders[inc].terms, orders[r].terms, quantity, next),
             r)
  }

  datatype Matched = Matched(orders: Orders, queue: seq<Id>, trades: seq<Trade>)

  /** The whole match loop. It ends because each round shrinks the incoming remainder. */
  function MatchLoop(orders: Orders, queue: seq<Id>, inc: Id, next: nat): Matched
    requires inc in orders && Known(orders, queue)
    decreases Clamp(orders[inc].remaining)
  {
    match TryPair(orders, queue, inc, next)
    case Stop(rest) => Matched(orders, rest, [])
    case Pair(orders1, queue1, trade, _) =>
      var m := MatchLoop(orders1, queue1, inc, next + 1);
      Matched(m.orders, m.queue, [trade] + m.trades)
  }

  // ---------------------------------------------------------------------
  // What one round does
  // ---------------------------------------------------------------------

  /** Identifiers stored in the table agree with their keys. */
  predicate Keyed(orders: Orders) {
    forall id | id in orders :: orders[id].terms.id == id
  }

  /** A round picks an eligible queued order and fills both sides by the smaller remainder. */
  lemma PairEffect(orders: Orders, queue: seq<Id>, inc: Id, next: nat)
    requires inc in orders && Known(orders, queue) && Keyed(orders)
    requires TryPair(orders, queue, inc, next).Pair?
    ensures var a := TryPair(orders, queue, inc, next);
            var r := a.maker;
            var n := a.trade.quantity;
            && r in queue && r in orders && r != inc && Eligible(orders, r, inc)
            && 0 < n == Min(orders[inc].remaining, orders[r].remaining)
            && a.orders == orders[inc := FillTaker(orders[inc], n)][r := FillMaker(orders[r], n)]
            && a.trade == BuildTrade(orders[inc].terms, orders[r].terms, n, next)
  {
  }

  /** Removing a position loses no other member. */
  lemma RemoveAtMember(queue: seq<Id>, i: nat, x: Id)
    requires i < |queue|
    ensures x in RemoveAt(queue, i) ==> x in queue
    ensures x in queue && x != queue[i] ==> x in RemoveAt(queue, i)
  {
    if x in queue && x != queue[i] {
      var j :| 0 <= j < |queue| && queue[j] == x;
      assert RemoveAt(queue, i)[if j < i then j else j - 1] == x;
    }
  }

  /** Dropping the stale front loses only stale orders. */
  lemma {:induction false} DropStaleMember(orders: Orders, queue: seq<Id>, x: Id)
    requires Known(orders, queue)
    ensures x in DropStale(orders, queue) ==> x in queue
    ensures x in queue && !Stale(orders[x]) ==> x in DropStale(orders, queue)
  {
    if queue != [] && Stale(orders[queue[0]]) {
      DropStaleMember(orders, queue[1..], x);
      assert queue == [queue[0]] + queue[1..];
    }
  }

  /** A round drops nothing from the queue but stale orders and a filled maker. */
  lemma PairMember(orders: Orders, queue: seq<Id>, inc: Id, next: nat, x: Id)
    requires inc in orders && Known(orders, queue)
    requires TryPair(orders, queue, inc, next).Pair?
    ensures var a := TryPair(orders, queue, inc, next);
            && (x in a.queue ==> x in queue)
            && (x in queue && !Stale(orders[x]) && (x != a.maker || a.orders[x].remaining > 0) ==> x in a.queue)
  {
    var live := DropStale(orders, queue);
    DropStaleMember(orders, queue, x);
    RemoveAtMember(live, FirstEligible(orders, live, inc), x);
  }

  // ---------------------------------------------------------------------
  // Accounting: orders after the loop are determined by the trades
  // ---------------------------------------------------------------------

  /** The quantity that trades move on one order. */
  function Quantity(trades: seq<Trade>, order: Id): int {
    if trades == [] then 0
    else (if trades[0].Names(order) then trades[0].quantity else 0) + Quantity(trades[1..], order)
  }

  /** The order after trading n shares, as taker or as maker. */
  predicate Shifted(o: Order, o': Order, n: int, taker: bool) {
    && o'.terms == o.terms
    && o'.locked == o.locked
    && o'.filled == o.filled + n
    && o'.remaining == o.remaining - n
    && n >= 0
    && o'.status == (if n == 0 || taker then o.status
                     else if o'.remaining <= 0 then Filled else Partial)
  }

  ghost predicate AfterTrades(orders: Orders, orders': Orders, inc: Id, trades: seq<Trade>) {
    && orders'.Keys == orders.Keys
    && forall id | id in orders :: Shifted(orders[id], orders'[id], Quantity(trades, id), id == inc)
  }

  /** One round is the shift by its own trade. */
  lemma PairShifts(orders: Orders, queue: seq<Id>, inc: Id, next: nat, id: Id)
    requires inc in orders && Known(orders, queue) && Keyed(orders) && id in orders
    requires TryPair(orders, queue, inc, next).Pair?
    ensures var a := TryPair(orders, queue, inc, next);
            && a.orders.Keys == orders.Keys && Keyed(a.orders)
            && Shifted(orders[id], a.orders[id], Quantity([a.trade], id), id == inc)
  {
    hide TryPair, DropStale, FirstEligible;
    PairEffect(orders, queue, inc, next);
    var a := TryPair(orders, queue, inc, next);
    assert a.orders.Keys == orders.Keys;
    assert Quantity([a.trade][1..], id) == 0;
  }

  /** Every field of every order after the loop follows from the trade list alone. */
  lemma {:induction false} MatchAccounts(orders: Orders, queue: seq<Id>, inc: Id, next: nat)
    requires inc in orders && Known(orders, queue) && Keyed(orders)
    ensures AfterTrades(orders, MatchLoop(orders, queue, inc, next).orders, inc,
                        MatchLoop(orders, queue, inc, next).trades)
    decreases Clamp(orders[inc].remaining)
  {
    hide TryPair, DropStale, FirstEligible;
    var a := TryPair(orders, queue, inc, next);
    if a.Pair? {
      PairShifts(orders, queue, inc, next, inc);
      MatchAccounts(a.orders, a.queue, inc, next + 1);
      var m := MatchLoop(a.orders, a.queue, inc, next + 1);
      forall id | id in orders
        ensures Shifted(orders[id], m.orders[id], Quantity([a.trade] + m.trades, id), id == inc)
      {
        PairShifts(orders, queue, inc, next, id);
        QuantityPrepends(a.trade, m.trades, id);
      }
    }
  }

  lemma QuantityPrepends(t: Trade, trades: seq<Trade>, id: Id)
    ensures Quantity([t] + trades, id) == Quantity([t], id) + Quantity(trades, id)
  {
    assert ([t] + trades)[1..] == trades;
    assert Quantity([t][1..], id) == 0;
  }

  /** No order is filled past its remainder. */
  lemma {:induction false} MatchRemainder(orders: Orders, queue: seq<Id>, inc: Id, next: nat, x: Id)
    requires inc in orders && Known(orders, queue) && Keyed(orders)
    requires x in orders && orders[x].remaining >= 0
    ensures var m := MatchLoop(orders, queue, inc, next);
            x in m.orders && m.orders[x].remaining >= 0
    decreases Clamp(orders[inc].remaining)
  {
    hide TryPair, DropStale, FirstEligible;
    var a := TryPair(orders, queue, inc, next);
    if a.Pair? {
      PairEffect(orders, queue, inc, next);
      PairShifts(orders, queue, inc, next, x);
      MatchRemainder(a.orders, a.queue, inc, next + 1, x);
    }
  }

  /** An order that is neither incoming nor queued is left alone. */
  lemma {:induction false} MatchIgnores(orders: Orders, queue: seq<Id>, inc: Id, next: nat, x: Id)
    requires inc in orders && Known(orders, queue) && Keyed(orders)
    requires x in orders && x != inc && x !in queue
    ensures var m := MatchLoop(orders, queue, inc, next);
            x in m.orders && m.orders[x] == orders[x]
    decreases Clamp(orders[inc].remaining)
  {
    hide TryPair, DropStale, FirstEligible;
    var a := TryPair(orders, queue, inc, next);
    if a.Pair? {
      PairEffect(orders, queue, inc, next);
      PairShifts(orders, queue, inc, next, x);
      PairMember(orders, queue, inc, next, x);
      MatchIgnores(a.orders, a.queue, inc, next + 1, x);
    }
  }

  /** What every trade of a match says about the two orders it names. */
  ghost predicate Fits(orders: Orders, t: Trade) {
    && t.taker in orders && t.maker in orders && t.taker != t.maker
    && FitsTerms(orders[t.taker].terms, orders[t.maker].terms, t)
  }

  predicate FitsTerms(taker: Terms, maker: Terms, t: Trade) {
    && t == BuildTrade(taker, maker, t.quantity, t.id)
    && t.quantity > 0
    && t.buyer != t.seller
    && CanMatch(taker, maker)
  }

  /** The i-th trade pairs the incoming order with a queued maker, at the i-th fresh id. */
  lemma {:induction false} MatchTrade(orders: Orders, queue: seq<Id>, inc: Id, next: nat, i: nat)
    requires inc in orders && Known(orders, queue) && Keyed(orders)
    requires i < |MatchLoop(orders, queue, inc, next).trades|
    ensures var t := MatchLoop(orders, queue, inc, next).trades[i];
            Fits(orders, t) && t.taker == inc && t.maker in queue && t.id == next + i
    decreases i
  {
    hide TryPair, DropStale, FirstEligible;
    var a := TryPair(orders, queue, inc, next);
    PairEffect(orders, queue, inc, next);
    if i > 0 {
      var t := MatchLoop(orders, queue, inc, next).trades[i];
      PairShifts(orders, queue, inc, next, inc);
      MatchTrade(a.orders, a.queue, inc, next + 1, i - 1);
      PairMember(orders, queue, inc, next, t.maker);
      PairShifts(orders, queue, inc, next, t.maker);
    }
  }

  // ---------------------------------------------------------------------
  // The queue
  // ---------------------------------------------------------------------

  /** Strict price priority of a over b on one side of a book. */
  predicate Better(side: Side, a: Terms, b: Terms) {
    if side.Buy? then a.price > b.price else a.price < b.price
  }

  /** Price-time priority: a better price, or the same price and an earlier arrival. */
  ghost predicate Before(orders: Orders, arrival: map<Id, nat>, side: Side, a: Id, b: Id) {
    && a in orders && b in orders && a in arrival && b in arrival
    && (Better(side, orders[a].terms, orders[b].terms)
        || (orders[a].terms.price == orders[b].terms.price && arrival[a] < arrival[b]))
  }

  /** A queue in strict price-time order. */
  ghost predicate Prioritized(orders: Orders, arrival: map<Id, nat>, side: Side, queue: seq<Id>) {
    forall i, j :: 0 <= i < j < |queue| ==> Before(orders, arrival, side, queue[i], queue[j])
  }

  /** No queued order is stale, which is what books keep between commands. */
  ghost predicate Fresh(orders: Orders, queue: seq<Id>) {
    forall i :: 0 <= i < |queue| ==> queue[i] in orders && !Stale(orders[queue[i]])
  }

  lemma RemoveAtPrioritized(orders: Orders, arrival: map<Id, nat>, side: Side, queue: seq<Id>, i: nat)
    requires i < |queue| && Prioritized(orders, arrival, side, queue)
    ensures Prioritized(orders, arrival, side, RemoveAt(queue, i))
    ensures queue[i] !in RemoveAt(queue, i)
  {
    var rest := RemoveAt(queue, i);
    forall j, k | 0 <= j < k < |rest|
      ensures Before(orders, arrival, side, rest[j], rest[k])
    {
      assert Before(orders, arrival, side, queue[if j < i then j else j + 1], queue[if k < i then k else k + 1]);
    }
    forall j | 0 <= j < |rest|
      ensures rest[j] != queue[i]
    {
      assert j < i ==> Before(orders, arrival, side, queue[j], queue[i]);
      assert j >= i ==> Before(orders, arrival, side, queue[i], queue[j + 1]);
    }
  }

  /** Priority depends on the terms of orders only. */
  lemma PrioritizedByTerms(
      orders: Orders, orders': Orders, arrival: map<Id, nat>, side: Side, queue: seq<Id>)
    requires Prioritized(orders, arrival, side, queue)
    requires orders.Keys <= orders'.Keys
    requires forall id | id in orders :: orders'[id].terms == orders[id].terms
    ensures Prioritized(orders', arrival, side, queue)
  {
    forall i, j | 0 <= i < j < |queue|
      ensures Before(orders', arrival, side, queue[i], queue[j])
    {
      assert Before(orders, arrival, side, queue[i], queue[j]);
    }
  }

  /** A clean queue is left alone when the loop stops. */
  lemma StopKeeps(orders: Orders, queue: seq<Id>, inc: Id, next: nat)
    requires inc in orders && Known(orders, queue) && Fresh(orders, queue)
    requires TryPair(orders, queue, inc, next).Stop?
    ensures TryPair(orders, queue, inc, next).queue == queue
  {
  }

  /** The loop stops when the incoming order is filled or nothing queued can trade with it. */
  lemma StopExhausts(orders: Orders, queue: seq<Id>, inc: Id, next: nat)
    requires inc in orders && Known(orders, queue)
    requires TryPair(orders, queue, inc, next).Stop?
    ensures var rest := TryPair(orders, queue, inc, next).queue;
            && Known(orders, rest)
            && (orders[inc].remaining <= 0
                || forall i :: 0 <= i < |rest| ==> !Eligible(orders, rest[i], inc))
  {
  }

  /** One round keeps the queue in order and drops the maker when it is filled. */
  lemma PairPrioritized(
      orders: Orders, arrival: map<Id, nat>, side: Side, queue: seq<Id>, inc: Id, next: nat)
    requires inc in orders && Known(orders, queue) && Keyed(orders)
    requires Prioritized(orders, arrival, side, queue)
    requires TryPair(orders, queue, inc, next).Pair?
    ensures var a := TryPair(orders, queue, inc, next);
            && Prioritized(a.orders, arrival, side, a.queue)
            && (a.orders[a.maker].remaining <= 0 ==> a.maker !in a.queue)
  {
    var a := TryPair(orders, queue, inc, next);
    var live := DropStale(orders, queue);
    assert Prioritized(orders, arrival, side, live);
    RemoveAtPrioritized(orders, arrival, side, live, FirstEligible(orders, live, inc));
    forall id | id in orders
      ensures id in a.orders && a.orders[id].terms == orders[id].terms
    {
      PairShifts(orders, queue, inc, next, id);
    }
    PrioritizedByTerms(orders, a.orders, arrival, side, a.queue);
  }

  /** One round leaves no stale order in a clean queue and drops no order with a remainder. */
  lemma PairFresh(
      orders: Orders, arrival: map<Id, nat>, side: Side, queue: seq<Id>, inc: Id, next: nat, x: Id)
    requires inc in orders && inc !in queue && Known(orders, queue) && Keyed(orders)
    requires Fresh(orders, queue) && Prioritized(orders, arrival, side, queue)
    requires TryPair(orders, queue, inc, next).Pair?
    ensures var a := TryPair(orders, queue, inc, next);
            && (x in a.queue ==> x in queue && x in a.orders && !Stale(a.orders[x]))
            && (x in queue && a.orders[x].remaining > 0 ==> x in a.queue)
  {
    hide TryPair, DropStale, FirstEligible;
    PairEffect(orders, queue, inc, next);
    PairMember(orders, queue, inc, next, x);
    PairPrioritized(orders, arrival, side, queue, inc, next);
    if x in queue {
      PairShifts(orders, queue, inc, next, x);
    }
  }

  /** A clean queue in priority order stays one after a round. */
  lemma PairClean(
      orders: Orders, arrival: map<Id, nat>, side: Side, queue: seq<Id>, inc: Id, next: nat)
    requires inc in orders && inc !in queue && Known(orders, queue) && Keyed(orders)
    requires Fresh(orders, queue) && Prioritized(orders, arrival, side, queue)
    requires TryPair(orders, queue, inc, next).Pair?
    ensures var a := TryPair(orders, queue, inc, next);
            && inc !in a.queue && Keyed(a.orders)
            && Fresh(a.orders, a.queue) && Prioritized(a.orders, arrival, side, a.queue)
  {
    hide TryPair, DropStale, FirstEligible;
    var a := TryPair(orders, queue, inc, next);
    PairPrioritized(orders, arrival, side, queue, inc, next);
    PairShifts(orders, queue, inc, next, inc);
    PairMember(orders, queue, inc, next, inc);
    forall i | 0 <= i < |a.queue|
      ensures a.queue[i] in a.orders && !Stale(a.orders[a.queue[i]])
    {
      PairFresh(orders, arrival, side, queue, inc, next, a.queue[i]);
    }
  }

  /** Over the whole loop, the queue stays clean and in priority order. */
  lemma {:induction false} MatchPrioritized(
      orders: Orders, arrival: map<Id, nat>, side: Side, queue: seq<Id>, inc: Id, next: nat)
    requires inc in orders && inc !in queue && Known(orders, queue) && Keyed(orders)
    requires Fresh(orders, queue) && Prioritized(orders, arrival, side, queue)
    ensures var m := MatchLoop(orders, queue, inc, next);
            Fresh(m.orders, m.queue) && Prioritized(m.orders, arrival, side, m.queue)
    decreases Clamp(orders[inc].remaining)
  {
    hide TryPair, DropStale, FirstEligible;
    var a := TryPair(orders, queue, inc, next);
    if a.Pair? {
      PairClean(orders, arrival, side, queue, inc, next);
      MatchPrioritized(a.orders, arrival, side, a.queue, inc, next + 1);
    } else {
      StopKeeps(orders, queue, inc, next);
    }
  }

  /** Over the whole loop, the queue loses exactly the filled makers. */
  lemma {:induction false} MatchMember(
      orders: Orders, arrival: map<Id, nat>, side: Side, queue: seq<Id>, inc: Id, next: nat, x: Id)
    requires inc in orders && inc !in queue && Known(orders, queue) && Keyed(orders)
    requires Fresh(orders, queue) && Prioritized(orders, arrival, side, queue)
    requires x in orders
    ensures var m := MatchLoop(orders, queue, inc, next);
            x in m.orders && (x in m.queue <==> x in queue && m.orders[x].remaining > 0)
    decreases Clamp(orders[inc].remaining)
  {
    hide TryPair, DropStale, FirstEligible;
    var a := TryPair(orders, queue, inc, next);
    if a.Pair? {
      PairClean(orders, arrival, side, queue, inc, next);
      PairShifts(orders, queue, inc, next, x);
      MatchMember(a.orders, arrival, side, a.queue, inc, next + 1, x);
      MatchAccounts(a.orders, a.queue, inc, next + 1);
      PairFresh(orders, arrival, side, queue, inc, next, x);
    } else {
      StopKeeps(orders, queue, inc, next);
      if x in queue {
        var i :| 0 <= i < |queue| && queue[i] == x;
      }
    }
  }

  /** The loop ends with the incoming order filled or nothing queued that can trade with it. */
  lemma {:induction false} MatchExhausts(orders: Orders, queue: seq<Id>, inc: Id, next: nat)
    requires inc in orders && Known(orders, queue) && Keyed(orders)
    ensures var m := MatchLoop(orders, queue, inc, next);
            && inc in m.orders && Known(m.orders, m.queue)
            && (m.orders[inc].remaining <= 0
                || forall i :: 0 <= i < |m.queue| ==> !Eligible(m.orders, m.queue[i], inc))
    decreases Clamp(orders[inc].remaining)
  {
    hide TryPair, DropStale, FirstEligible, Eligible;
    var a := TryPair(orders, queue, inc, next);
    if a.Pair? {
      PairShifts(orders, queue, inc, next, inc);
      MatchExhausts(a.orders, a.queue, inc, next + 1);
    } else {
      StopExhausts(orders, queue, inc, next);
    }
  }
}
