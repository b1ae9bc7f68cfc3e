/**
 The engine object: its maps and book slices are updated in place, handler by
 handler, and every method is proved to realise the function of EngineState it
 stands for.
 */
module EngineObject {
  import opened Types
  import opened Matching
  import opened EngineState
  import opened Invariant
  import opened MatchInvariant
  import StepInvariant

  /** A live order of another user for the same outcome, at any price for a market order, else at its limit or better. */
  predicate Suits(incoming: Order, resting: Order) {
    && resting.Live() && resting.remaining > 0
    && resting.terms.user != incoming.terms.user && resting.terms.outcome == incoming.terms.outcome
    && match incoming.terms.kind
       case Market => true
       case Limit =>
         match incoming.terms.side
         case Buy => resting.terms.price <= incoming.terms.price
         case Sell => resting.terms.price >= incoming.terms.price
  }

  lemma DropStep(orders: Orders, queue: seq<Id>)
    requires Known(orders, queue) && queue != []
    ensures DropStale(orders, queue) == if Stale(orders[queue[0]]) then DropStale(orders, queue[1..]) else queue
  {
  }

  lemma DropNone(orders: Orders)
    ensures DropStale(orders, []) == []
  {
  }

  /** What is dropped from the front is finished, and what is left does not start with a finished order. */
  lemma StaleMeans(orders: Orders, queue: seq<Id>)
    requires Known(orders, queue)
    ensures var rest := DropStale(orders, queue);
            && |rest| <= |queue| && rest == queue[|queue| - |rest|..]
            && (forall k :: 0 <= k < |queue| - |rest| ==>
                  var o := orders[queue[k]]; o.status == Filled || o.status == Canceled || o.remaining <= 0)
            && (rest != [] ==>
                  (var o := orders[rest[0]]; o.status != Filled && o.status != Canceled && o.remaining > 0))
  {
    hide DropStale;
  }

  class Engine {
    var markets: map<Id, Market>
    var orders: map<Id, Order>
    var balances: map<Id, Holding>
    var positions: map<PositionKey, Holding>
    var nextTrade: nat

    // Which handlers are between admission and matching, and the order of arrivals.
    ghost var inflight: set<Id>
    ghost var arrival: map<Id, nat>
    ghost var clock: nat

    ghost function View(): State
      reads this
    {
      State(markets, orders, balances, positions, inflight, arrival, clock, nextTrade)
    }

    ghost predicate Valid()
      reads this
    {
      Wf(View())
    }

    constructor (seed: map<PositionKey, Holding>)
      requires forall key | key in seed :: seed[key].Solvent()
      ensures Valid() && View() == State(map[], map[], map[], seed, {}, map[], 0, 0)
    {
      markets, orders, balances, positions := map[], map[], map[], seed;
      nextTrade, inflight, arrival, clock := 0, {}, map[], 0;
      new;
      forall event, outcome, side ensures QueueOk(View(), event, outcome, side) {
      }
    }

    // -------------------------------------------------------------------
    // Ledger
    // -------------------------------------------------------------------

    /** Open an account once. */
    method HandleUserCreated(user: Id) returns (ok: bool)
      requires Valid()
      modifies this`balances
      ensures Valid() && View() == UserCreated(old(View()), user)
      ensures ok <==> user != NO_ID
      ensures balances == if ok && user !in old(balances) then old(balances)[user := Holding(1_000_000, 0)] else old(balances)
    {
      UserCreatedWf(View(), user);
      ok := user != NO_ID;
      if ok && user !in balances {
        balances := balances[user := Holding(DEFAULT_STARTING_BALANCE, 0)];
      }
    }

    method GetOrCreateBalance(user: Id) returns (h: Holding)
      modifies this`balances
      ensures h == Get(old(balances), user) && balances == old(balances)[user := h]
    {
      if user !in balances {
        balances := balances[user := NOTHING];
      }
      h := balances[user];
      assert balances == old(balances)[user := h];
    }

    method GetOrCreatePosition(key: PositionKey) returns (h: Holding)
      modifies this`positions
      ensures h == Get(old(positions), key) && positions == old(positions)[key := h]
    {
      if key !in positions {
        positions := positions[key := NOTHING];
      }
      h := positions[key];
      assert positions == old(positions)[key := h];
    }

    method ReserveOrder(t: Terms) returns (r: Result<int>)
      modifies this`balances, this`positions
      ensures View() == Reserve(old(View()), t).state
      ensures r == (match Reserve(old(View()), t)
                    case Reserved(_, lock) => Ok(lock)
                    case Denied(_, error) => Err(error))
    {
      if t.side.Buy? {
        var h := GetOrCreateBalance(t.user);
        var cost := if t.kind.Market? then h.available else t.quantity * t.price;
        if cost > h.available {
          return Err(InsufficientFunds);
        }
        balances := balances[t.user := Holding(h.available - cost, h.reserved + cost)];
        assert balances == old(balances)[t.user := Holding(h.available - cost, h.reserved + cost)];
        return Ok(cost);
      }
      var h := GetOrCreatePosition(KeyOf(t));
      if h.available < t.quantity {
        return Err(InsufficientShares);
      }
      positions := positions[KeyOf(t) := Holding(h.available - t.quantity, h.reserved + t.quantity)];
      assert positions == old(positions)[KeyOf(t) := Holding(h.available - t.quantity, h.reserved + t.quantity)];
      return Ok(t.quantity);
    }

    /** Apply one trade: buyer cash and shares, seller cash and shares, then both locks. */
    method SettleTrade(t: Trade)
      modifies this`balances, this`positions, this`orders
      ensures View() == Settle(old(View()), t)
    {
      var cost := t.Cost();
      var buyer := GetOrCreateBalance(t.buyer);
      balances := balances[t.buyer := TakeReserved(buyer, cost)];
      assert balances == old(balances)[t.buyer := TakeReserved(buyer, cost)];
      var buyerPosition := GetOrCreatePosition(t.BuyerKey());
      positions := positions[t.BuyerKey() := Credit(buyerPosition, t.quantity)];
      assert positions == old(positions)[t.BuyerKey() := Credit(buyerPosition, t.quantity)];
      ghost var b1, p1 := balances, positions;
      var seller := GetOrCreateBalance(t.seller);
      balances := balances[t.seller := Credit(seller, cost)];
      assert balances == b1[t.seller := Credit(seller, cost)];
      var sellerPosition := GetOrCreatePosition(t.SellerKey());
      positions := positions[t.SellerKey() := TakeReserved(sellerPosition, t.quantity)];
      assert positions == p1[t.SellerKey() := TakeReserved(sellerPosition, t.quantity)];
      UnlockOrders(t);
    }

    /** Lower the locks of the taker and then the maker. */
    method UnlockOrders(t: Trade)
      modifies this`orders
      ensures orders == Unlock(Unlock(old(orders), t.taker, t), t.maker, t)
    {
      var ids := [t.taker, t.maker];
      for i := 0 to 2
        invariant orders == (if i == 0 then old(orders)
                             else if i == 1 then Unlock(old(orders), t.taker, t)
                             else Unlock(Unlock(old(orders), t.taker, t), t.maker, t))
      {
        if ids[i] in orders {
          var o := orders[ids[i]];
          orders := orders[ids[i] := o.(locked := Clamp(o.locked - (if o.terms.side.Buy? then t.Cost() else t.quantity)))];
        }
      }
    }

    method ReleaseOrder(id: Id)
      requires id in orders
      modifies this`balances, this`positions, this`orders
      ensures View() == Release(old(View()), id)
    {
      var o := orders[id];
      if o.locked <= 0 {
        return;
      }
      if o.terms.side.Buy? {
        var h := GetOrCreateBalance(o.terms.user);
        balances := balances[o.terms.user := Unfreeze(h, o.locked)];
        assert balances == old(balances)[o.terms.user := Unfreeze(h, o.locked)];
      } else {
        var h := GetOrCreatePosition(KeyOf(o.terms));
        positions := positions[KeyOf(o.terms) := Unfreeze(h, o.locked)];
        assert positions == old(positions)[KeyOf(o.terms) := Unfreeze(h, o.locked)];
      }
      orders := orders[id := o.(locked := 0)];
    }

    // -------------------------------------------------------------------
    // Matching
    // -------------------------------------------------------------------

    /** Drop finished orders from the front of a side. */
    method RemoveInvalid(queue: seq<Id>) returns (rest: seq<Id>)
      requires Known(orders, queue)
      ensures rest == DropStale(orders, queue)
      ensures |rest| <= |queue| && rest == queue[|queue| - |rest|..]
      ensures forall k :: 0 <= k < |queue| - |rest| ==>
                var o := orders[queue[k]]; o.status == Filled || o.status == Canceled || o.remaining <= 0
      ensures rest != [] ==>
                var o := orders[rest[0]]; o.status != Filled && o.status != Canceled && o.remaining > 0
    {
      hide DropStale, Stale;
      rest := queue;
      while |rest| > 0
        invariant Known(orders, rest) && DropStale(orders, rest) == DropStale(orders, queue)
        decreases |rest|
      {
        DropStep(orders, rest);
        if !Stale(orders[rest[0]]) {
          StaleMeans(orders, queue);
          return;
        }
        rest := rest[1..];
      }
      DropNone(orders);
      StaleMeans(orders, queue);
    }

    /** The first resting order that can trade with inc, skipping dead and own orders. */
    method FindCounterparty(queue: seq<Id>, inc: Id) returns (i: int)
      requires Known(orders, queue) && inc in orders
      ensures i == FirstEligible(orders, queue, inc)
      ensures -1 <= i < |queue| && (i >= 0 ==> Suits(orders[inc], orders[queue[i]]))
      ensures forall j :: 0 <= j < (if i < 0 then |queue| else i) ==> !Suits(orders[inc], orders[queue[j]])
    {
      i := 0;
      while i < |queue|
        invariant 0 <= i <= |queue|
        invariant forall j :: 0 <= j < i ==> !Eligible(orders, queue[j], inc)
      {
        var resting := orders[queue[i]];
        if !Dead(resting) && resting.terms.user != orders[inc].terms.user && CanMatch(orders[inc].terms, resting.terms) {
          return;
        }
        i := i + 1;
      }
      i := -1;
    }

    /** Trade the incoming order against the resting order at any position; nothing happens when one of them has nothing left. */
    method ExecutePair(inc: Id, queue: seq<Id>, i: nat) returns (rest: seq<Id>, trade: Option<Trade>)
      requires inc in orders && i < |queue| && queue[i] in orders && queue[i] != inc
      modifies this`orders, this`nextTrade
      ensures var taker, maker := old(orders)[inc], old(orders)[queue[i]];
              var quantity := Min(taker.remaining, maker.remaining);
              if quantity <= 0 then trade == None && rest == queue && orders == old(orders) && nextTrade == old(nextTrade)
              else
                && trade == Some(BuildTrade(taker.terms, maker.terms, quantity, old(nextTrade)))
                && orders == old(orders)[inc := FillTaker(taker, quantity)][queue[i] := FillMaker(maker, quantity)]
                && rest == (if quantity == maker.remaining then RemoveAt(queue, i) else queue)
                && nextTrade == old(nextTrade) + 1
    {
      var r := queue[i];
      var quantity := Min(orders[inc].remaining, orders[r].remaining);
      if quantity <= 0 {
        return queue, None;
      }
      trade := Some(BuildTrade(orders[inc].terms, orders[r].terms, quantity, nextTrade));
      nextTrade := nextTrade + 1;
      orders := orders[inc := FillTaker(orders[inc], quantity)];
      var maker := orders[r];
      orders := orders[r := FillMaker(maker, quantity)];
      rest := if orders[r].remaining <= 0 then queue[..i] + queue[i + 1..] else queue;
    }

    /** Walk the facing side until the order is filled or nothing can trade with it. */
    method MatchAgainstBook(queue: seq<Id>, inc: Id) returns (rest: seq<Id>, trades: seq<Trade>)
      requires inc in orders && Known(orders, queue) && Keyed(orders)
      modifies this`orders, this`nextTrade
      ensures Matched(orders, rest, trades) == MatchLoop(old(orders), queue, inc, old(nextTrade))
      ensures nextTrade == old(nextTrade) + |trades|
    {
      hide MatchLoop, TryPair, DropStale, FirstEligible, Known, Keyed, FillTaker, FillMaker, BuildTrade, RemoveAt;
      rest, trades := queue, [];
      while orders[inc].remaining > 0
        invariant inc in orders && Known(orders, rest) && Keyed(orders)
        invariant var m0 := MatchLoop(old(orders), queue, inc, old(nextTrade));
                  var m := MatchLoop(orders, rest, inc, nextTrade);
                  m0 == Matched(m.orders, m.queue, trades + m.trades)
        invariant nextTrade == old(nextTrade) + |trades|
        decreases orders[inc].remaining
      {
        ghost var before, next := rest, nextTrade;
        ghost var orders0, trades0 := orders, trades;
        rest := RemoveInvalid(rest);
        DropTwice(orders, before, inc, nextTrade);
        var i := FindCounterparty(rest, inc);
        if i < 0 {
          StopsShort(orders, before, inc, nextTrade);
          return;
        }
        PairIsRound(orders, rest, inc, nextTrade);
        LoopRound(orders, before, inc, nextTrade);
        var trade;
        rest, trade := ExecutePair(inc, rest, i);
        trades := trades + [trade.value];
        ghost var m := MatchLoop(orders, rest, inc, nextTrade);
        assert MatchLoop(orders0, before, inc, next).trades == [trade.value] + m.trades;
        assert trades0 + ([trade.value] + m.trades) == trades + m.trades;
      }
      StopsFilled(orders, rest, inc, nextTrade);
    }

    // -------------------------------------------------------------------
    // Books
    // -------------------------------------------------------------------

    /** Insert one order behind its equals. */
    method InsertSorted(side: Side, queue: seq<Id>, id: Id) returns (sorted: seq<Id>)
      requires Known(orders, queue) && id in orders
      ensures sorted == Insert(orders, side, queue, id)
    {
      hide Insert;
      var i := 0;
      assert queue[0..] == queue;
      while i < |queue| && !Better(side, orders[id].terms, orders[queue[i]].terms)
        invariant 0 <= i <= |queue|
        invariant Insert(orders, side, queue, id) == queue[..i] + Insert(orders, side, queue[i..], id)
      {
        InsertStep(orders, side, queue, i, id);
        assert queue[..i + 1] == queue[..i] + [queue[i]];
        i := i + 1;
      }
      InsertStep(orders, side, queue, i, id);
      sorted := queue[..i] + [id] + queue[i..];
    }

    /** Append an order to its side and restore price order, keeping ties in place. */
    method AddOrder(side: Side, queue: seq<Id>, id: Id) returns (sorted: seq<Id>)
      requires Known(orders, queue) && id in orders
      ensures sorted == AddToBook(orders, side, queue, id)
    {
      var all := queue + [id];
      sorted := [];
      for i := 0 to |all|
        invariant Known(orders, all[..i]) && Known(orders, sorted)
        invariant sorted == StableSort(orders, side, all[..i])
      {
        assert all[..i + 1][..i] == all[..i];
        ghost var done := sorted;
        sorted := InsertSorted(side, sorted, all[i]);
        InsertKnown(orders, side, done, all[i]);
      }
      assert all[..|all|] == all;
    }

    method RemoveOrder(queue: seq<Id>, id: Id) returns (rest: seq<Id>)
      ensures rest == RemoveId(queue, id)
    {
      hide RemoveId;
      assert queue[0..] == queue;
      for i := 0 to |queue|
        invariant RemoveId(queue, id) == queue[..i] + RemoveId(queue[i..], id)
      {
        RemoveStep(queue, i, id);
        if queue[i] == id {
          return queue[..i] + queue[i + 1..];
        }
        assert queue[..i + 1] == queue[..i] + [queue[i]];
      }
      RemoveNothing(id);
      assert queue[..|queue|] + [] == queue;
      rest := queue;
    }

    method SetSide(t: Terms, side: Side, queue: seq<Id>)
      requires t.event in markets
      modifies this`markets
      ensures View() == SetQueue(old(View()), t.event, t.outcome, side, queue)
    {
      var m := markets[t.event];
      markets := markets[t.event := m.WithBook(t.outcome, m.Book(t.outcome).WithQueue(side, queue))];
    }

    method HandleCreateEvent(event: Id) returns (ok: bool)
      requires Valid()
      modifies this`markets
      ensures Valid() && View() == CreateEvent(old(View()), event)
      ensures ok <==> event != NO_ID
    {
      CreateEventWf(View(), event);
      ok := event != NO_ID;
      if ok && event !in markets {
        markets := markets[event := EMPTY_MARKET];
      }
    }

    // -------------------------------------------------------------------
    // Handlers
    // -------------------------------------------------------------------

    /** The first critical section of handleCreateOrderCore. */
    method AdmitOrder(r: Request, freshId: Id) returns (a: Result<Option<Order>>)
      requires Valid()
      modifies this
      ensures Valid() && View() == Admit(old(View()), r, freshId).state
      ensures a == (match Admit(old(View()), r, freshId)
                    case Refused(_, error) => Err(error)
                    case Existing(_, _) => Ok(None)
                    case Admitted(_, o) => Ok(Some(o)))
    {
      AdmitWf(View(), r, freshId);
      var id := OrderId(r, freshId);
      var v := Validate(r, id);
      if v.Err? {
        return Err(v.error);
      }
      if id in orders {
        return Ok(None);
      }
      if r.eventId !in markets {
        return Err(EventNotFound);
      }
      ReserveBooks(View(), v.value);
      var lock := ReserveOrder(v.value);
      if lock.Err? {
        return Err(lock.error);
      }
      var o := NewOrder(v.value, lock.value);
      orders := orders[id := o];
      inflight := inflight + {id};
      return Ok(Some(o));
    }

    /** The order could not be published. */
    method ForgetOrder(id: Id)
      requires Valid() && id in inflight
      modifies this`orders, this`inflight
      ensures Valid() && View() == EmitFails(old(View()), id)
    {
      EmitFailsWf(View(), id);
      orders := orders - {id};
      inflight := inflight - {id};
    }

    /** The second critical section: match, rest, settle, release. */
    method MatchOrder(id: Id) returns (trades: seq<Trade>)
      requires Valid() && id in inflight && id in orders && Matchable(View(), id) && Keyed(orders)
      modifies this
      ensures Valid() && View() == Match(old(View()), id)
      ensures trades == TradesOf(old(View()), id)
    {
      hide Wf, Traded, MatchLoop, Settle, Release, Matchable, LoopOf;
      MatchWf(View(), id);
      if orders[id].status.Canceled? {
        inflight := inflight - {id};
        return [];
      }
      var t := orders[id].terms;
      if t.event !in markets {
        orders, inflight := orders[id := orders[id].(status := Rejected)], inflight - {id};
        return [];
      }
      trades := MatchAndRest(id, t);
      ghost var s1 := View();
      for i := 0 to |trades|
        invariant SettleAll(View(), trades[i..]) == SettleAll(s1, trades)
        invariant orders.Keys == s1.orders.Keys
      {
        assert trades[i..][0] == trades[i] && trades[i..][1..] == trades[i + 1..];
        SettleTrade(trades[i]);
      }
      assert trades[|trades|..] == [];
      if orders[id].status.Filled? || orders[id].status.Canceled? {
        ReleaseOrder(id);
      }
    }

    method MatchAndRest(id: Id, t: Terms) returns (trades: seq<Trade>)
      requires id in orders && t == orders[id].terms && t.event in markets && Matchable(View(), id) && Keyed(orders)
      modifies this`orders, this`markets, this`nextTrade, this`arrival, this`clock, this`inflight
      ensures View() == Traded(old(View()), id)
      ensures trades == LoopOf(old(View()), id).trades
    {
      hide MatchLoop, AddToBook, Keyed;
      ghost var s := View();
      MatchAccounts(orders, Facing(s, t), id, nextTrade);
      var rest;
      rest, trades := MatchAgainstBook(markets[t.event].Book(t.outcome).Queue(t.side.Opposite()), id);
      var status := AfterMatch(orders[id]);
      orders := orders[id := orders[id].(status := status)];
      inflight := inflight - {id};
      SetSide(t, t.side.Opposite(), rest);
      if status.Partial? || status.Pending? {
        var queue := AddOrder(t.side, markets[t.event].Book(t.outcome).Queue(t.side), id);
        SetSide(t, t.side, queue);
        arrival, clock := arrival[id := clock], clock + 1;
      }
    }

    method HandleCancelOrder(id: Id, event: Id) returns (r: Result<Id>)
      requires Valid()
      modifies this
      ensures Valid() && View() == Cancel(old(View()), id, event).state
      ensures r == Cancel(old(View()), id, event).result
    {
      StepInvariant.CancelWf(View(), id, event);
      if id == NO_ID {
        return Err(OrderIdRequired);
      }
      if id !in orders {
        return Err(OrderNotFound);
      }
      var o := orders[id];
      if event != NO_ID && o.terms.event != event {
        return Err(WrongEvent);
      }
      if o.status.Filled? || o.status.Canceled? || o.status.Rejected? {
        return Err(NotCancelable);
      }
      if o.terms.event !in markets {
        return Err(EventNotFound);
      }
      var queue := RemoveOrder(markets[o.terms.event].Book(o.terms.outcome).Queue(o.terms.side), id);
      SetSide(o.terms, o.terms.side, queue);
      orders := orders[id := o.(status := Canceled)];
      ReleaseOrder(id);
      return Ok(id);
    }

    /** handleCreateOrderCore as one partition worker runs it; published is the outcome of the emit. */
    method HandleCreateOrder(r: Request, freshId: Id, published: bool) returns (a: Result<Option<Order>>, trades: seq<Trade>)
      requires Valid()
      modifies this
      ensures Valid()
      ensures a == (match Admit(old(View()), r, freshId)
                    case Refused(_, error) => Err(error)
                    case Existing(_, _) => Ok(None)
                    case Admitted(_, o) => Ok(Some(o)))
      ensures var s0 := Admit(old(View()), r, freshId);
              var id := OrderId(r, freshId);
              if !s0.Admitted? then View() == s0.state && trades == []
              else if !published then View() == EmitFails(s0.state, id) && trades == []
              else id in s0.state.inflight && Matchable(s0.state, id) && Keyed(s0.state.orders)
                   && View() == Match(s0.state, id) && trades == TradesOf(s0.state, id)
    {
      trades := [];
      a := AdmitOrder(r, freshId);
      if a.Err? || a.value.None? {
        return;
      }
      var id := OrderId(r, freshId);
      if !published {
        ForgetOrder(id);
        return;
      }
      WfMatchable(View(), id);
      trades := MatchOrder(id);
    }
  }

  lemma InsertStep(orders: Orders, side: Side, queue: seq<Id>, i: nat, id: Id)
    requires Known(orders, queue) && id in orders && i <= |queue|
    ensures Insert(orders, side, queue[i..], id) ==
            if i < |queue| && !Better(side, orders[id].terms, orders[queue[i]].terms)
            then [queue[i]] + Insert(orders, side, queue[i + 1..], id)
            else [id] + queue[i..]
  {
    if i < |queue| {
      assert queue[i..][0] == queue[i] && queue[i..][1..] == queue[i + 1..];
    }
  }

  lemma RemoveStep(queue: seq<Id>, i: nat, id: Id)
    requires i < |queue|
    ensures RemoveId(queue[i..], id) ==
            if queue[i] == id then queue[i + 1..] else [queue[i]] + RemoveId(queue[i + 1..], id)
  {
    assert queue[i..][0] == queue[i] && queue[i..][1..] == queue[i + 1..];
  }

  lemma RemoveNothing(id: Id)
    ensures RemoveId([], id) == []
  {
  }

  /** On a cleaned queue, the pair at the first eligible position is the loop's next round. */
  lemma PairIsRound(orders: Orders, queue: seq<Id>, inc: Id, next: nat)
    requires inc in orders && Known(orders, queue) && Keyed(orders) && orders[inc].remaining > 0
    requires DropStale(orders, queue) == queue && FirstEligible(orders, queue, inc) >= 0
    ensures var i := FirstEligible(orders, queue, inc);
            var n := Min(orders[inc].remaining, orders[queue[i]].remaining);
            && n > 0 && queue[i] != inc
            && TryPair(orders, queue, inc, next) ==
               Pair(orders[inc := FillTaker(orders[inc], n)][queue[i] := FillMaker(orders[queue[i]], n)],
                    if n == orders[queue[i]].remaining then RemoveAt(queue, i) else queue,
                    BuildTrade(orders[inc].terms, orders[queue[i]].terms, n, next), queue[i])
            && Keyed(orders[inc := FillTaker(orders[inc], n)][queue[i] := FillMaker(orders[queue[i]], n)])
  {
    hide DropStale, FirstEligible;
  }

  lemma LoopRound(orders: Orders, queue: seq<Id>, inc: Id, next: nat)
    requires inc in orders && Known(orders, queue) && TryPair(orders, queue, inc, next).Pair?
    ensures var a := TryPair(orders, queue, inc, next);
            var m := MatchLoop(a.orders, a.queue, inc, next + 1);
            MatchLoop(orders, queue, inc, next) == Matched(m.orders, m.queue, [a.trade] + m.trades)
  {
    hide TryPair;
  }

  lemma StopsShort(orders: Orders, queue: seq<Id>, inc: Id, next: nat)
    requires inc in orders && Known(orders, queue) && orders[inc].remaining > 0
    requires Known(orders, DropStale(orders, queue)) && FirstEligible(orders, DropStale(orders, queue), inc) < 0
    ensures MatchLoop(orders, queue, inc, next) == Matched(orders, DropStale(orders, queue), [])
  {
    hide DropStale, FirstEligible;
  }

  lemma StopsFilled(orders: Orders, queue: seq<Id>, inc: Id, next: nat)
    requires inc in orders && Known(orders, queue) && orders[inc].remaining <= 0
    ensures MatchLoop(orders, queue, inc, next) == Matched(orders, queue, [])
  {
  }

  /** Dropping the stale front twice is dropping it once, and the loop does not notice. */
  lemma DropTwice(orders: Orders, queue: seq<Id>, inc: Id, next: nat)
    requires inc in orders && Known(orders, queue) && orders[inc].remaining > 0
    ensures var rest := DropStale(orders, queue);
            && Known(orders, rest) && DropStale(orders, rest) == rest
            && TryPair(orders, rest, inc, next) == TryPair(orders, queue, inc, next)
  {
    var rest := DropStale(orders, queue);
    assert forall i :: 0 <= i < |rest| ==> rest[i] == queue[|queue| - |rest| + i];
  }
}
