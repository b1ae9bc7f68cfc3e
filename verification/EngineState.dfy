/**
 The engine's state and its atomic sections, each a function on the state: the
 parts of the handlers in internal/engine/engine.go and internal/engine/ledger.go
 that run while the engine mutex is held.
 */
module EngineState {
  import opened Types
  import opened Matching

  /**
   inflight holds the orders that were admitted and not yet matched: a handler
   releases the mutex between the two to publish the order. arrival and clock
   record the order in which orders were added to a book.
   */
  datatype State = State(
    markets: map<Id, Market>,
    orders: Orders,
    balances: map<Id, Holding>,
    positions: map<PositionKey, Holding>,
    inflight: set<Id>,
    arrival: map<Id, nat>,
    clock: nat,
    nextTrade: nat)

  /** The resting orders on one side of one book; a missing market has none. */
  function Resting(s: State, event: Id, outcome: Outcome, side: Side): seq<Id> {
    if event in s.markets then s.markets[event].Book(outcome).Queue(side) else []
  }

  datatype Error =
    | BadQuantity | EventRequired | UserRequired | BadSide | BadOutcome | BadPrice | BadType
    | EventNotFound | InsufficientFunds | InsufficientShares
    | OrderIdRequired | OrderNotFound | WrongEvent | NotCancelable

  datatype Result<+T> = Ok(value: T) | Err(error: Error)

  // ---------------------------------------------------------------------
  // Requests
  // ---------------------------------------------------------------------

  datatype Request = Request(
    orderId: Id,
    eventId: Id,
    userId: Id,
    orderType: string,
    outcome: string,
    side: string,
    quantity: int,
    price: int)

  /** A request that passes validation. */
  predicate WellFormed(r: Request) {
    && r.quantity > 0 && r.eventId != NO_ID && r.userId != NO_ID
    && r.side in {"BUY", "SELL"} && r.outcome in {"YES", "NO"}
    && (r.orderType == "MARKET" || (r.orderType == "LIMIT" && r.price > 0))
  }

  /** The terms say what the request says. */
  predicate Carries(t: Terms, r: Request) {
    && t.event == r.eventId && t.user == r.userId && t.quantity == r.quantity && t.price == r.price
    && (t.kind.Market? <==> r.orderType == "MARKET") && (t.outcome.Yes? <==> r.outcome == "YES")
    && (t.side.Buy? <==> r.side == "BUY")
  }

  /** The terms of a request, or the first check it fails. */
  function Validate(r: Request, id: Id): (v: Result<Terms>)
    ensures v.Ok? <==> WellFormed(r)
    ensures v.Ok? ==> v.value.id == id && Carries(v.value, r)
    ensures v.Ok? ==> v.value.quantity > 0 && (v.value.kind.Limit? ==> v.value.price > 0)
  {
    if r.quantity <= 0 then Err(BadQuantity)
    else if r.eventId == NO_ID then Err(EventRequired)
    else if r.userId == NO_ID then Err(UserRequired)
    else if r.side != "BUY" && r.side != "SELL" then Err(BadSide)
    else if r.outcome != "YES" && r.outcome != "NO" then Err(BadOutcome)
    else if r.orderType != "LIMIT" && r.orderType != "MARKET" then Err(BadType)
    else if r.orderType == "LIMIT" && r.price <= 0 then Err(BadPrice)
    else Ok(Terms(id, r.eventId, r.userId,
                  if r.orderType == "LIMIT" then Limit else OrderType.Market,
                  if r.outcome == "YES" then Yes else No,
                  if r.side == "BUY" then Buy else Sell,
                  r.quantity, r.price))
  }

  // ---------------------------------------------------------------------
  // Ledger
  // ---------------------------------------------------------------------

  function SetBalance(s: State, user: Id, h: Holding): State {
    s.(balances := s.balances[user := h])
  }

  function SetPosition(s: State, key: PositionKey, h: Holding): State {
    s.(positions := s.positions[key := h])
  }

  function KeyOf(t: Terms): PositionKey {
    PositionKey(t.user, t.event, t.outcome)
  }

  datatype Reservation = Reserved(state: State, lock: int) | Denied(state: State, error: Error)

  /**
   Freeze what an order needs. The account entry is created even when the
   reservation is denied.
   */
  function Reserve(s: State, t: Terms): Reservation {
    if t.side.Buy? then
      var h := Get(s.balances, t.user);
      var cost := if t.kind.Market? then h.available else t.quantity * t.price;
      if cost > h.available then Denied(SetBalance(s, t.user, h), InsufficientFunds)
      else Reserved(SetBalance(s, t.user, Holding(h.available - cost, h.reserved + cost)), cost)
    else
      var h := Get(s.positions, KeyOf(t));
      if h.available < t.quantity then Denied(SetPosition(s, KeyOf(t), h), InsufficientShares)
      else Reserved(SetPosition(s, KeyOf(t), Holding(h.available - t.quantity, h.reserved + t.quantity)), t.quantity)
  }

  /** Lower an order's lock by what a trade used of it. */
  function Unlock(orders: Orders, id: Id, t: Trade): (orders': Orders)
    ensures orders'.Keys == orders.Keys
  {
    if id !in orders then orders else
      var o := orders[id];
      orders[id := o.(locked := Clamp(o.locked - (if o.terms.side.Buy? then t.Cost() else t.quantity)))]
  }

  function TakeReserved(h: Holding, cost: int): Holding {
    h.(reserved := Clamp(h.reserved - cost))
  }

  function Credit(h: Holding, amount: int): Holding {
    h.(available := h.available + amount)
  }

  /** Apply one trade to the ledger and to the locks of its two orders. */
  function Settle(s: State, t: Trade): (s': State)
    ensures s'.orders.Keys == s.orders.Keys
  {
    var b1 := s.balances[t.buyer := TakeReserved(Get(s.balances, t.buyer), t.Cost())];
    var p1 := s.positions[t.BuyerKey() := Credit(Get(s.positions, t.BuyerKey()), t.quantity)];
    var b2 := b1[t.seller := Credit(Get(b1, t.seller), t.Cost())];
    var p2 := p1[t.SellerKey() := TakeReserved(Get(p1, t.SellerKey()), t.quantity)];
    s.(balances := b2, positions := p2, orders := Unlock(Unlock(s.orders, t.taker, t), t.maker, t))
  }

  function SettleAll(s: State, trades: seq<Trade>): (s': State)
    ensures s'.orders.Keys == s.orders.Keys
    decreases trades
  {
    if trades == [] then s else SettleAll(Settle(s, trades[0]), trades[1..])
  }

  function Unfreeze(h: Holding, amount: int): Holding {
    Holding(h.available + amount, Clamp(h.reserved - amount))
  }

  /** Return what an order still has locked. */
  function Release(s: State, id: Id): State
    requires id in s.orders
  {
    var o := s.orders[id];
    if o.locked <= 0 then s else
      var s1 :=
        if o.terms.side.Buy?
        then SetBalance(s, o.terms.user, Unfreeze(Get(s.balances, o.terms.user), o.locked))
        else SetPosition(s, KeyOf(o.terms), Unfreeze(Get(s.positions, KeyOf(o.terms)), o.locked));
      s1.(orders := s1.orders[id := o.(locked := 0)])
  }

  // ---------------------------------------------------------------------
  // Books
  // ---------------------------------------------------------------------

  /** Insert behind every order that does not have strictly worse price. */
  function Insert(orders: Orders, side: Side, queue: seq<Id>, id: Id): seq<Id>
    requires Known(orders, queue) && id in orders
  {
    if queue == [] then [id]
    else if Better(side, orders[id].terms, orders[queue[0]].terms) then [id] + queue
    else [queue[0]] + Insert(orders, side, queue[1..], id)
  }

  /** A stable sort by price: each order is inserted behind its equals. */
  function StableSort(orders: Orders, side: Side, queue: seq<Id>): (sorted: seq<Id>)
    requires Known(orders, queue)
    ensures Known(orders, sorted)
  {
    if queue == [] then [] else
      var n := |queue| - 1;
      var sorted := StableSort(orders, side, queue[..n]);
      InsertKnown(orders, side, sorted, queue[n]);
      Insert(orders, side, sorted, queue[n])
  }

  lemma {:induction false} InsertKnown(orders: Orders, side: Side, queue: seq<Id>, id: Id)
    requires Known(orders, queue) && id in orders
    ensures Known(orders, Insert(orders, side, queue, id))
  {
    if queue != [] {
      InsertKnown(orders, side, queue[1..], id);
    }
  }

  /** Append and stable-sort. */
  function AddToBook(orders: Orders, side: Side, queue: seq<Id>, id: Id): seq<Id>
    requires Known(orders, queue) && id in orders
  {
    StableSort(orders, side, queue + [id])
  }

  /** Remove the first entry for an order. */
  function RemoveId(queue: seq<Id>, id: Id): seq<Id> {
    if queue == [] then []
    else if queue[0] == id then queue[1..]
    else [queue[0]] + RemoveId(queue[1..], id)
  }

  function SetQueue(s: State, event: Id, outcome: Outcome, side: Side, queue: seq<Id>): State
    requires event in s.markets
  {
    var m := s.markets[event];
    s.(markets := s.markets[event := m.WithBook(outcome, m.Book(outcome).WithQueue(side, queue))])
  }

  // ---------------------------------------------------------------------
  // Atomic sections
  // ---------------------------------------------------------------------

  function UserCreated(s: State, user: Id): State {
    if user == NO_ID || user in s.balances then s
    else SetBalance(s, user, Holding(DEFAULT_STARTING_BALANCE, 0))
  }

  function CreateEvent(s: State, event: Id): State {
    if event == NO_ID || event in s.markets then s
    else s.(markets := s.markets[event := EMPTY_MARKET])
  }

  datatype Admission =
    | Refused(state: State, error: Error)
    | Existing(state: State, status: Status)
    | Admitted(state: State, order: Order)

  function NewOrder(t: Terms, lock: int): Order {
    Order(t, 0, t.quantity, Pending, lock)
  }

  /** The identifier of a new order: the client's, or a fresh one. */
  function OrderId(r: Request, freshId: Id): Id {
    if r.orderId == NO_ID then freshId else r.orderId
  }

  /** Validation, duplicate check and reservation of a new order. */
  function Admit(s: State, r: Request, freshId: Id): Admission {
    var id := OrderId(r, freshId);
    var v := Validate(r, id);
    if v.Err? then Refused(s, v.error)
    else if id in s.orders then Existing(s, s.orders[id].status)
    else if r.eventId !in s.markets then Refused(s, EventNotFound)
    else
      match Reserve(s, v.value)
      case Denied(s1, error) => Refused(s1, error)
      case Reserved(s1, lock) =>
        var o := NewOrder(v.value, lock);
        Admitted(s1.(orders := s1.orders[id := o], inflight := s1.inflight + {id}), o)
  }

  /** Publishing the order failed: it is forgotten, its lock is not returned. */
  function EmitFails(s: State, id: Id): State {
    s.(orders := s.orders - {id}, inflight := s.inflight - {id})
  }

  /** Take an order out of its book and mark it canceled. */
  function Withdrawn(s: State, id: Id): State
    requires id in s.orders && s.orders[id].terms.event in s.markets
  {
    var t := s.orders[id].terms;
    SetQueue(s, t.event, t.outcome, t.side, RemoveId(Resting(s, t.event, t.outcome, t.side), id))
    .(orders := s.orders[id := s.orders[id].(status := Canceled)])
  }

  datatype Cancellation = Cancellation(state: State, result: Result<Id>)

  function Cancel(s: State, id: Id, event: Id): Cancellation {
    if id == NO_ID then Cancellation(s, Err(OrderIdRequired))
    else if id !in s.orders then Cancellation(s, Err(OrderNotFound))
    else
      var o := s.orders[id];
      if event != NO_ID && o.terms.event != event then Cancellation(s, Err(WrongEvent))
      else if o.status.Filled? || o.status.Canceled? || o.status.Rejected? then Cancellation(s, Err(NotCancelable))
      else if o.terms.event !in s.markets then Cancellation(s, Err(EventNotFound))
      else
        Cancellation(Release(Withdrawn(s, id), id), Ok(id))
  }

  /** The status an order is left with after the match loop. */
  function AfterMatch(o: Order): Status {
    if o.remaining == 0 then Filled
    else if o.filled > 0 then (if o.terms.kind.Limit? then Partial else Canceled)
    else if o.terms.kind.Market? then Canceled
    else Pending
  }

  /** The queues an order is matched against and would rest in. */
  function Facing(s: State, t: Terms): seq<Id> {
    Resting(s, t.event, t.outcome, t.side.Opposite())
  }

  function Beside(s: State, t: Terms): seq<Id> {
    Resting(s, t.event, t.outcome, t.side)
  }

  /** The order is known and so is everything in its book. */
  predicate Matchable(s: State, id: Id) {
    && id in s.orders
    && Known(s.orders, Facing(s, s.orders[id].terms))
    && Known(s.orders, Beside(s, s.orders[id].terms))
  }

  function LoopOf(s: State, id: Id): Matched
    requires Matchable(s, id)
  {
    MatchLoop(s.orders, Facing(s, s.orders[id].terms), id, s.nextTrade)
  }

  /** The trades an order makes when it is matched. */
  function TradesOf(s: State, id: Id): seq<Trade>
    requires Matchable(s, id)
  {
    if s.orders[id].status.Canceled? || s.orders[id].terms.event !in s.markets then []
    else LoopOf(s, id).trades
  }

  /** Orders and books after the match loop, before any settlement. */
  function Traded(s: State, id: Id): (s': State)
    requires Matchable(s, id) && s.orders[id].terms.event in s.markets && Keyed(s.orders)
    ensures s'.orders.Keys == s.orders.Keys
  {
    var t := s.orders[id].terms;
    var m := LoopOf(s, id);
    MatchAccounts(s.orders, Facing(s, t), id, s.nextTrade);
    var status := AfterMatch(m.orders[id]);
    var orders := m.orders[id := m.orders[id].(status := status)];
    var s1 := SetQueue(s, t.event, t.outcome, t.side.Opposite(), m.queue)
      .(orders := orders, inflight := s.inflight - {id}, nextTrade := s.nextTrade + |m.trades|);
    if status.Partial? || status.Pending? then
      SetQueue(s1, t.event, t.outcome, t.side, AddToBook(orders, t.side, Beside(s, t), id))
      .(arrival := s.arrival[id := s.clock], clock := s.clock + 1)
    else s1
  }

  /** Match one admitted order, settle its trades and release it when it is done. */
  function Match(s: State, id: Id): State
    requires Matchable(s, id) && Keyed(s.orders)
  {
    if s.orders[id].status.Canceled? then s.(inflight := s.inflight - {id})
    else if s.orders[id].terms.event !in s.markets then
      s.(orders := s.orders[id := s.orders[id].(status := Rejected)], inflight := s.inflight - {id})
    else
      var s1 := Traded(s, id);
      var s2 := SettleAll(s1, TradesOf(s, id));
      if s2.orders[id].status.Filled? || s2.orders[id].status.Canceled? then Release(s2, id) else s2
  }
}
