/**
 The entities of the matching engine: orders, trades, holdings, order books
 and markets, with the engine's constants.
 */
module Types {

  /** Identifiers are opaque strings in the engine and only ever compared. */
  type Id = int

  /** The empty identifier, which requests use for "not given". */
  const NO_ID: Id := 0

  /** Prices and cash are fixed-point integers in units of 1/10000. */
  const PRICE_SCALE := 10000

  const DEFAULT_STARTING_BALANCE := 100 * PRICE_SCALE

  datatype Option<+T> = None | Some(value: T)

  datatype Side = Buy | Sell {
    function Opposite(): Side {
      if Buy? then Sell else Buy
    }
  }

  datatype Outcome = Yes | No

  datatype OrderType = Limit | Market

  datatype Status = Pending | Partial | Filled | Canceled | Rejected

  /** The part of an order that is fixed when the order is created. */
  datatype Terms = Terms(
    id: Id,
    event: Id,
    user: Id,
    kind: OrderType,
    outcome: Outcome,
    side: Side,
    quantity: int,
    price: int)

  /** An order: its terms and what the engine updates as it trades. */
  datatype Order = Order(
    terms: Terms,
    filled: int,
    remaining: int,
    status: Status,
    locked: int)
  {
    /** An order that can still trade or be canceled. */
    predicate Live() {
      status.Pending? || status.Partial?
    }
  }

  datatype Trade = Trade(
    id: nat,
    taker: Id,
    maker: Id,
    event: Id,
    outcome: Outcome,
    buyer: Id,
    seller: Id,
    takerSide: Side,
    quantity: int,
    price: int)
  {
    function Cost(): int {
      quantity * price
    }

    /** The order of the pair that buys. */
    function BuyOrder(): Id {
      if takerSide.Buy? then taker else maker
    }

    /** The order of the pair that sells. */
    function SellOrder(): Id {
      if takerSide.Buy? then maker else taker
    }

    predicate Names(order: Id) {
      taker == order || maker == order
    }

    function BuyerKey(): PositionKey {
      PositionKey(buyer, event, outcome)
    }

    function SellerKey(): PositionKey {
      PositionKey(seller, event, outcome)
    }
  }

  /** Cash of one user, or shares of one user in one (event, outcome). */
  datatype Holding = Holding(available: int, reserved: int) {
    function Total(): int {
      available + reserved
    }

    predicate Solvent() {
      available >= 0 && reserved >= 0
    }
  }

  datatype PositionKey = PositionKey(user: Id, event: Id, outcome: Outcome)

  /** Resting orders by identifier: bids highest price first, asks lowest first. */
  datatype OrderBook = OrderBook(bids: seq<Id>, asks: seq<Id>) {
    function Queue(side: Side): seq<Id> {
      if side.Buy? then bids else asks
    }

    function WithQueue(side: Side, queue: seq<Id>): OrderBook {
      if side.Buy? then OrderBook(queue, asks) else OrderBook(bids, queue)
    }
  }

  const EMPTY_BOOK := OrderBook([], [])

  datatype Market = Books(yes: OrderBook, no: OrderBook) {
    function Book(outcome: Outcome): OrderBook {
      if outcome.Yes? then yes else no
    }

    function WithBook(outcome: Outcome, book: OrderBook): Market {
      if outcome.Yes? then Books(book, no) else Books(yes, book)
    }
  }

  const EMPTY_MARKET := Books(EMPTY_BOOK, EMPTY_BOOK)

  function Min(a: int, b: int): int {
    if a < b then a else b
  }

  /** The ledger's clamp: a negative balance or lock is set to zero. */
  function Clamp(v: int): int {
    if v < 0 then 0 else v
  }

  const NOTHING: Holding := Holding(0, 0)

  /** A map entry that is absent reads as an empty holding. */
  function Get<K>(m: map<K, Holding>, k: K): Holding {
    if k in m then m[k] else NOTHING
  }

  lemma GetSet<K>(m: map<K, Holding>, k: K, h: Holding, x: K)
    ensures Get(m[k := h], x) == if x == k then h else Get(m, x)
  {
  }
}
