/**
 The Postgres projection: the tables, the statements of internal/repository as
 steps on them, and the settlement transaction of internal/dbworker/worker.go.
 */
module Database {
  import opened Types
  import opened Commands
  import Fencing
  import Sums

  datatype OrderRow = OrderRow(terms: Terms, filled: int, remaining: int, status: Status)

  datatype Transaction = Transaction(
    user: Id, order: Id, trade: nat, kind: Side, outcome: Outcome, quantity: int, price: int, amount: int)

  /** users holds balances and volumes the traded volume of each event, both in 1/10000. */
  datatype Tables = Tables(
    users: map<Id, int>,
    volumes: map<Id, int>,
    orders: map<Id, OrderRow>,
    trades: map<nat, Trade>,
    positions: map<PositionKey, int>,
    transactions: seq<Transaction>)

  datatype Failure = InvalidTrade | ForeignKey | CheckViolation | InsufficientBalance | Unavailable

  datatype Effect = Done(tables: Tables) | Failed(error: Failure)

  // ---------------------------------------------------------------------
  // Orders
  // ---------------------------------------------------------------------

  /** INSERT of an order; a redelivered order hits the primary key and is ignored. */
  function InsertOrder(db: Tables, o: Order): Effect {
    if o.terms.quantity <= 0 || o.terms.price < 0 then Failed(CheckViolation)
    else if o.terms.id in db.orders then Done(db)
    else if o.terms.event !in db.volumes || o.terms.user !in db.users then Failed(ForeignKey)
    else Done(db.(orders := db.orders[o.terms.id := OrderRow(o.terms, o.filled, o.remaining, o.status)]))
  }

  /** UPDATE of the status; a missing row is not an error. */
  function UpdateOrderStatus(db: Tables, id: Id, status: Status): Tables {
    if id in db.orders then db.(orders := db.orders[id := db.orders[id].(status := status)]) else db
  }

  function FilledRow(row: OrderRow, quantity: int): OrderRow {
    row.(filled := row.filled + quantity,
         remaining := Clamp(row.terms.quantity - (row.filled + quantity)),
         status := if row.filled + quantity >= row.terms.quantity then Filled else Partial)
  }

  function UpdateOrderFill(db: Tables, id: Id, quantity: int): Tables
    requires id in db.orders
  {
    db.(orders := db.orders[id := FilledRow(db.orders[id], quantity)])
  }

  // ---------------------------------------------------------------------
  // Settlement
  // ---------------------------------------------------------------------

  predicate ValidTrade(t: Trade) {
    && t.event != NO_ID && t.taker != NO_ID && t.maker != NO_ID && t.buyer != NO_ID && t.seller != NO_ID
    && t.quantity > 0 && t.price >= 0
  }

  /** The rows a trade refers to. */
  predicate References(db: Tables, t: Trade) {
    t.event in db.volumes && t.taker in db.orders && t.maker in db.orders && t.buyer in db.users && t.seller in db.users
  }

  function SharesAt(db: Tables, key: PositionKey): int {
    if key in db.positions then db.positions[key] else 0
  }

  function AddShares(db: Tables, key: PositionKey, n: int): Tables {
    db.(positions := db.positions[key := SharesAt(db, key) + n])
  }

  function BuyerRow(t: Trade): Transaction {
    Transaction(t.buyer, t.taker, t.id, Buy, t.outcome, t.quantity, t.price, t.Cost())
  }

  function SellerRow(t: Trade): Transaction {
    Transaction(t.seller, t.maker, t.id, Sell, t.outcome, t.quantity, t.price, t.Cost())
  }

  /** The settlement transaction without infrastructure failures. */
  function SettleTrade(db: Tables, t: Trade): Effect {
    if !ValidTrade(t) then Failed(InvalidTrade)
    else if t.id in db.trades then Done(db)
    else if !References(db, t) then Failed(ForeignKey)
    else if db.users[t.buyer] < t.Cost() then Failed(InsufficientBalance)
    else Done(Applied(db, t))
  }

  function Applied(db: Tables, t: Trade): Tables
    requires References(db, t)
  {
    var db1 := UpdateOrderFill(UpdateOrderFill(db, t.taker, t.quantity), t.maker, t.quantity);
    var paid := db1.users[t.buyer := db1.users[t.buyer] - t.Cost()];
    var db2 := db1.(trades := db1.trades[t.id := t], users := paid[t.seller := paid[t.seller] + t.Cost()]);
    Recorded(db2, t)
  }

  function Recorded(db: Tables, t: Trade): Tables
    requires t.event in db.volumes
  {
    AddShares(AddShares(db, t.BuyerKey(), t.quantity), t.SellerKey(), -t.quantity)
    .(transactions := db.transactions + [BuyerRow(t), SellerRow(t)],
      volumes := db.volumes[t.event := db.volumes[t.event] + t.Cost()])
  }

  /** One event of the stream. */
  function ApplyEvent(db: Tables, e: Event): Effect {
    match e
    case OrderCreated(o) => InsertOrder(db, o)
    case TradeExecuted(t) => SettleTrade(db, t)
    case OrderCanceled(id) => Done(UpdateOrderStatus(db, id, Canceled))
  }

  /**
   A trade is settled if and only if it is well formed and either known, or its rows are
   there and the buyer can pay; the first check that fails names the error.
   */
  lemma SettledExactlyWhen(db: Tables, t: Trade)
    ensures var named := t.event != NO_ID && t.taker != NO_ID && t.maker != NO_ID && t.buyer != NO_ID && t.seller != NO_ID;
            var known := t.id in db.trades;
            var rows := t.event in db.volumes && t.taker in db.orders && t.maker in db.orders
                        && t.buyer in db.users && t.seller in db.users;
            var e := SettleTrade(db, t);
            && (e == Failed(InvalidTrade) <==> !(named && t.quantity > 0 && t.price >= 0))
            && (e == Failed(ForeignKey) <==> named && t.quantity > 0 && t.price >= 0 && !known && !rows)
            && (e == Failed(InsufficientBalance) <==>
                  named && t.quantity > 0 && t.price >= 0 && !known && rows && db.users[t.buyer] < t.quantity * t.price)
            && (e.Done? <==> named && t.quantity > 0 && t.price >= 0 && (known || (rows && db.users[t.buyer] >= t.quantity * t.price)))
            && (e.Done? && known ==> e.tables == db)
  {
    hide Applied;
  }

  /** An order's row is inserted, ignored or rejected. */
  lemma InsertedExactlyWhen(db: Tables, o: Order)
    ensures var e := InsertOrder(db, o);
            && (e == Failed(CheckViolation) <==> o.terms.quantity <= 0 || o.terms.price < 0)
            && (e == Failed(ForeignKey) <==>
                  o.terms.quantity > 0 && o.terms.price >= 0 && o.terms.id !in db.orders
                  && (o.terms.event !in db.volumes || o.terms.user !in db.users))
            && (e.Done? ==> o.terms.id in e.tables.orders && (o.terms.id in db.orders ==> e.tables == db))
            && (e.Done? && o.terms.id !in db.orders ==>
                  var row := e.tables.orders[o.terms.id];
                  row.terms == o.terms && row.filled == o.filled && row.remaining == o.remaining && row.status == o.status)
            && (e.Done? || e == Failed(CheckViolation) || e == Failed(ForeignKey))
  {
  }

  // ---------------------------------------------------------------------
  // The transaction as the worker runs it
  // ---------------------------------------------------------------------

  class Worker {
    var users: map<Id, int>
    var volumes: map<Id, int>
    var orders: map<Id, OrderRow>
    var trades: map<nat, Trade>
    var positions: map<PositionKey, int>
    var transactions: seq<Transaction>

    function View(): Tables
      reads this
    {
      Tables(users, volumes, orders, trades, positions, transactions)
    }

    constructor (db: Tables)
      ensures View() == db
    {
      users, volumes, orders := db.users, db.volumes, db.orders;
      trades, positions, transactions := db.trades, db.positions, db.transactions;
    }

    method Rollback(db: Tables)
      modifies this
      ensures View() == db
    {
      users, volumes, orders := db.users, db.volumes, db.orders;
      trades, positions, transactions := db.trades, db.positions, db.transactions;
    }

    /** A unique violation means the order is already there. */
    method HandleOrderCreated(o: Order) returns (error: Option<Failure>)
      modifies this`orders
      ensures match InsertOrder(old(View()), o)
              case Done(db) => error.None? && View() == db
              case Failed(e) => error == Some(e) && View() == old(View())
    {
      if o.terms.quantity <= 0 || o.terms.price < 0 {
        return Some(CheckViolation);
      }
      if o.terms.id in orders {
        return None;
      }
      if o.terms.event !in volumes || o.terms.user !in users {
        return Some(ForeignKey);
      }
      orders := orders[o.terms.id := OrderRow(o.terms, o.filled, o.remaining, o.status)];
      return None;
    }

    method HandleOrderCanceled(id: Id)
      modifies this`orders
      ensures View() == UpdateOrderStatus(old(View()), id, Canceled)
    {
      if id in orders {
        orders := orders[id := orders[id].(status := Canceled)];
      }
    }

    /**
     Check the fence, then apply. A stale envelope is dropped without an error; current
     is the partition's counter as read from Redis, None when it could not be read. The
     connection to the database is lost at statement fault, as in Settle; the handlers of
     a creation and of a cancellation have one statement, which 11 lets take effect.
     */
    method HandleEnvelope(token: nat, current: Option<Option<nat>>, e: Event, fault: nat) returns (error: Option<Failure>)
      modifies this
      ensures current.None? ==> error.Some? && View() == old(View())
      ensures current.Some? && current.value.Some? && token != 0 && token < current.value.value ==>
                error.None? && View() == old(View())
      ensures current.Some? && (current.value.None? || token == 0 || token >= current.value.value) ==>
                && (error.None? ==> ApplyEvent(old(View()), e) == Done(View()))
                && (error.Some? ==> View() == old(View()) || (fault == 11 && ApplyEvent(old(View()), e) == Done(View())))
                && (fault == 0 ==> (error.None? <==> ApplyEvent(old(View()), e).Done?))
    {
      hide SettleTrade, InsertOrder, UpdateOrderStatus;
      if current.None? {
        return Some(Unavailable);
      }
      if !Fencing.Accepts(token, current.value) {
        return None;
      }
      match e {
        case TradeExecuted(t) => error := Settle(t, fault);
        case OrderCreated(o) =>
          if fault != 0 && fault != 11 {
            return Some(Unavailable);
          }
          error := HandleOrderCreated(o);
          if fault == 11 {
            error := Some(Unavailable);
          }
        case OrderCanceled(id) =>
          if fault != 0 && fault != 11 {
            return Some(Unavailable);
          }
          HandleOrderCanceled(id);
          error := if fault == 11 then Some(Unavailable) else None;
      }
    }

    /** Read the row, derive the status, update the fill. */
    method ApplyOrderFill(id: Id, quantity: int) returns (ok: bool)
      modifies this`orders
      ensures ok <==> id in old(orders)
      ensures View() == if ok then UpdateOrderFill(old(View()), id, quantity) else old(View())
    {
      ok := id in orders;
      if ok {
        var row := orders[id];
        var newFilled := row.filled + quantity;
        var status := Partial;
        if newFilled >= row.terms.quantity {
          status := Filled;
        }
        orders := orders[id := row.(filled := newFilled, remaining := Clamp(row.terms.quantity - newFilled), status := status)];
      }
    }

    /** Guarded: no row is updated when the balance is too small. */
    method DeductBalance(user: Id, amount: int) returns (rows: nat)
      modifies this`users
      ensures rows == (if user in old(users) && old(users)[user] >= amount then 1 else 0)
      ensures users == if rows == 1 then old(users)[user := old(users)[user] - amount] else old(users)
    {
      rows := 0;
      if user in users && users[user] >= amount {
        users, rows := users[user := users[user] - amount], 1;
      }
    }

    method AddBalance(user: Id, amount: int)
      modifies this`users
      ensures users == if user in old(users) then old(users)[user := old(users)[user] + amount] else old(users)
    {
      if user in users {
        users := users[user := users[user] + amount];
      }
    }

    method UpsertPosition(key: PositionKey, shares: int)
      modifies this`positions
      ensures View() == AddShares(old(View()), key, shares)
    {
      if key in positions {
        positions := positions[key := positions[key] + shares];
      } else {
        positions := positions[key := shares];
      }
    }

    /** Buyer pays, seller receives. */
    method Pay(t: Trade, fault: nat) returns (ok: bool)
      requires t.buyer in users && t.seller in users
      modifies this`users
      ensures ok ==> old(users)[t.buyer] >= t.Cost()
      ensures ok ==> var paid := old(users)[t.buyer := old(users)[t.buyer] - t.Cost()];
                     users == paid[t.seller := paid[t.seller] + t.Cost()]
      ensures fault == 0 ==> (ok <==> old(users)[t.buyer] >= t.Cost())
    {
      var rows := DeductBalance(t.buyer, t.Cost());
      if rows == 0 || fault == 4 {
        return false;
      }
      AddBalance(t.seller, t.Cost());
      return fault != 5;
    }

    /** Positions, ledger rows and event volume. */
    method Record(t: Trade, fault: nat) returns (ok: bool)
      requires t.event in volumes
      modifies this`positions, this`transactions, this`volumes
      ensures ok ==> View() == Recorded(old(View()), t)
      ensures fault == 0 ==> ok
    {
      UpsertPosition(t.BuyerKey(), t.quantity);
      if fault == 6 {
        return false;
      }
      UpsertPosition(t.SellerKey(), -t.quantity);
      if fault == 7 {
        return false;
      }
      transactions := transactions + [BuyerRow(t)];
      if fault == 8 {
        return false;
      }
      transactions := transactions + [SellerRow(t)];
      if fault == 9 {
        return false;
      }
      assert transactions == old(transactions) + [BuyerRow(t), SellerRow(t)];
      volumes := volumes[t.event := volumes[t.event] + t.Cost()];
      return fault != 10;
    }

    /** The statements after the insert; on failure the tables are left as they are. */
    method Statements(t: Trade, fault: nat) returns (ok: bool)
      requires References(View(), t)
      modifies this
      ensures ok ==> users.Keys == old(users).Keys && old(users)[t.buyer] >= t.Cost() && View() == Applied(old(View()), t)
      ensures fault == 0 ==> (ok <==> old(users)[t.buyer] >= t.Cost())
    {
      hide Recorded, FilledRow;
      ghost var db := View();
      trades := trades[t.id := t];
      ok := ApplyOrderFill(t.taker, t.quantity);
      if !ok || fault == 2 {
        return false;
      }
      ok := ApplyOrderFill(t.maker, t.quantity);
      if !ok || fault == 3 {
        return false;
      }
      assert View() == UpdateOrderFill(UpdateOrderFill(db, t.taker, t.quantity), t.maker, t.quantity).(trades := db.trades[t.id := t]);
      ok := Pay(t, fault);
      if !ok {
        return false;
      }
      assert users.Keys == db.users.Keys;
      ok := Record(t, fault);
    }

    /**
     The settlement transaction. The connection is lost at statement fault, when
     that statement is reached: 10 is a commit that does not take effect, 11 one that
     does although its acknowledgement is lost. Any other error rolls everything back.
     */
    method Settle(t: Trade, fault: nat) returns (error: Option<Failure>)
      modifies this
      ensures error.Some? ==> View() == old(View()) || (fault == 11 && SettleTrade(old(View()), t) == Done(View()))
      ensures error.None? ==> SettleTrade(old(View()), t) == Done(View())
      ensures fault == 0 ==> (error.None? <==> SettleTrade(old(View()), t).Done?)
    {
      hide Applied;
      if !ValidTrade(t) {
        return Some(InvalidTrade);
      }
      var snapshot := View();
      if fault == 1 {
        return Some(Unavailable);
      }
      if t.id in trades {
        return None;
      }
      if !References(snapshot, t) {
        return Some(ForeignKey);
      }
      var ok := Statements(t, fault);
      if !ok {
        Rollback(snapshot);
        return Some(if fault == 0 then InsufficientBalance else Unavailable);
      }
      if fault == 11 {
        return Some(Unavailable);
      }
      return None;
    }
  }

  // ---------------------------------------------------------------------
  // What the tables say, trade by trade
  // ---------------------------------------------------------------------

  /** A number the projection maintains. */
  datatype Measure = CashOf(user: Id) | SharesOf(key: PositionKey) | VolumeOf(event: Id) | FillOf(order: Id)

  function Level(db: Tables, m: Measure): int {
    match m
    case CashOf(user) => if user in db.users then db.users[user] else 0
    case SharesOf(key) => SharesAt(db, key)
    case VolumeOf(event) => if event in db.volumes then db.volumes[event] else 0
    case FillOf(order) => if order in db.orders then db.orders[order].filled else 0
  }

  /** What one trade contributes to a measure. */
  function Amount(m: Measure, t: Trade): int {
    match m
    case CashOf(user) => (if t.seller == user then t.Cost() else 0) - (if t.buyer == user then t.Cost() else 0)
    case SharesOf(key) => (if t.BuyerKey() == key then t.quantity else 0) - (if t.SellerKey() == key then t.quantity else 0)
    case VolumeOf(event) => if t.event == event then t.Cost() else 0
    case FillOf(order) => (if t.taker == order then t.quantity else 0) + (if t.maker == order then t.quantity else 0)
  }

  ghost function Amounts(trades: map<nat, Trade>, m: Measure): map<nat, int> {
    map id | id in trades :: Amount(m, trades[id])
  }

  /** The sum of a measure over a table of trades. */
  ghost function Total(trades: map<nat, Trade>, m: Measure): int {
    Sums.Sum(Amounts(trades, m))
  }

  lemma TotalAdd(trades: map<nat, Trade>, t: Trade, m: Measure)
    requires t.id !in trades
    ensures Total(trades[t.id := t], m) == Total(trades, m) + Amount(m, t)
  {
    assert Amounts(trades[t.id := t], m) == Amounts(trades, m)[t.id := Amount(m, t)];
    Sums.Update(Amounts(trades, m), t.id, Amount(m, t));
  }

  lemma AppliedLevel(db: Tables, t: Trade, m: Measure)
    requires References(db, t)
    ensures Level(Applied(db, t), m) == Level(db, m) + Amount(m, t)
  {
  }

  /** How many rows of one kind name a trade. */
  function CountFor(rows: seq<Transaction>, trade: nat, kind: Side): nat {
    if rows == [] then 0
    else (if rows[0].trade == trade && rows[0].kind == kind then 1 else 0) + CountFor(rows[1..], trade, kind)
  }

  lemma {:induction false} CountAppend(a: seq<Transaction>, b: seq<Transaction>, trade: nat, kind: Side)
    ensures CountFor(a + b, trade, kind) == CountFor(a, trade, kind) + CountFor(b, trade, kind)
  {
    if a == [] {
      assert a + b == b;
    } else {
      assert (a + b)[0] == a[0] && (a + b)[1..] == a[1..] + b;
      CountAppend(a[1..], b, trade, kind);
    }
  }

  lemma CountOne(row: Transaction, trade: nat, kind: Side)
    ensures CountFor([row], trade, kind) == if row.trade == trade && row.kind == kind then 1 else 0
  {
    assert [row][1..] == [];
  }

  lemma AppliedCount(db: Tables, t: Trade, trade: nat, kind: Side)
    requires References(db, t)
    ensures CountFor(Applied(db, t).transactions, trade, kind)
         == CountFor(db.transactions, trade, kind) + (if trade == t.id then 1 else 0)
  {
    var rows := [BuyerRow(t), SellerRow(t)];
    CountAppend(db.transactions, rows, trade, kind);
    assert rows == [BuyerRow(t)] + [SellerRow(t)];
    CountAppend([BuyerRow(t)], [SellerRow(t)], trade, kind);
    CountOne(BuyerRow(t), trade, kind);
    CountOne(SellerRow(t), trade, kind);
  }

  /** What a row says of its trade, field by field. */
  predicate Tells(row: Transaction, t: Trade) {
    && row.quantity == t.quantity && row.price == t.price && row.outcome == t.outcome
    && row.amount == t.quantity * t.price
    && (row.kind == Buy ==> row.user == t.buyer && row.order == t.taker)
    && (row.kind == Sell ==> row.user == t.seller && row.order == t.maker)
  }

  /** The rows written since db0 each tell a settled trade, and there is one of each kind for each of them. */
  ghost predicate RowsTell(db0: Tables, db: Tables) {
    && db0.transactions <= db.transactions
    && (forall i :: |db0.transactions| <= i < |db.transactions| ==>
          db.transactions[i].trade in db.trades && Tells(db.transactions[i], db.trades[db.transactions[i].trade]))
    && (forall trade: nat, kind: Side ::
          CountFor(db.transactions, trade, kind) == CountFor(db0.transactions, trade, kind) + (if trade in db.trades then 1 else 0))
  }

  lemma AppliedRowsTell(db0: Tables, db: Tables, t: Trade)
    requires References(db, t) && t.id !in db.trades && RowsTell(db0, db)
    ensures RowsTell(db0, Applied(db, t))
  {
    hide CountFor;
    var db' := Applied(db, t);
    AppliedKeys(db, t);
    assert db'.transactions == db.transactions + [BuyerRow(t), SellerRow(t)];
    forall trade: nat, kind: Side
      ensures CountFor(db'.transactions, trade, kind) == CountFor(db0.transactions, trade, kind) + (if trade in db'.trades then 1 else 0)
    {
      AppliedCount(db, t, trade, kind);
    }
    forall i | |db0.transactions| <= i < |db'.transactions|
      ensures db'.transactions[i].trade in db'.trades && Tells(db'.transactions[i], db'.trades[db'.transactions[i].trade])
    {
      if i < |db.transactions| {
        assert db'.transactions[i] == db.transactions[i];
      } else {
        assert db'.transactions[i] == BuyerRow(t) || db'.transactions[i] == SellerRow(t);
      }
    }
  }

  /** Some settled trade filled the order. */
  ghost predicate HasFills(trades: map<nat, Trade>, id: Id) {
    exists trade :: trade in trades && trades[trade].Names(id)
  }

  /** The row of an order follows from its quantity and its fills; an order without fills keeps its row. */
  ghost predicate RowFollows(db0: Tables, db: Tables, id: Id)
    requires id in db0.orders && id in db.orders
  {
    var row := db.orders[id];
    && row.terms == db0.orders[id].terms
    && if HasFills(db.trades, id) then
         && row.remaining == Clamp(row.terms.quantity - row.filled)
         && row.status == (if row.filled >= row.terms.quantity then Filled else Partial)
       else row == db0.orders[id]
  }

  lemma AppliedRowFollows(db0: Tables, db: Tables, t: Trade, id: Id)
    requires References(db, t) && t.id !in db.trades && id in db0.orders && id in db.orders && RowFollows(db0, db, id)
    ensures id in Applied(db, t).orders && RowFollows(db0, Applied(db, t), id)
  {
    hide Recorded;
    var db' := Applied(db, t);
    AppliedKeys(db, t);
    AppliedOrder(db, t, id);
    assert db'.trades[t.id] == t;
    if HasFills(db.trades, id) {
      var x :| x in db.trades && db.trades[x].Names(id);
      assert db'.trades[x].Names(id);
    }
    if HasFills(db'.trades, id) && !t.Names(id) {
      var x :| x in db'.trades && db'.trades[x].Names(id);
      assert x in db.trades && db.trades[x].Names(id);
    }
  }

  /** The two orders of a trade are filled one after the other, the same order twice if it trades with itself. */
  lemma AppliedOrder(db: Tables, t: Trade, id: Id)
    requires References(db, t) && id in db.orders
    ensures id in Applied(db, t).orders
    ensures var row := db.orders[id];
            Applied(db, t).orders[id] ==
            if t.taker == id && t.maker == id then FilledRow(FilledRow(row, t.quantity), t.quantity)
            else if t.Names(id) then FilledRow(row, t.quantity) else row
  {
  }

  /** The tables are those of db0 plus, for each measure, the settled trades, each counted once. */
  ghost predicate Reflects(db0: Tables, db: Tables) {
    && db.users.Keys == db0.users.Keys && db.volumes.Keys == db0.volumes.Keys && db.orders.Keys == db0.orders.Keys
    && (forall id | id in db.trades :: ValidTrade(db.trades[id]) && db.trades[id].id == id)
    && (forall id | id in db.orders :: RowFollows(db0, db, id))
    && (forall m: Measure :: Level(db, m) == Level(db0, m) + Total(db.trades, m))
    && RowsTell(db0, db)
  }

  lemma StartReflects(db0: Tables)
    requires db0.trades == map[]
    ensures Reflects(db0, db0)
  {
    forall id | id in db0.orders ensures RowFollows(db0, db0, id) {
    }
    forall m: Measure ensures Total(db0.trades, m) == 0 {
      assert Amounts(db0.trades, m) == map[];
    }
  }

  lemma SettleReflects(db0: Tables, db: Tables, t: Trade)
    requires Reflects(db0, db) && SettleTrade(db, t).Done?
    ensures Reflects(db0, SettleTrade(db, t).tables)
  {
    hide Level, Amount, Total, RowsTell, RowFollows, Applied;
    if t.id !in db.trades {
      var db' := Applied(db, t);
      AppliedKeys(db, t);
      forall id | id in db'.orders ensures RowFollows(db0, db', id) {
        AppliedRowFollows(db0, db, t, id);
      }
      forall m: Measure ensures Level(db', m) == Level(db0, m) + Total(db'.trades, m) {
        AppliedLevel(db, t, m);
        TotalAdd(db.trades, t, m);
      }
      AppliedRowsTell(db0, db, t);
    }
  }

  lemma AppliedKeys(db: Tables, t: Trade)
    requires References(db, t)
    ensures var db' := Applied(db, t);
            && db'.users.Keys == db.users.Keys && db'.volumes.Keys == db.volumes.Keys && db'.orders.Keys == db.orders.Keys
            && db'.trades == db.trades[t.id := t]
  {
  }

  /** What becomes of a delivery: handled, lost before it took effect, or committed with the acknowledgement lost. */
  datatype Fate = Arrives | LostBefore | LostAfter

  /** A delivery of a trade event. One that was lost either way is delivered again later. */
  datatype TradeDelivery = TradeDelivery(trade: Trade, fate: Fate)

  function Deliver(db: Tables, d: TradeDelivery): Tables {
    if !d.fate.LostBefore? && SettleTrade(db, d.trade).Done? then SettleTrade(db, d.trade).tables else db
  }

  function DeliverAll(db: Tables, ds: seq<TradeDelivery>): Tables
    decreases ds
  {
    if ds == [] then db else DeliverAll(Deliver(db, ds[0]), ds[1..])
  }

  lemma {:induction false} DeliveriesReflect(db0: Tables, db: Tables, ds: seq<TradeDelivery>)
    requires Reflects(db0, db)
    ensures Reflects(db0, DeliverAll(db, ds))
    decreases ds
  {
    hide Reflects, SettleTrade;
    if ds != [] {
      if SettleTrade(db, ds[0].trade).Done? {
        SettleReflects(db0, db, ds[0].trade);
      }
      DeliveriesReflect(db0, Deliver(db, ds[0]), ds[1..]);
    }
  }

  /**
   From tables without trades, for every sequence of trade deliveries with duplicates
   and failures, the tables are a function of the set of settled trades: every balance,
   position, volume and fill is its starting value plus each settled trade once, every
   order row follows from its fill, and each settled trade has exactly one BUY and one
   SELL row, which tell its parties, orders, quantity, price, outcome and amount.
   */
  lemma TablesAreFold(db0: Tables, ds: seq<TradeDelivery>)
    requires db0.trades == map[]
    ensures Reflects(db0, DeliverAll(db0, ds))
  {
    hide Reflects;
    StartReflects(db0);
    DeliveriesReflect(db0, db0, ds);
  }

  /** Two sequences of deliveries that settled the same trades leave the same balances, volumes, orders and shares. */
  lemma FoldDetermines(db0: Tables, a: seq<TradeDelivery>, b: seq<TradeDelivery>)
    requires db0.trades == map[] && DeliverAll(db0, a).trades == DeliverAll(db0, b).trades
    ensures var x, y := DeliverAll(db0, a), DeliverAll(db0, b);
            && x.users == y.users && x.volumes == y.volumes && x.orders == y.orders
            && forall key: PositionKey :: SharesAt(x, key) == SharesAt(y, key)
  {
    hide DeliverAll, Total, RowFollows, RowsTell;
    TablesAreFold(db0, a);
    TablesAreFold(db0, b);
    var x, y := DeliverAll(db0, a), DeliverAll(db0, b);
    forall user | user in x.users ensures x.users[user] == y.users[user] {
      assert Level(x, CashOf(user)) == Level(y, CashOf(user));
    }
    forall event | event in x.volumes ensures x.volumes[event] == y.volumes[event] {
      assert Level(x, VolumeOf(event)) == Level(y, VolumeOf(event));
    }
    forall id | id in x.orders ensures x.orders[id] == y.orders[id] {
      assert Level(x, FillOf(id)) == Level(y, FillOf(id));
      SameRow(db0, x, y, id);
    }
    forall key: PositionKey ensures SharesAt(x, key) == SharesAt(y, key) {
      assert Level(x, SharesOf(key)) == Level(y, SharesOf(key));
    }
  }

  lemma SameRow(db0: Tables, x: Tables, y: Tables, id: Id)
    requires id in db0.orders && id in x.orders && id in y.orders && x.trades == y.trades
    requires RowFollows(db0, x, id) && RowFollows(db0, y, id) && x.orders[id].filled == y.orders[id].filled
    ensures x.orders[id] == y.orders[id]
  {
    hide HasFills;
  }

  lemma {:induction false} DeliverAllAppend(db: Tables, a: seq<TradeDelivery>, b: seq<TradeDelivery>)
    ensures DeliverAll(db, a + b) == DeliverAll(DeliverAll(db, a), b)
    decreases a
  {
    hide Deliver;
    if a == [] {
      assert a + b == b;
    } else {
      assert (a + b)[0] == a[0] && (a + b)[1..] == a[1..] + b;
      DeliverAllAppend(Deliver(db, a[0]), a[1..], b);
    }
  }

  /** A settled trade stays settled: delivering it again after any further deliveries changes nothing that follows. */
  lemma RedeliveryIsIdle(db: Tables, ds: seq<TradeDelivery>, t: Trade, fate: Fate, later: seq<TradeDelivery>)
    requires t.id in db.trades
    ensures DeliverAll(db, ds + [TradeDelivery(t, fate)] + later) == DeliverAll(db, ds + later)
  {
    hide DeliverAll;
    var d := TradeDelivery(t, fate);
    var db1 := DeliverAll(db, ds);
    TradesAccumulate(db, ds);
    DeliverAllAppend(db, ds + [d], later);
    DeliverAllAppend(db, ds, [d]);
    DeliverAllAppend(db, ds, later);
    DeliverOne(db1, d);
  }

  lemma DeliverOne(db: Tables, d: TradeDelivery)
    ensures DeliverAll(db, [d]) == Deliver(db, d)
  {
    hide Deliver;
    assert [d][1..] == [];
  }

  lemma {:induction false} TradesAccumulate(db: Tables, ds: seq<TradeDelivery>)
    ensures db.trades.Keys <= DeliverAll(db, ds).trades.Keys
    decreases ds
  {
    hide Applied;
    if ds != [] {
      var t := ds[0].trade;
      if t.id !in db.trades && References(db, t) {
        AppliedKeys(db, t);
      }
      TradesAccumulate(Deliver(db, ds[0]), ds[1..]);
    }
  }

  // ---------------------------------------------------------------------
  // The transaction rows explain the balances
  // ---------------------------------------------------------------------

  /** What a user's rows say the user received, less what they say the user paid. */
  function Net(rows: seq<Transaction>, user: Id): int {
    if rows == [] then 0
    else (if rows[0].user != user then 0 else if rows[0].kind.Sell? then rows[0].amount else -rows[0].amount) + Net(rows[1..], user)
  }

  lemma {:induction false} NetAppend(a: seq<Transaction>, b: seq<Transaction>, user: Id)
    ensures Net(a + b, user) == Net(a, user) + Net(b, user)
  {
    if a == [] {
      assert a + b == b;
    } else {
      assert (a + b)[0] == a[0] && (a + b)[1..] == a[1..] + b;
      NetAppend(a[1..], b, user);
    }
  }

  lemma AppliedNet(db: Tables, t: Trade, user: Id)
    requires References(db, t) && user in db.users
    ensures Applied(db, t).users.Keys == db.users.Keys
    ensures Applied(db, t).users[user] - db.users[user] == Net(Applied(db, t).transactions, user) - Net(db.transactions, user)
  {
    hide Net;
    AppliedKeys(db, t);
    AppliedLevel(db, t, CashOf(user));
    assert Applied(db, t).transactions == db.transactions + [BuyerRow(t), SellerRow(t)];
    NetAppend(db.transactions, [BuyerRow(t), SellerRow(t)], user);
    NetOfPair(t, user);
    assert Amount(CashOf(user), t) == Net([BuyerRow(t), SellerRow(t)], user);
  }

  lemma NetOfPair(t: Trade, user: Id)
    ensures Net([BuyerRow(t), SellerRow(t)], user) ==
            (if t.seller == user then t.Cost() else 0) - (if t.buyer == user then t.Cost() else 0)
  {
    var rows := [BuyerRow(t), SellerRow(t)];
    assert [SellerRow(t)][1..] == [];
    assert Net([SellerRow(t)], user) == if t.seller == user then t.Cost() else 0;
    assert rows[0] == BuyerRow(t) && rows[1..] == [SellerRow(t)];
  }

  /** After any deliveries, each user's balance has changed by exactly what the user's new rows add up to. */
  lemma {:induction false} LedgerReconciles(db: Tables, ds: seq<TradeDelivery>, user: Id)
    requires user in db.users
    ensures user in DeliverAll(db, ds).users
    ensures DeliverAll(db, ds).users[user] - db.users[user]
         == Net(DeliverAll(db, ds).transactions, user) - Net(db.transactions, user)
    decreases ds
  {
    hide Applied, References, Net;
    if ds != [] {
      if References(db, ds[0].trade) {
        AppliedNet(db, ds[0].trade, user);
      }
      LedgerReconciles(Deliver(db, ds[0]), ds[1..], user);
    }
  }

  // ---------------------------------------------------------------------
  // Conservation
  // ---------------------------------------------------------------------

  /** All balances. */
  ghost function UserTotal(users: map<Id, int>): int {
    Sums.Sum(users)
  }

  ghost function ShareCounts(positions: map<PositionKey, int>, event: Id, outcome: Outcome): map<PositionKey, int> {
    map key | key in positions :: if key.event == event && key.outcome == outcome then positions[key] else 0
  }

  /** All shares of one outcome of one event. */
  ghost function ShareSum(positions: map<PositionKey, int>, event: Id, outcome: Outcome): int {
    Sums.Sum(ShareCounts(positions, event, outcome))
  }

  lemma ShareSumSet(positions: map<PositionKey, int>, key: PositionKey, n: int, event: Id, outcome: Outcome)
    ensures ShareSum(positions[key := n], event, outcome)
         == ShareSum(positions, event, outcome)
            + (if key.event == event && key.outcome == outcome then n - (if key in positions then positions[key] else 0) else 0)
  {
    var w := ShareCounts(positions, event, outcome);
    var v := if key.event == event && key.outcome == outcome then n else 0;
    assert ShareCounts(positions[key := n], event, outcome) == w[key := v];
    Sums.Update(w, key, v);
  }

  /** Settlement moves cash and shares; it creates and destroys neither. */
  lemma SettleConserves(db: Tables, t: Trade, event: Id, outcome: Outcome)
    requires SettleTrade(db, t).Done?
    ensures var db' := SettleTrade(db, t).tables;
            && UserTotal(db'.users) == UserTotal(db.users)
            && ShareSum(db'.positions, event, outcome) == ShareSum(db.positions, event, outcome)
  {
    if t.id !in db.trades {
      var paid := db.users[t.buyer := db.users[t.buyer] - t.Cost()];
      Sums.Update(db.users, t.buyer, db.users[t.buyer] - t.Cost());
      Sums.Update(paid, t.seller, paid[t.seller] + t.Cost());
      PositionsConserved(db, t, event, outcome);
    }
  }

  lemma PositionsConserved(db: Tables, t: Trade, event: Id, outcome: Outcome)
    requires References(db, t)
    ensures ShareSum(Applied(db, t).positions, event, outcome) == ShareSum(db.positions, event, outcome)
  {
    hide ShareSum;
    var p1 := db.positions[t.BuyerKey() := SharesAt(db, t.BuyerKey()) + t.quantity];
    ShareSumSet(db.positions, t.BuyerKey(), SharesAt(db, t.BuyerKey()) + t.quantity, event, outcome);
    ShareSumSet(p1, t.SellerKey(), (if t.SellerKey() in p1 then p1[t.SellerKey()] else 0) - t.quantity, event, outcome);
  }

  /** Over every sequence of deliveries, total cash and the shares of every outcome are unchanged. */
  lemma {:induction false} DeliveriesConserve(db: Tables, ds: seq<TradeDelivery>, event: Id, outcome: Outcome)
    ensures UserTotal(DeliverAll(db, ds).users) == UserTotal(db.users)
    ensures ShareSum(DeliverAll(db, ds).positions, event, outcome) == ShareSum(db.positions, event, outcome)
    decreases ds
  {
    hide SettleTrade, UserTotal, ShareSum;
    if ds != [] {
      if SettleTrade(db, ds[0].trade).Done? {
        SettleConserves(db, ds[0].trade, event, outcome);
      }
      DeliveriesConserve(Deliver(db, ds[0]), ds[1..], event, outcome);
    }
  }
}
