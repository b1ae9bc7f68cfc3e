/**
 The projection agrees with the engine. One partition worker handles commands one
 after the other; the events it emits, applied to the tables, leave every balance,
 position, fill and limit-order status equal to the engine's, and no event fails.
 */
module Projection {
  import opened Types
  import opened Matching
  import opened EngineState
  import opened Invariant
  import opened StepInvariant
  import opened MatchInvariant
  import opened Shares
  import opened Cash
  import opened Commands
  import opened Database

  // ---------------------------------------------------------------------
  // Agreement
  // ---------------------------------------------------------------------

  /** What the tables should show for a user: signup gives the same amount on both sides. */
  function Worth(s: State, user: Id): int {
    if user in s.balances then s.balances[user].Total() else DEFAULT_STARTING_BALANCE
  }

  /**
   The status the tables show. The engine cancels the unfilled part of a market
   order without emitting an event for it, so the row keeps what its fills say.
   */
  function Shown(o: Order): Status {
    if o.status.Canceled? && o.terms.kind.Market? then (if o.filled > 0 then Partial else Pending) else o.status
  }

  /** A row that still misses n shares of fills that are on their way. */
  predicate RowMirrors(o: Order, row: OrderRow, n: int) {
    && row.terms == o.terms && row.filled == o.filled - n && row.remaining == o.remaining + n && n >= 0
    && row.filled >= 0
    && (n == 0 ==> row.status == Shown(o))
    && (n > 0 ==> !(o.status.Canceled? && o.terms.kind.Limit?))
  }

  ghost predicate UsersMirror(s: State, db: Tables) {
    && s.balances.Keys <= db.users.Keys
    && forall user | user in db.users :: db.users[user] == Worth(s, user)
  }

  ghost predicate PositionsMirror(s: State, db: Tables) {
    forall key: PositionKey :: SharesAt(db, key) == Get(s.positions, key).Total()
  }

  ghost predicate RowsMirror(s: State, db: Tables, rest: seq<Trade>) {
    && db.orders.Keys == s.orders.Keys
    && forall id | id in s.orders :: RowMirrors(s.orders[id], db.orders[id], Quantity(rest, id))
  }

  /** Identifiers are given, and owners have an account. */
  ghost predicate OwnersKnown(s: State) {
    forall id | id in s.orders ::
      id != NO_ID && s.orders[id].terms.user != NO_ID && s.orders[id].terms.event != NO_ID && s.orders[id].terms.user in s.balances
  }

  /** The tables mirror the engine up to the trades still on their way, numbered from next. */
  ghost predicate Mirrors(s: State, db: Tables, rest: seq<Trade>, next: nat) {
    && UsersMirror(s, db) && PositionsMirror(s, db) && RowsMirror(s, db, rest) && OwnersKnown(s)
    && s.markets.Keys <= db.volumes.Keys
    && (forall id | id in db.trades :: id < next)
    && (forall i :: 0 <= i < |rest| ==> rest[i].id == next + i)
  }

  ghost predicate Agree(s: State, db: Tables) {
    Mirrors(s, db, [], s.nextTrade) && s.inflight == {}
  }

  // ---------------------------------------------------------------------
  // Applying events
  // ---------------------------------------------------------------------

  /** Apply events until one fails. */
  function ApplyAll(db: Tables, events: seq<Event>): Effect
    decreases events
  {
    if events == [] then Done(db) else
      var e := ApplyEvent(db, events[0]);
      if e.Failed? then e else ApplyAll(e.tables, events[1..])
  }

  lemma {:induction false} ApplyAllAppend(db: Tables, a: seq<Event>, b: seq<Event>)
    requires ApplyAll(db, a).Done?
    ensures ApplyAll(db, a + b) == ApplyAll(ApplyAll(db, a).tables, b)
    decreases a
  {
    hide ApplyEvent;
    if a == [] {
      assert a + b == b;
    } else {
      assert (a + b)[1..] == a[1..] + b;
      ApplyAllAppend(ApplyEvent(db, a[0]).tables, a[1..], b);
    }
  }

  lemma ApplyOne(db: Tables, e: Event)
    ensures ApplyAll(db, [e]) == ApplyEvent(db, e)
  {
    hide ApplyEvent;
    assert [e][1..] == [];
  }

  // ---------------------------------------------------------------------
  // One trade
  // ---------------------------------------------------------------------

  /** The settlement guard holds: the buyer's row covers the trade, and all rows exist. */
  lemma TradeAccepted(s: State, db: Tables, t: Trade, rest: seq<Trade>, next: nat, hot: set<Id>)
    requires OrdersOk(s) && AccountsOk(s) && Settleable(s.orders, t) && t.taker in s.orders && t.maker in s.orders
    requires t.event in s.markets && t.event != NO_ID
    requires Mirrors(s, db, [t] + rest, next) && CashOk(s, [t] + rest, hot)
    requires forall i :: 0 <= i < |rest| ==> Sound(rest[i])
    ensures SettleTrade(db, t) == Done(Applied(db, t)) && References(db, t) && t.id == next
  {
    hide Applied, BuyOk, RowMirrors;
    BuyerCovered(s, t, rest, hot);
    assert ([t] + rest)[0] == t;
    assert Get(s.balances, t.buyer).Solvent();
    CostPositive(t);
    OwnersOfTrade(s, t);
  }

  lemma OwnersOfTrade(s: State, t: Trade)
    requires Settleable(s.orders, t) && OwnersKnown(s)
    ensures t.buyer in s.balances && t.seller in s.balances && t.buyer != NO_ID && t.seller != NO_ID
    ensures t.taker != NO_ID && t.maker != NO_ID
  {
    var b, a := t.BuyOrder(), t.SellOrder();
    assert b in s.orders && a in s.orders;
    assert KeyOf(s.orders[a].terms).user == t.seller;
  }

  lemma AppliedUsers(db: Tables, t: Trade, user: Id)
    requires References(db, t) && t.buyer != t.seller
    ensures var db' := Applied(db, t);
            && db'.users.Keys == db.users.Keys
            && (user in db.users ==>
                  (db'.users[user] ==
                   db.users[user] - (if user == t.buyer then t.Cost() else 0) + (if user == t.seller then t.Cost() else 0)))
  {
  }

  /** Users' rows follow the ledger through a settlement that no clamp touches. */
  lemma SettleUsersMirror(s: State, db: Tables, t: Trade)
    requires UsersMirror(s, db) && References(db, t) && Sound(t)
    requires t.buyer in s.balances && t.seller in s.balances
    requires Get(s.balances, t.buyer).reserved >= t.Cost()
    ensures UsersMirror(Settle(s, t), Applied(db, t))
  {
    hide Settle, Applied, References;
    SettleKeys(s, t);
    forall user | user in db.users
      ensures user in Applied(db, t).users && Applied(db, t).users[user] == Worth(Settle(s, t), user)
    {
      AppliedUsers(db, t, user);
      SettleBalance(s, t, user);
    }
    AppliedUsers(db, t, t.buyer);
  }

  lemma SettleKeys(s: State, t: Trade)
    ensures Settle(s, t).balances.Keys == s.balances.Keys + {t.buyer, t.seller}
  {
  }

  lemma AppliedPosition(db: Tables, t: Trade, key: PositionKey)
    requires References(db, t)
    ensures SharesAt(Applied(db, t), key) ==
            SharesAt(db, key) + (if key == t.BuyerKey() then t.quantity else 0) - (if key == t.SellerKey() then t.quantity else 0)
  {
  }

  lemma SettlePositionsMirror(s: State, db: Tables, t: Trade)
    requires PositionsMirror(s, db) && References(db, t) && Sound(t)
    requires Get(s.positions, t.SellerKey()).reserved >= t.quantity
    ensures PositionsMirror(Settle(s, t), Applied(db, t))
  {
    hide Settle, Applied, References;
    forall key: PositionKey
      ensures SharesAt(Applied(db, t), key) == Get(Settle(s, t).positions, key).Total()
    {
      AppliedPosition(db, t, key);
      SettlePosition(s, t, key);
    }
  }

  lemma AppliedRow(db: Tables, t: Trade, id: Id)
    requires References(db, t) && t.taker != t.maker && id in db.orders
    ensures var db' := Applied(db, t);
            && db'.orders.Keys == db.orders.Keys
            && db'.orders[id] == (if t.Names(id) then FilledRow(db.orders[id], t.quantity) else db.orders[id])
  {
  }

  /** A fill brings its row one trade closer to the engine's order. */
  lemma FillMirrors(o: Order, row: OrderRow, n: int, quantity: int)
    requires OrderOk(o) && RowMirrors(o, row, n + quantity) && n >= 0 && quantity > 0
    ensures RowMirrors(o, FilledRow(row, quantity), n)
  {
  }

  lemma SettleRowsMirror(s: State, db: Tables, t: Trade, rest: seq<Trade>)
    requires OrdersOk(s) && RowsMirror(s, db, [t] + rest) && References(db, t) && Sound(t)
    requires forall i :: 0 <= i < |rest| ==> Sound(rest[i])
    ensures RowsMirror(Settle(s, t), Applied(db, t), rest)
  {
    hide Settle, Applied, RowMirrors;
    var s', db' := Settle(s, t), Applied(db, t);
    SettleSameButLocks(s, t);
    AppliedRow(db, t, t.taker);
    forall id | id in s.orders ensures RowMirrors(s'.orders[id], db'.orders[id], Quantity(rest, id)) {
      AppliedRow(db, t, id);
      QuantityFirst(t, rest, id);
      QuantityNonNegative(rest, id);
      assert RowMirrors(s.orders[id], db.orders[id], Quantity([t] + rest, id));
      if t.Names(id) {
        FillMirrors(s.orders[id], db.orders[id], Quantity(rest, id), t.quantity);
      }
      assert Bare(s'.orders[id]) == Bare(s.orders[id]);
      MirrorsByBare(s.orders[id], s'.orders[id], db'.orders[id], Quantity(rest, id));
    }
  }

  /** The projection does not depend on locks. */
  lemma MirrorsByBare(o: Order, o': Order, row: OrderRow, n: int)
    requires Bare(o') == Bare(o) && RowMirrors(o, row, n)
    ensures RowMirrors(o', row, n)
  {
    assert o'.terms == Bare(o').terms && o'.filled == Bare(o').filled;
  }

  lemma OwnersByTerms(s: State, s': State)
    requires OwnersKnown(s) && s'.orders.Keys == s.orders.Keys && s.balances.Keys <= s'.balances.Keys
    requires forall x | x in s.orders :: s'.orders[x].terms == s.orders[x].terms
    ensures OwnersKnown(s')
  {
  }

  /** The worker settles one trade and the tables mirror the engine after its own settlement. */
  lemma SettleMirrors(s: State, db: Tables, t: Trade, rest: seq<Trade>, next: nat, hot: set<Id>)
    requires OrdersOk(s) && AccountsOk(s) && Settleable(s.orders, t) && t.taker in s.orders && t.maker in s.orders
    requires t.event in s.markets && t.event != NO_ID
    requires Mirrors(s, db, [t] + rest, next) && CashOk(s, [t] + rest, hot) && SharesOk(s, [t] + rest, hot)
    requires forall i :: 0 <= i < |rest| ==> Sound(rest[i])
    ensures SettleTrade(db, t) == Done(Applied(db, t)) && References(db, t)
    ensures Mirrors(Settle(s, t), Applied(db, t), rest, next + 1)
  {
    hide Settle, Applied, UsersMirror, PositionsMirror, RowsMirror, BuyOk, SellOk, OwnersKnown, SettleTrade;
    TradeAccepted(s, db, t, rest, next, hot);
    SettleableSound(s.orders, t);
    BuyerCovered(s, t, rest, hot);
    SellerCovered(s, t, rest, hot);
    OwnersOfTrade(s, t);
    SettleUsersMirror(s, db, t);
    SettlePositionsMirror(s, db, t);
    SettleRowsMirror(s, db, t, rest);
    SettleSameButLocks(s, t);
    SettleKeys(s, t);
    AppliedKeys(db, t);
    forall x | x in s.orders ensures Settle(s, t).orders[x].terms == s.orders[x].terms {
      assert Bare(Settle(s, t).orders[x]) == Bare(s.orders[x]);
    }
    OwnersByTerms(s, Settle(s, t));
    forall i | 0 <= i < |rest| ensures rest[i].id == next + 1 + i {
      assert ([t] + rest)[i + 1] == rest[i];
    }
  }

  // ---------------------------------------------------------------------
  // A whole match
  // ---------------------------------------------------------------------

  /** Trades whose orders and market the engine knows. */
  ghost predicate TradesKnown(s: State, trades: seq<Trade>) {
    forall i :: 0 <= i < |trades| ==>
      trades[i].taker in s.orders && trades[i].maker in s.orders && trades[i].event in s.markets && trades[i].event != NO_ID
  }

  lemma TradeEventsFirst(t: Trade, rest: seq<Trade>)
    ensures TradeEvents([t] + rest) == [TradeExecuted(t)] + TradeEvents(rest)
  {
  }

  lemma {:induction false} SettleAllMirrors(s: State, db: Tables, trades: seq<Trade>, next: nat, hot: set<Id>)
    requires OrdersOk(s) && AccountsOk(s) && AllSettleable(s.orders, trades) && TradesKnown(s, trades)
    requires Mirrors(s, db, trades, next) && CashOk(s, trades, hot) && SharesOk(s, trades, hot)
    ensures ApplyAll(db, TradeEvents(trades)).Done?
    ensures Mirrors(SettleAll(s, trades), ApplyAll(db, TradeEvents(trades)).tables, [], next + |trades|)
    ensures ApplyAll(db, TradeEvents(trades)).tables.users.Keys == db.users.Keys
    ensures ApplyAll(db, TradeEvents(trades)).tables.volumes.Keys == db.volumes.Keys
    decreases trades
  {
    hide Settle, OrdersOk, AccountsOk, Settleable, BuyOk, SellOk, Mirrors, Applied, SettleTrade, TradeEvents;
    if trades == [] {
      assert TradeEvents(trades) == [] by { EmptyEvents(); }
    } else {
      var t, rest := trades[0], trades[1..];
      assert trades == [t] + rest;
      assert Settleable(s.orders, t);
      forall i | 0 <= i < |rest| ensures Sound(rest[i]) && Settleable(s.orders, rest[i]) {
        assert Settleable(s.orders, trades[i + 1]);
        SettleableSound(s.orders, trades[i + 1]);
      }
      SettleMirrors(s, db, t, rest, next, hot);
      SettleCash(s, t, rest, hot);
      SettleShares(s, t, rest, hot);
      SettleSameButLocks(s, t);
      SettleAccounts(s, t) by { SettleableSound(s.orders, t); }
      SettleKeepsSettleable(s, t, rest);
      AppliedKeys(db, t);
      SettleAllMirrors(Settle(s, t), Applied(db, t), rest, next + 1, hot);
      TradeEventsFirst(t, rest);
      ApplyOne(db, TradeExecuted(t));
      ApplyAllAppend(db, [TradeExecuted(t)], TradeEvents(rest));
    }
  }

  lemma EmptyEvents()
    ensures TradeEvents([]) == []
  {
  }

  /** After the match loop the rows lag behind by exactly its trades. */
  lemma TradedRow(s: State, id: Id, row: OrderRow, x: Id)
    requires Ready(s, id) && x in s.orders && RowMirrors(s.orders[x], row, 0)
    ensures x in Traded(s, id).orders && RowMirrors(Traded(s, id).orders[x], row, Quantity(TradesOf(s, id), x))
  {
    hide MatchLoop, Traded, TradesOf, QueueOk, Rests, Uncrossed;
    TradedOrder(s, id, x);
    TradedQuantity(s, id, x);
    TradesSound(s, id);
    QuantityNonNegative(TradesOf(s, id), x);
    if x == id {
      TradedStatus(s, id);
    } else {
      TradedCanceled(s, id, x);
      if Quantity(TradesOf(s, id), x) == 0 {
        TradedIdle(s, id, x);
      }
    }
  }

  lemma TradedStatus(s: State, id: Id)
    requires Ready(s, id)
    ensures Traded(s, id).orders[id].status == AfterMatch(Traded(s, id).orders[id])
  {
    hide MatchLoop, Traded;
    TradedFields(s, id);
  }

  lemma TradedIdle(s: State, id: Id, x: Id)
    requires Ready(s, id) && x in s.orders && x != id && Quantity(TradesOf(s, id), x) == 0
    ensures Traded(s, id).orders[x] == s.orders[x]
  {
    hide MatchLoop, Traded;
    TradedFields(s, id);
    MatchAccounts(s.orders, Facing(s, s.orders[id].terms), id, s.nextTrade);
    var m := LoopOf(s, id);
    assert Shifted(s.orders[x], m.orders[x], Quantity(m.trades, x), false);
  }

  lemma TradedMirrors(s: State, id: Id, db: Tables)
    requires Ready(s, id) && Mirrors(s, db, [], s.nextTrade)
    ensures Mirrors(Traded(s, id), db, TradesOf(s, id), s.nextTrade)
  {
    hide MatchLoop, Traded, TradesOf, RowMirrors, Wf;
    var s' := Traded(s, id);
    TradedFields(s, id);
    forall x | x in s.orders
      ensures RowMirrors(s'.orders[x], db.orders[x], Quantity(TradesOf(s, id), x)) && s'.orders[x].terms == s.orders[x].terms
    {
      assert RowMirrors(s.orders[x], db.orders[x], Quantity([], x));
      TradedRow(s, id, db.orders[x], x);
      TradedOrder(s, id, x);
    }
    OwnersByTerms(s, s');
    forall i | 0 <= i < |TradesOf(s, id)| ensures TradesOf(s, id)[i].id == s.nextTrade + i {
      TradeSound(s, id, i);
    }
  }

  /** A user's cash moves between available and reserved: the mirror does not notice. */
  lemma SetSameWorth(s: State, user: Id, h: Holding, db: Tables)
    requires UsersMirror(s, db) && PositionsMirror(s, db) && user in s.balances
    requires h.Total() == Get(s.balances, user).Total()
    ensures UsersMirror(SetBalance(s, user, h), db) && PositionsMirror(SetBalance(s, user, h), db)
    ensures SetBalance(s, user, h).balances.Keys == s.balances.Keys
  {
    hide Get;
    assert Get(s.balances, user) == s.balances[user] by { GetAt(s.balances, user); }
  }

  lemma GetAt<K>(m: map<K, Holding>, k: K)
    requires k in m
    ensures Get(m, k) == m[k]
  {
  }

  lemma SetSameShares(s: State, key: PositionKey, h: Holding, db: Tables)
    requires UsersMirror(s, db) && PositionsMirror(s, db)
    requires h.Total() == Get(s.positions, key).Total()
    ensures UsersMirror(SetPosition(s, key, h), db) && PositionsMirror(SetPosition(s, key, h), db)
  {
    hide Get;
    forall k: PositionKey ensures SharesAt(db, k) == Get(SetPosition(s, key, h).positions, k).Total() {
      GetSet(s.positions, key, h, k);
    }
  }

  /** A release changes neither what a user is worth nor any position's total. */
  lemma ReleaseLedgerMirrors(s: State, id: Id, db: Tables)
    requires OrdersOk(s) && id in s.orders && s.orders[id].terms.user in s.balances
    requires UsersMirror(s, db) && PositionsMirror(s, db)
    requires forall user: Id :: CashSlack(s, user) >= 0
    requires forall key: PositionKey :: ShareSlack(s, key) >= 0
    ensures UsersMirror(Release(s, id), db) && PositionsMirror(Release(s, id), db)
    ensures Release(s, id).balances.Keys == s.balances.Keys
  {
    hide Get, UsersMirror, PositionsMirror, OrderOk, CashSlack, ShareSlack;
    var o := s.orders[id];
    if o.locked > 0 {
      if o.terms.side.Buy? {
        var h := Get(s.balances, o.terms.user);
        ReservedCashCovers(s, id);
        assert Unfreeze(h, o.locked) == Holding(h.available + o.locked, h.reserved - o.locked);
        SetSameWorth(s, o.terms.user, Unfreeze(h, o.locked), db);
        SameLedger(SetBalance(s, o.terms.user, Unfreeze(h, o.locked)), Release(s, id), db);
      } else {
        var h := Get(s.positions, KeyOf(o.terms));
        ReservedCovers(s, id);
        assert Unfreeze(h, o.locked) == Holding(h.available + o.locked, h.reserved - o.locked);
        SetSameShares(s, KeyOf(o.terms), Unfreeze(h, o.locked), db);
        SameLedger(SetPosition(s, KeyOf(o.terms), Unfreeze(h, o.locked)), Release(s, id), db);
      }
    }
  }

  lemma SameLedger(s: State, s': State, db: Tables)
    requires UsersMirror(s, db) && PositionsMirror(s, db) && s'.balances == s.balances && s'.positions == s.positions
    ensures UsersMirror(s', db) && PositionsMirror(s', db)
  {
  }

  lemma ReleaseMirrors(s: State, id: Id, db: Tables, next: nat)
    requires OrdersOk(s) && id in s.orders && Mirrors(s, db, [], next)
    requires forall user: Id :: CashSlack(s, user) >= 0
    requires forall key: PositionKey :: ShareSlack(s, key) >= 0
    ensures Mirrors(Release(s, id), db, [], next)
  {
    hide RowMirrors, UsersMirror, PositionsMirror, Release, OrderOk, CashSlack, ShareSlack;
    var s' := Release(s, id);
    ReleaseLedgerMirrors(s, id, db);
    ReleaseSameButLocks(s, id);
    forall x | x in s.orders
      ensures RowMirrors(s'.orders[x], db.orders[x], Quantity([], x)) && s'.orders[x].terms == s.orders[x].terms
    {
      assert RowMirrors(s.orders[x], db.orders[x], Quantity([], x));
      assert Bare(s'.orders[x]) == Bare(s.orders[x]);
      MirrorsByBare(s.orders[x], s'.orders[x], db.orders[x], Quantity([], x));
      assert s'.orders[x].terms == Bare(s'.orders[x]).terms;
    }
    OwnersByTerms(s, s');
  }

  lemma MatchKnown(s: State, id: Id)
    requires Ready(s, id) && OwnersKnown(s)
    ensures TradesKnown(Traded(s, id), TradesOf(s, id))
  {
    hide MatchLoop, Traded, TradesOf;
    TradedFields(s, id);
    forall i | 0 <= i < |TradesOf(s, id)|
      ensures var t := TradesOf(s, id)[i];
              t.taker in s.orders && t.maker in s.orders && t.event == s.orders[id].terms.event
    {
      TradeSound(s, id, i);
    }
  }

  /** Before the release: the trades are settled on both sides, and the ledger covers all locks. */
  lemma SettledMirrors(s: State, id: Id, db: Tables)
    requires Ready(s, id) && Mirrors(s, db, [], s.nextTrade)
    requires CashOk(s, [], {}) && SharesOk(s, [], {}) && InBudget(s, id)
    ensures var s2 := SettleAll(Traded(s, id), TradesOf(s, id));
            var e := ApplyAll(db, TradeEvents(TradesOf(s, id)));
            && e.Done? && Mirrors(s2, e.tables, [], s.nextTrade + |TradesOf(s, id)|)
            && e.tables.users.Keys == db.users.Keys && e.tables.volumes.Keys == db.volumes.Keys
            && OrdersOk(s2) && id in s2.orders && s2.nextTrade == s.nextTrade + |TradesOf(s, id)|
            && CashOk(s2, [], {id}) && SharesOk(s2, [], {id})
  {
    hide MatchLoop, Traded, TradesOf, Settle, Mirrors, InBudget, QueueOk, Rests, Uncrossed, OrderOk, CashOk, SharesOk,
      AccountsOk, ApplyAll, TradeEvents, TradesKnown;
    var s1, trades := Traded(s, id), TradesOf(s, id);
    TradedFields(s, id);
    TradedWf(s, id);
    TradedCash(s, id);
    TradedShares(s, id);
    TradedSettleable(s, id);
    TradedMirrors(s, id, db);
    OwnersOf(s, db);
    MatchKnown(s, id);
    SettleAllMirrors(s1, db, trades, s.nextTrade, {id});
    SettleAllCash(s1, trades, {id});
    SettleAllShares(s1, trades, {id});
    SettleAllSameButLocks(s1, trades);
    TradesNumbered(s, id);
  }

  /** Matching an order and applying its trade events keeps the mirror. */
  lemma MatchMirrors(s: State, id: Id, db: Tables)
    requires Ready(s, id) && Mirrors(s, db, [], s.nextTrade)
    requires CashOk(s, [], {}) && SharesOk(s, [], {}) && InBudget(s, id)
    ensures var e := ApplyAll(db, TradeEvents(TradesOf(s, id)));
            && e.Done? && Mirrors(Match(s, id), e.tables, [], Match(s, id).nextTrade)
            && e.tables.users.Keys == db.users.Keys && e.tables.volumes.Keys == db.volumes.Keys
  {
    hide MatchLoop, Traded, TradesOf, SettleAll, Release, Mirrors, InBudget, Wf, OrdersOk, BuyOk, SellOk, ApplyAll, TradeEvents;
    SettledMirrors(s, id, db);
    var s2 := SettleAll(Traded(s, id), TradesOf(s, id));
    ReleaseMirrors(s2, id, ApplyAll(db, TradeEvents(TradesOf(s, id))).tables, s.nextTrade + |TradesOf(s, id)|);
    ReleaseSameButLocks(s2, id);
  }

  lemma OwnersOf(s: State, db: Tables)
    requires Mirrors(s, db, [], s.nextTrade)
    ensures OwnersKnown(s)
  {
  }

  lemma TradesNumbered(s: State, id: Id)
    requires Ready(s, id)
    ensures |TradesOf(s, id)| == |LoopOf(s, id).trades|
  {
    hide MatchLoop;
  }

  // ---------------------------------------------------------------------
  // Commands
  // ---------------------------------------------------------------------

  /**
   What a live run must keep to: the user and event rows exist, the user is funded
   before its first order, admitted orders carry no negative price, and market BUYs
   stay in budget.
   */
  ghost predicate Allowed(s: State, users: set<Id>, events: set<Id>, c: Command)
    requires Wf(s)
  {
    match c
    case CreateOrder(r, freshId) =>
      && freshId != NO_ID && (Validate(r, OrderId(r, freshId)).Ok? ==> r.userId in s.balances)
      && (Admit(s, r, freshId).Admitted? ==>
            r.price >= 0 &&
            var s1 := Admit(s, r, freshId).state;
            Matchable(s1, OrderId(r, freshId)) && InBudget(s1, OrderId(r, freshId)))
    case CreateUser(user) => user == NO_ID || user in users
    case CreateMarket(event) => event == NO_ID || event in events
    case _ => true
  }

  /** A reservation changes no user's worth and no position's total. */
  lemma ReserveMirrors(s: State, t: Terms, db: Tables)
    requires UsersMirror(s, db) && PositionsMirror(s, db) && t.user in s.balances
    ensures UsersMirror(Reserve(s, t).state, db) && PositionsMirror(Reserve(s, t).state, db)
    ensures Reserve(s, t).state.balances.Keys == s.balances.Keys
  {
    hide Get, UsersMirror, PositionsMirror;
    if t.side.Buy? {
      var h := Get(s.balances, t.user);
      var cost := if t.kind.Market? then h.available else t.quantity * t.price;
      SetSameWorth(s, t.user, h, db);
      SetSameWorth(s, t.user, Holding(h.available - cost, h.reserved + cost), db);
    } else {
      var h := Get(s.positions, KeyOf(t));
      SetSameShares(s, KeyOf(t), h, db);
      SetSameShares(s, KeyOf(t), Holding(h.available - t.quantity, h.reserved + t.quantity), db);
    }
  }

  lemma RefusedMirrors(s: State, r: Request, freshId: Id, db: Tables)
    requires Mirrors(s, db, [], s.nextTrade) && !Admit(s, r, freshId).Admitted?
    requires Validate(r, OrderId(r, freshId)).Ok? ==> r.userId in s.balances
    ensures Mirrors(Admit(s, r, freshId).state, db, [], s.nextTrade)
    ensures Admit(s, r, freshId).state.inflight == s.inflight && Admit(s, r, freshId).state.nextTrade == s.nextTrade
  {
    hide Validate, Reserve, UsersMirror, PositionsMirror, RowMirrors;
    var v := Validate(r, OrderId(r, freshId));
    if v.Ok? {
      ValidateOwner(r, OrderId(r, freshId));
      ReserveBooks(s, v.value);
      ReserveMirrors(s, v.value, db);
    }
  }

  /** Admitting an order and inserting its row keeps the mirror. */
  lemma AdmittedMirrors(s: State, r: Request, freshId: Id, db: Tables)
    requires Wf(s) && Mirrors(s, db, [], s.nextTrade)
    requires Admit(s, r, freshId).Admitted? && freshId != NO_ID && r.userId in s.balances && r.price >= 0
    ensures var a := Admit(s, r, freshId);
            var e := InsertOrder(db, a.order);
            && e.Done? && Mirrors(a.state, e.tables, [], a.state.nextTrade)
            && e.tables.users.Keys == db.users.Keys && e.tables.volumes.Keys == db.volumes.Keys
            && a.state.nextTrade == s.nextTrade && a.state.inflight == s.inflight + {OrderId(r, freshId)}
  {
    hide Validate, Reserve, UsersMirror, PositionsMirror, QueueOk, Rests, Uncrossed, AccountsOk;
    var a := Admit(s, r, freshId);
    var id := OrderId(r, freshId);
    var v := Validate(r, id);
    ValidateOwner(r, id);
    ReserveBooks(s, v.value);
    ReserveMirrors(s, v.value, db);
    UsersBound(s, db);
    AdmittedOrder(s, r, freshId);
    assert InsertOrder(db, a.order).Done?;
    var db' := InsertOrder(db, a.order).tables;
    UsersTransfer(Reserve(s, v.value).state, db, a.state, db');
    AdmittedRows(s, a.order, db);
  }

  lemma ValidateOwner(r: Request, id: Id)
    ensures var v := Validate(r, id);
            v.Ok? ==> v.value.id == id && v.value.user == r.userId && v.value.event == r.eventId && v.value.price == r.price
                      && v.value.quantity > 0 && v.value.user != NO_ID && v.value.event != NO_ID
  {
  }

  lemma AdmittedOrder(s: State, r: Request, freshId: Id)
    requires Admit(s, r, freshId).Admitted?
    ensures var a := Admit(s, r, freshId);
            var v := Validate(r, OrderId(r, freshId));
            && v.Ok? && r.eventId in s.markets && a.order == NewOrder(v.value, a.order.locked)
            && v.value.id !in s.orders
  {
    hide Reserve;
  }

  lemma UsersTransfer(s: State, db: Tables, s': State, db': Tables)
    requires UsersMirror(s, db) && PositionsMirror(s, db)
    ensures s'.balances == s.balances && s'.positions == s.positions && db'.users == db.users && db'.positions == db.positions
            ==> UsersMirror(s', db') && PositionsMirror(s', db')
  {
  }

  lemma AdmittedRows(s: State, o: Order, db: Tables)
    requires RowsMirror(s, db, []) && o.terms.id !in s.orders
    requires o == NewOrder(o.terms, o.locked)
    ensures var orders := s.orders[o.terms.id := o];
            RowsMirror(s.(orders := orders),
                       db.(orders := db.orders[o.terms.id := OrderRow(o.terms, o.filled, o.remaining, o.status)]), [])
  {
    forall x | x in s.orders ensures RowMirrors(s.orders[x], db.orders[x], 0) {
      assert RowMirrors(s.orders[x], db.orders[x], Quantity([], x));
    }
  }

  lemma CancelLive(s: State, id: Id, event: Id)
    requires Wf(s) && s.inflight == {} && Cancel(s, id, event).result.Ok?
    ensures id in s.orders && s.orders[id].Live() && s.orders[id].terms.kind.Limit? && s.orders[id].terms.event in s.markets
    ensures Cancel(s, id, event).state == Release(Withdrawn(s, id), id)
  {
    hide QueueOk, Uncrossed, AccountsOk, Withdrawn, Release;
    assert Rests(s, id);
    assert OrderOk(s.orders[id]);
  }

  /** A resting limit order and its row are marked canceled. */
  lemma WithdrawnMirrors(s: State, id: Id, db: Tables)
    requires OrdersOk(s) && id in s.orders && s.orders[id].Live() && s.orders[id].terms.kind.Limit?
    requires s.orders[id].terms.event in s.markets && Mirrors(s, db, [], s.nextTrade)
    ensures Mirrors(Withdrawn(s, id), UpdateOrderStatus(db, id, Canceled), [], s.nextTrade)
    ensures Withdrawn(s, id).nextTrade == s.nextTrade && Withdrawn(s, id).inflight == s.inflight
    ensures Withdrawn(s, id).orders.Keys == s.orders.Keys && id in db.orders
  {
    hide RemoveId, UsersMirror, PositionsMirror, OrderOk;
    var s1, db' := Withdrawn(s, id), UpdateOrderStatus(db, id, Canceled);
    forall x | x in s.orders ensures RowMirrors(s1.orders[x], db'.orders[x], Quantity([], x)) {
      assert RowMirrors(s.orders[x], db.orders[x], Quantity([], x));
    }
    UsersTransfer(s, db, s1, db');
    OwnersByTerms(s, s1);
    assert s1.markets.Keys == s.markets.Keys;
  }

  lemma CancelMirrors(s: State, id: Id, event: Id, db: Tables)
    requires Wf(s) && Mirrors(s, db, [], s.nextTrade) && s.inflight == {}
    requires CashOk(s, [], {}) && SharesOk(s, [], {}) && Cancel(s, id, event).result.Ok?
    ensures var db' := UpdateOrderStatus(db, id, Canceled);
            var s' := Cancel(s, id, event).state;
            && Mirrors(s', db', [], s'.nextTrade) && s'.nextTrade == s.nextTrade && s'.inflight == s.inflight
            && id in db.orders
  {
    hide QueueOk, Uncrossed, Rests, AccountsOk, Mirrors, BuyOk, SellOk, Release, Withdrawn, CashSlack, ShareSlack, OrderOk;
    var s1, db' := Withdrawn(s, id), UpdateOrderStatus(db, id, Canceled);
    CancelLive(s, id, event);
    WithdrawnMirrors(s, id, db);
    WithdrawnWf(s, id);
    WithdrawnCash(s, id);
    WithdrawnShares(s, id);
    ReleaseMirrors(s1, id, db', s.nextTrade);
    ReleaseSameButLocks(s1, id);
  }

  lemma OpenUserMirrors(s: State, user: Id, db: Tables)
    requires Mirrors(s, db, [], s.nextTrade) && (user == NO_ID || user in db.users)
    ensures Mirrors(UserCreated(s, user), db, [], s.nextTrade)
  {
    hide RowMirrors;
    var s' := UserCreated(s, user);
    forall x | x in s.orders ensures RowMirrors(s'.orders[x], db.orders[x], Quantity([], x)) {
    }
  }

  lemma OpenEventMirrors(s: State, event: Id, db: Tables)
    requires Mirrors(s, db, [], s.nextTrade) && (event == NO_ID || event in db.volumes)
    ensures Mirrors(CreateEvent(s, event), db, [], s.nextTrade)
  {
    hide RowMirrors;
    var s' := CreateEvent(s, event);
    forall x | x in s.orders ensures RowMirrors(s'.orders[x], db.orders[x], Quantity([], x)) {
    }
  }

  /** The invariants an engine run keeps, together. */
  ghost predicate Good(s: State) {
    Wf(s) && CashOk(s, [], {}) && SharesOk(s, [], {})
  }

  /** Handling an admitted order and applying its events. */
  lemma CreateProjects(s: State, db: Tables, r: Request, freshId: Id)
    requires Good(s) && Agree(s, db) && Allowed(s, db.users.Keys, db.volumes.Keys, CreateOrder(r, freshId))
    requires Admit(s, r, freshId).Admitted?
    ensures var h := Handle(s, CreateOrder(r, freshId));
            var e := ApplyAll(db, h.events);
            && Good(h.state) && e.Done? && Agree(h.state, e.tables)
            && e.tables.users.Keys == db.users.Keys && e.tables.volumes.Keys == db.volumes.Keys
  {
    hide Admit, Match, MatchLoop, TradesOf, Mirrors, CashOk, SharesOk, Wf, ApplyAll, InsertOrder, TradeEvents, InBudget, Matchable;
    var a, id := Admit(s, r, freshId), OrderId(r, freshId);
    AdmitWf(s, r, freshId);
    AdmitCash(s, r, freshId);
    AdmitShares(s, r, freshId);
    AdmittedOrder(s, r, freshId);
    AdmittedMirrors(s, r, freshId, db);
    AdmittedInflight(s, r, freshId);
    AdmittedReady(s, r, freshId);
    var db1 := InsertOrder(db, a.order).tables;
    MatchMirrors(a.state, id, db1);
    MatchWf(a.state, id);
    MatchCash(a.state, id);
    MatchShares(a.state, id);
    MatchInflight(a.state, id);
    ApplyOne(db, OrderCreated(a.order));
    ApplyAllAppend(db, [OrderCreated(a.order)], TradeEvents(TradesOf(a.state, id)));
  }

  lemma AdmittedReady(s: State, r: Request, freshId: Id)
    requires Wf(s) && Admit(s, r, freshId).Admitted?
    ensures Ready(Admit(s, r, freshId).state, OrderId(r, freshId))
  {
    hide Validate, QueueOk, Rests, Uncrossed, AccountsOk, OrderOk;
    AdmitWf(s, r, freshId);
    AdmittedPending(s, r, freshId);
    IsReady(Admit(s, r, freshId).state, OrderId(r, freshId));
  }

  lemma AdmittedPending(s: State, r: Request, freshId: Id)
    requires Admit(s, r, freshId).Admitted?
    ensures var s1 := Admit(s, r, freshId).state;
            var id := OrderId(r, freshId);
            id in s1.inflight && id in s1.orders && s1.orders[id].status.Pending?
  {
    hide Validate;
  }

  lemma MatchInflight(s: State, id: Id)
    requires Ready(s, id)
    ensures Match(s, id).inflight == s.inflight - {id}
  {
    hide MatchLoop, Traded, TradesOf, Settle, Release, QueueOk, Rests, Uncrossed, AccountsOk, OrderOk;
    TradedFields(s, id);
    TradedWf(s, id);
    SettleAllSameButLocks(Traded(s, id), TradesOf(s, id));
    ReleaseSameButLocks(SettleAll(Traded(s, id), TradesOf(s, id)), id);
  }

  /** One command, any outcome. */
  lemma HandleProjects(s: State, db: Tables, c: Command)
    requires Good(s) && Agree(s, db) && Allowed(s, db.users.Keys, db.volumes.Keys, c)
    ensures var h := Handle(s, c);
            var e := ApplyAll(db, h.events);
            && Good(h.state) && e.Done? && Agree(h.state, e.tables)
            && e.tables.users.Keys == db.users.Keys && e.tables.volumes.Keys == db.volumes.Keys
  {
    hide Admit, Cancel, Match, Mirrors, CashOk, SharesOk, Wf, Matchable, InBudget;
    match c
    case CreateOrder(r, freshId) =>
      AdmitWf(s, r, freshId);
      AdmitCash(s, r, freshId);
      AdmitShares(s, r, freshId);
      if Admit(s, r, freshId).Admitted? {
        CreateProjects(s, db, r, freshId);
      } else {
        RefusedMirrors(s, r, freshId, db);
      }
    case CancelOrder(id, event) =>
      CancelWf(s, id, event);
      CancelCash(s, id, event);
      CancelShares(s, id, event);
      if Cancel(s, id, event).result.Ok? {
        CancelMirrors(s, id, event, db);
        ApplyOne(db, OrderCanceled(id));
      } else {
        FailedCancel(s, id, event);
      }
    case CreateMarket(event) =>
      CreateEventWf(s, event);
      OpenCash(s, CreateEvent(s, event));
      OpenShares(s, CreateEvent(s, event));
      OpenEventMirrors(s, event, db);
    case CreateUser(user) =>
      UserCreatedWf(s, user);
      UserCreatedCash(s, user);
      OpenShares(s, UserCreated(s, user));
      OpenUserMirrors(s, user, db);
    case ReadOnly =>
  }

  lemma FailedCancel(s: State, id: Id, event: Id)
    requires Cancel(s, id, event).result.Err?
    ensures Cancel(s, id, event).state == s
  {
  }

  /** Every command of the log is allowed when its turn comes. */
  ghost predicate AllAllowed(s: State, users: set<Id>, events: set<Id>, log: seq<Command>)
    requires Wf(s)
    decreases log
  {
    log != [] ==> Allowed(s, users, events, log[0]) && AllAllowed(Handle(s, log[0]).state, users, events, log[1..])
  }

  /**
   For every log of allowed commands, applying the emitted events never fails, and
   afterwards the tables agree with the engine.
   */
  lemma {:induction false} LogProjects(s: State, db: Tables, log: seq<Command>)
    requires Good(s) && Agree(s, db) && AllAllowed(s, db.users.Keys, db.volumes.Keys, log)
    ensures var e := ApplyAll(db, EventsOf(s, log));
            e.Done? && Agree(HandleAll(s, log), e.tables)
    decreases log
  {
    hide Handle, Wf, CashOk, SharesOk, Agree, ApplyAll, Allowed;
    if log == [] {
      AppliesNothing(db);
    } else {
      var h := Handle(s, log[0]);
      HandleProjects(s, db, log[0]);
      var db1 := ApplyAll(db, h.events).tables;
      LogProjects(h.state, db1, log[1..]);
      ApplyAllAppend(db, h.events, EventsOf(h.state, log[1..]));
    }
  }

  lemma AppliesNothing(db: Tables)
    ensures ApplyAll(db, []) == Done(db)
  {
  }

  // ---------------------------------------------------------------------
  // The start
  // ---------------------------------------------------------------------

  /** An engine that has handled nothing, with seeded positions. */
  function NewEngine(seed: map<PositionKey, Holding>): State {
    State(map[], map[], map[], seed, {}, map[], 0, 0)
  }

  /** Tables with users who signed up, events, and the same positions. */
  function NewTables(seed: map<PositionKey, Holding>, users: set<Id>, events: set<Id>): Tables {
    Tables(map u | u in users :: DEFAULT_STARTING_BALANCE, map e | e in events :: 0, map[], map[],
           map k | k in seed :: seed[k].Total(), [])
  }

  /** The theorem starts somewhere: any non-negative seed, any users and events. */
  lemma NewAgrees(seed: map<PositionKey, Holding>, users: set<Id>, events: set<Id>)
    requires forall k | k in seed :: seed[k].Solvent()
    ensures Good(NewEngine(seed)) && Agree(NewEngine(seed), NewTables(seed, users, events))
  {
    hide QueueOk, Uncrossed, CashSlack, ShareSlack;
    var s := NewEngine(seed);
    forall event, outcome, side ensures QueueOk(s, event, outcome, side) {
      NoQueue(s, event, outcome, side);
    }
    forall event, outcome ensures Uncrossed(s, event, outcome) {
      NoQueue(s, event, outcome, Buy);
    }
    forall user: Id ensures CashSlack(s, user) == 0 {
      NoCashSlack(s, user);
    }
    forall key: PositionKey ensures ShareSlack(s, key) >= 0 {
      NoShareLocks(s, key);
    }
  }

  lemma NoQueue(s: State, event: Id, outcome: Outcome, side: Side)
    requires s.markets == map[]
    ensures QueueOk(s, event, outcome, side) && Uncrossed(s, event, outcome)
  {
  }

  lemma NoCashSlack(s: State, user: Id)
    requires s.orders == map[] && s.balances == map[]
    ensures CashSlack(s, user) == 0
  {
    assert BuyWeights(s.orders, user) == map[];
  }

  lemma NoShareLocks(s: State, key: PositionKey)
    requires s.orders == map[] && forall k | k in s.positions :: s.positions[k].Solvent()
    ensures ShareSlack(s, key) >= 0
  {
    assert SellWeights(s.orders, key) == map[];
  }

  /** What agreement means for one user and one order. */
  lemma AgreementReads(s: State, db: Tables, user: Id, id: Id)
    requires Agree(s, db)
    ensures user in s.balances ==> user in db.users && db.users[user] == s.balances[user].available + s.balances[user].reserved
    ensures id in s.orders ==>
              && id in db.orders
              && db.orders[id].filled == s.orders[id].filled && db.orders[id].remaining == s.orders[id].remaining
              && (db.orders[id].status == s.orders[id].status <==>
                    !(s.orders[id].terms.kind.Market? && s.orders[id].status.Canceled?))
  {
    if id in s.orders {
      assert RowMirrors(s.orders[id], db.orders[id], Quantity([], id));
    }
  }

  // ---------------------------------------------------------------------
  // Where the conditions are needed
  // ---------------------------------------------------------------------

  /** The engine accepts a market order at any price; its row is rejected exactly when the price is negative. */
  lemma NegativePriceBlocks(s: State, db: Tables, r: Request, freshId: Id)
    requires Wf(s) && Agree(s, db) && Admit(s, r, freshId).Admitted? && r.userId in s.balances
    ensures InsertOrder(db, Admit(s, r, freshId).order).Done? <==> r.price >= 0
  {
    hide Validate, Reserve, UsersMirror, PositionsMirror, QueueOk, Rests, Uncrossed, AccountsOk, RowMirrors;
    ValidateOwner(r, OrderId(r, freshId));
    assert s.balances.Keys <= db.users.Keys by { UsersBound(s, db); }
  }

  lemma UsersBound(s: State, db: Tables)
    requires UsersMirror(s, db)
    ensures s.balances.Keys <= db.users.Keys
  {
  }
}
