/**
 Arithmetic bounds. In in-budget states the value of all resting bids is at most
 all reserved cash; so when the cash supply fits in 64 bits, no balance, settlement
 product, lock or bid-level total overflows.
 */
module Bounds {
  import opened Types
  import opened Matching
  import opened EngineState
  import opened Invariant
  import opened StepInvariant
  import opened MatchInvariant
  import opened Shares
  import opened Cash
  import opened Runs
  import opened Depth
  import Sums

  const INT64_MAX := 0x7fff_ffff_ffff_ffff

  // ---------------------------------------------------------------------
  // All bids are covered by reserved cash
  // ---------------------------------------------------------------------

  /** What a live limit BUY would pay at most for its remainder. */
  function BidValue(o: Order): int {
    if o.Live() && o.terms.side.Buy? && o.terms.kind.Limit? then o.remaining * o.terms.price else 0
  }

  ghost function BidValues(orders: Orders): map<Id, int> {
    map id | id in orders :: BidValue(orders[id])
  }

  function BuyLocked(o: Order): int {
    if o.terms.side.Buy? then o.locked else 0
  }

  ghost function AllBuyLocks(orders: Orders): map<Id, int> {
    map id | id in orders :: BuyLocked(orders[id])
  }

  ghost function ReservedWeights(balances: map<Id, Holding>): map<Id, int> {
    map u | u in balances :: balances[u].reserved
  }

  /** All reserved cash. */
  ghost function ReservedTotal(balances: map<Id, Holding>): int {
    Sums.Sum(ReservedWeights(balances))
  }

  ghost function LocksByUser(orders: Orders, users: set<Id>): map<Id, int> {
    map u | u in users :: BuyLocks(orders, u)
  }

  /** Summing locks by order or by owner is the same, when every lock has its owner among the users. */
  lemma {:induction false} LocksByOwner(orders: Orders, users: set<Id>)
    requires forall id | id in orders && orders[id].terms.side.Buy? && orders[id].locked != 0 :: orders[id].terms.user in users
    ensures Sums.Sum(AllBuyLocks(orders)) == Sums.Sum(LocksByUser(orders, users))
    decreases |orders|
  {
    hide BuyLocks;
    if AllBuyLocks(orders) == map[] {
      assert orders.Keys == AllBuyLocks(orders).Keys;
      assert orders == map[];
      forall u | u in users ensures BuyLocks(orders, u) == 0 {
        NoLocks(u);
      }
      Sums.Zero(LocksByUser(orders, users));
      Sums.Zero(AllBuyLocks(orders));
    } else {
      var id := Sums.Pick(AllBuyLocks(orders));
      LocksByOwner(orders - {id}, users);
      WithoutOrder(orders, users, id);
    }
  }

  lemma NoLocks(user: Id)
    ensures BuyLocks(map[], user) == 0
  {
    assert BuyWeights(map[], user) == map[];
  }

  lemma WithoutOrder(orders: Orders, users: set<Id>, id: Id)
    requires id in orders
    requires orders[id].terms.side.Buy? && orders[id].locked != 0 ==> orders[id].terms.user in users
    ensures Sums.Sum(AllBuyLocks(orders)) == Sums.Sum(AllBuyLocks(orders - {id})) + BuyLocked(orders[id])
    ensures Sums.Sum(LocksByUser(orders, users)) == Sums.Sum(LocksByUser(orders - {id}, users)) + BuyLocked(orders[id])
  {
    hide BuyLocks;
    var o, less := orders[id], orders - {id};
    assert AllBuyLocks(less) == AllBuyLocks(orders) - {id};
    Sums.Remove(AllBuyLocks(orders), id);
    forall u: Id ensures BuyLocks(orders, u) == BuyLocks(less, u) + BuyLock(o, u) {
      assert less[id := o] == orders;
      BuyLocksSet(less, id, o, u);
    }
    var a, b := LocksByUser(less, users), LocksByUser(orders, users);
    if o.terms.user in users {
      assert b == a[o.terms.user := BuyLocks(less, o.terms.user) + BuyLock(o, o.terms.user)];
      Sums.Update(a, o.terms.user, BuyLocks(less, o.terms.user) + BuyLock(o, o.terms.user));
    } else {
      assert b == a;
    }
  }

  /** Every positive lock has its owner among the accounts. */
  lemma OwnerHasAccount(s: State, id: Id)
    requires OrdersOk(s) && CashOk(s, [], {}) && id in s.orders && s.orders[id].terms.side.Buy? && s.orders[id].locked != 0
    ensures s.orders[id].terms.user in s.balances
  {
    hide BuyOk, OrderOk, CashSlack;
    assert OrderOk(s.orders[id]);
    LockPositive(s.orders[id]);
    ReservedCashCovers(s, id);
  }

  lemma LockPositive(o: Order)
    requires OrderOk(o) && o.locked != 0
    ensures o.locked > 0
  {
  }

  /** A live limit BUY locks at least its value. */
  lemma BidWithinLock(s: State, id: Id)
    requires OrdersOk(s) && CashOk(s, [], {}) && id in s.orders
    ensures 0 <= BidValue(s.orders[id]) <= BuyLocked(s.orders[id])
  {
    hide CashSlack;
    var o := s.orders[id];
    assert OrderOk(o) && BuyOk(s, [], {}, id);
    assert Spend([], id) == 0;
    if BidValue(o) != 0 {
      CostOf(o.remaining, o.terms.price);
    }
  }

  lemma CostOf(n: int, p: int)
    requires n >= 0 && p > 0
    ensures n * p >= n
  {
  }

  /** The value of all live limit BUYs, in every book and in flight, is at most all reserved cash. */
  lemma BidsWithinReserved(s: State)
    requires OrdersOk(s) && AccountsOk(s) && CashOk(s, [], {})
    ensures Sums.Sum(BidValues(s.orders)) <= ReservedTotal(s.balances) <= CashTotal(s.balances)
  {
    hide BidValue, BuyLocked, CashSlack, BuyLocks, BuyOk, OrderOk;
    forall id | id in s.orders ensures BidValue(s.orders[id]) <= BuyLocked(s.orders[id]) {
      BidWithinLock(s, id);
    }
    Sums.Monotone(BidValues(s.orders), AllBuyLocks(s.orders));
    var users := s.balances.Keys;
    forall id | id in s.orders && s.orders[id].terms.side.Buy? && s.orders[id].locked != 0
      ensures s.orders[id].terms.user in users
    {
      OwnerHasAccount(s, id);
    }
    LocksByOwner(s.orders, users);
    forall u | u in users
      ensures BuyLocks(s.orders, u) <= s.balances[u].reserved <= s.balances[u].Total()
    {
      ReservedOfUser(s, u);
    }
    Sums.Monotone(LocksByUser(s.orders, users), ReservedWeights(s.balances));
    Sums.Monotone(ReservedWeights(s.balances), CashWeights(s.balances));
  }

  lemma ReservedOfUser(s: State, u: Id)
    requires u in s.balances && AccountsOk(s) && CashOk(s, [], {})
    ensures BuyLocks(s.orders, u) <= s.balances[u].reserved <= s.balances[u].Total()
  {
    hide BuyLocks, BuyOk;
    assert Get(s.balances, u).Solvent() && CashSlack(s, u) >= 0;
  }

  // ---------------------------------------------------------------------
  // The levels of one book
  // ---------------------------------------------------------------------

  function LevelTotals(levels: seq<Level>): int {
    if levels == [] then 0 else levels[0].total + LevelTotals(levels[1..])
  }

  /** The value of the orders of a queue that depth shows. */
  function ShownValue(o: Order): int {
    if Shown(o) then o.remaining * o.terms.price else 0
  }

  function QueueValue(orders: Orders, queue: seq<Id>): int
    requires Known(orders, queue)
  {
    if queue == [] then 0 else
      QueueValue(orders, queue[..|queue| - 1]) + ShownValue(orders[queue[|queue| - 1]])
  }

  ghost function PriceValues(orders: Orders, queue: seq<Id>, prices: set<int>): map<int, int>
    requires Known(orders, queue)
  {
    map p | p in prices :: p * QuantityAt(orders, queue, p)
  }

  /** Grouping by price does not change the value. */
  lemma {:induction false} GroupedValue(orders: Orders, queue: seq<Id>, prices: set<int>)
    requires Known(orders, queue)
    requires forall p: int :: CountAt(orders, queue, p) > 0 ==> p in prices
    ensures Sums.Sum(PriceValues(orders, queue, prices)) == QueueValue(orders, queue)
    decreases queue
  {
    if queue == [] {
      Sums.Zero(PriceValues(orders, queue, prices));
    } else {
      var n := |queue| - 1;
      var init, o := queue[..n], orders[queue[n]];
      var a, b := PriceValues(orders, init, prices), PriceValues(orders, queue, prices);
      GroupedValue(orders, init, prices);
      if Shown(o) {
        var p := o.terms.price;
        assert CountAt(orders, queue, p) > 0;
        Distribute(p, QuantityAt(orders, init, p), o.remaining);
        assert b == a[p := a[p] + ShownValue(o)];
        Sums.Update(a, p, a[p] + ShownValue(o));
      } else {
        assert b == a;
      }
    }
  }

  lemma Distribute(p: int, m: int, n: int)
    ensures p * (m + n) == p * m + n * p
  {
  }

  ghost function LevelMap(levels: seq<Level>): map<int, int> {
    if levels == [] then map[] else LevelMap(levels[1..])[levels[0].price := levels[0].total]
  }

  lemma {:induction false} LevelMapSum(side: Side, levels: seq<Level>)
    requires Ordered(side, levels)
    ensures Sums.Sum(LevelMap(levels)) == LevelTotals(levels)
    ensures forall p: int :: p in LevelMap(levels) <==> HasPrice(levels, p)
    ensures forall i :: 0 <= i < |levels| ==> levels[i].price in LevelMap(levels) && LevelMap(levels)[levels[i].price] == levels[i].total
  {
    if levels != [] {
      var first, rest := levels[0], levels[1..];
      LevelMapSum(side, rest);
      forall i | 0 <= i < |rest| ensures rest[i].price != first.price {
        assert AheadOf(side, levels[0].price, levels[i + 1].price);
      }
      assert !HasPrice(rest, first.price);
      Sums.Update(LevelMap(rest), first.price, first.total);
      forall p: int ensures HasPrice(levels, p) <==> p == first.price || HasPrice(rest, p) {
        HasPriceFirst(levels, p);
      }
      forall i | 0 <= i < |levels|
        ensures levels[i].price in LevelMap(levels) && LevelMap(levels)[levels[i].price] == levels[i].total
      {
        if i > 0 {
          assert levels[i] == rest[i - 1];
        }
      }
    } else {
      Sums.Zero(LevelMap(levels));
    }
  }

  lemma HasPriceFirst(levels: seq<Level>, p: int)
    requires levels != []
    ensures HasPrice(levels, p) <==> p == levels[0].price || HasPrice(levels[1..], p)
  {
    if HasPrice(levels[1..], p) {
      var i :| 0 <= i < |levels[1..]| && levels[1..][i].price == p;
      assert levels[i + 1].price == p;
    }
    if HasPrice(levels, p) {
      var i :| 0 <= i < |levels| && levels[i].price == p;
      assert i > 0 ==> levels[1..][i - 1].price == p;
    }
  }

  /** The totals of a depth add up to the value of the orders it shows. */
  lemma DepthTotals(side: Side, orders: Orders, queue: seq<Id>, levels: seq<Level>)
    requires Known(orders, queue) && IsDepth(side, orders, queue, levels)
    ensures LevelTotals(levels) == QueueValue(orders, queue)
  {
    hide CountAt, QuantityAt, LevelTotals, LevelMap, HasPrice, Ordered;
    LevelMapSum(side, levels);
    var prices := LevelMap(levels).Keys;
    forall p | p in prices ensures LevelMap(levels)[p] == p * QuantityAt(orders, queue, p) {
      var i := IndexOf(levels, p);
      assert Exact(orders, queue, levels[i]);
    }
    assert LevelMap(levels) == PriceValues(orders, queue, prices);
    GroupedValue(orders, queue, prices);
  }

  lemma IndexOf(levels: seq<Level>, p: int) returns (i: nat)
    requires HasPrice(levels, p)
    ensures i < |levels| && levels[i].price == p
  {
    i :| 0 <= i < |levels| && levels[i].price == p;
  }

  /** Distinct bids are worth at most all bids. */
  lemma {:induction false} QueueWithinBids(orders: Orders, queue: seq<Id>, w: map<Id, int>)
    requires Known(orders, queue) && Distinct(queue)
    requires forall id :: id in w ==> w[id] >= 0
    requires forall i :: 0 <= i < |queue| ==> queue[i] in w && w[queue[i]] == ShownValue(orders[queue[i]])
    ensures QueueValue(orders, queue) <= Sums.Sum(w)
    decreases queue
  {
    if queue == [] {
      forall id | id in w ensures w[id] >= 0 {
      }
      Sums.NonNegative(w);
    } else {
      var n := |queue| - 1;
      Sums.Split(w, queue[n]);
      QueueWithinBids(orders, queue[..n], w - {queue[n]});
    }
  }

  /** A shown bid is a live limit BUY, so depth and reservation agree on its value. */
  lemma BidShown(s: State, event: Id, outcome: Outcome, id: Id)
    requires OrdersOk(s) && QueueOk(s, event, outcome, Buy) && id in Resting(s, event, outcome, Buy)
    ensures id in s.orders && ShownValue(s.orders[id]) == BidValue(s.orders[id])
  {
    QueueMember(s, event, outcome, Buy, id);
    assert OrderOk(s.orders[id]);
  }

  lemma QueueDistinct(s: State, event: Id, outcome: Outcome, side: Side)
    requires QueueOk(s, event, outcome, side)
    ensures Known(s.orders, Resting(s, event, outcome, side)) && Distinct(Resting(s, event, outcome, side))
  {
    var queue := Resting(s, event, outcome, side);
    forall i, j | 0 <= i < j < |queue| ensures queue[i] != queue[j] {
      assert Before(s.orders, s.arrival, side, queue[i], queue[j]);
    }
  }

  /**
   Depth and book agree on the best price: the first level has the price of the first
   order in the queue, and there is a level exactly when there is an order.
   */
  lemma BestLevelFirst(s: State, event: Id, outcome: Outcome, side: Side, levels: seq<Level>)
    requires Wf(s) && Known(s.orders, Resting(s, event, outcome, side))
    requires IsDepth(side, s.orders, Resting(s, event, outcome, side), levels)
    ensures var queue := Resting(s, event, outcome, side);
            && (levels == [] <==> queue == [])
            && (levels != [] && queue != [] ==> levels[0].price == s.orders[queue[0]].terms.price)
            && (forall i, j :: 0 <= i < j < |levels| ==>
                  if side == Buy then levels[i].price > levels[j].price else levels[i].price < levels[j].price)
  {
    hide Resting, Rests, Uncrossed, AccountsOk, OrderOk, CountAt, QuantityAt;
    var queue := Resting(s, event, outcome, side);
    BidsFallAsksRise(side, levels);
    forall i: nat | i < |queue| ensures CountAt(s.orders, queue, s.orders[queue[i]].terms.price) > 0 {
      assert QueueOk(s, event, outcome, side);
      QueueMember(s, event, outcome, side, queue[i]);
      LiveRemains(s, queue[i]);
      CountsOne(s.orders, queue, i);
    }
    assert queue != [] ==> HasPrice(levels, s.orders[queue[0]].terms.price);
    if levels != [] {
      assert Exact(s.orders, queue, levels[0]);
      var k := SomeCounted(s.orders, queue, levels[0].price);
      assert QueueOk(s, event, outcome, side);
      FirstIsBest(s, event, outcome, side, k);
      var j := IndexOf(levels, s.orders[queue[0]].terms.price);
      FirstIsAhead(side, levels, j);
    }
  }

  lemma FirstIsBest(s: State, event: Id, outcome: Outcome, side: Side, k: nat)
    requires QueueOk(s, event, outcome, side) && k < |Resting(s, event, outcome, side)|
    ensures var queue := Resting(s, event, outcome, side);
            && queue[0] in s.orders && queue[k] in s.orders
            && (if side == Buy then s.orders[queue[0]].terms.price >= s.orders[queue[k]].terms.price
                else s.orders[queue[0]].terms.price <= s.orders[queue[k]].terms.price)
  {
    var queue := Resting(s, event, outcome, side);
    QueueMember(s, event, outcome, side, queue[0]);
    QueueMember(s, event, outcome, side, queue[k]);
    if k > 0 {
      assert Before(s.orders, s.arrival, side, queue[0], queue[k]);
    }
  }

  lemma LiveRemains(s: State, id: Id)
    requires Wf(s) && id in s.orders && s.orders[id].Live()
    ensures s.orders[id].remaining > 0
  {
    hide QueueOk, Rests, Uncrossed, AccountsOk;
    assert OrderOk(s.orders[id]);
  }

  lemma CountsOne(orders: Orders, queue: seq<Id>, i: nat)
    requires Known(orders, queue) && i < |queue| && orders[queue[i]].Live() && orders[queue[i]].remaining > 0
    ensures CountAt(orders, queue, orders[queue[i]].terms.price) > 0
  {
    hide CountAt, QuantityAt;
    var price := orders[queue[i]].terms.price;
    LevelMeans(orders, queue, price);
    assert i in Positions(orders, queue, price);
  }

  lemma SomeCounted(orders: Orders, queue: seq<Id>, price: int) returns (k: nat)
    requires Known(orders, queue) && CountAt(orders, queue, price) > 0
    ensures k < |queue| && orders[queue[k]].terms.price == price
  {
    hide CountAt, QuantityAt;
    LevelMeans(orders, queue, price);
    var i :| i in Positions(orders, queue, price);
    k := i;
  }

  /** The bid totals of a book's depth are at most all reserved cash. */
  lemma BidDepthWithinReserved(s: State, event: Id, outcome: Outcome, levels: seq<Level>)
    requires Wf(s) && CashOk(s, [], {})
    requires Known(s.orders, Resting(s, event, outcome, Buy))
    requires IsDepth(Buy, s.orders, Resting(s, event, outcome, Buy), levels)
    ensures LevelTotals(levels) <= ReservedTotal(s.balances)
  {
    hide IsDepth, LevelTotals, CashOk, Rests, Uncrossed, AccountsOk, Resting, ShownValue, BidValue, OrderOk;
    var queue := Resting(s, event, outcome, Buy);
    assert QueueOk(s, event, outcome, Buy);
    QueueDistinct(s, event, outcome, Buy);
    DepthTotals(Buy, s.orders, queue, levels);
    forall i | 0 <= i < |queue| ensures queue[i] in s.orders && ShownValue(s.orders[queue[i]]) == BidValue(s.orders[queue[i]]) {
      BidShown(s, event, outcome, queue[i]);
    }
    forall id | id in s.orders ensures BidValue(s.orders[id]) >= 0 {
      BidWithinLock(s, id);
    }
    QueueWithinBids(s.orders, queue, BidValues(s.orders));
    BidsWithinReserved(s);
  }

  // ---------------------------------------------------------------------
  // 64-bit arithmetic
  // ---------------------------------------------------------------------

  predicate FitsInt64(v: int) {
    -INT64_MAX - 1 <= v <= INT64_MAX
  }

  /** No account holds more than the cash supply. */
  lemma HoldingWithinSupply(s: State, user: Id)
    requires AccountsOk(s)
    ensures 0 <= Get(s.balances, user).available && 0 <= Get(s.balances, user).reserved
    ensures Get(s.balances, user).Total() <= CashTotal(s.balances)
  {
    var w := CashWeights(s.balances);
    assert Get(s.balances, user).Solvent();
    forall u | u in w ensures w[u] >= 0 {
      assert Get(s.balances, u).Solvent();
    }
    if user in s.balances {
      Sums.AtMostSum(w, user);
    } else {
      Sums.NonNegative(w);
    }
  }

  /** The product, the balances and the lock that one settlement computes fit. */
  predicate TradeFits(s: State, t: Trade) {
    && FitsInt64(t.Cost()) && FitsInt64(Get(s.balances, t.buyer).reserved - t.Cost())
    && FitsInt64(Get(Settle(s, t).balances, t.seller).available)
    && FitsInt64(Get(Settle(s, t).balances, t.seller).Total()) && FitsInt64(Get(Settle(s, t).balances, t.buyer).Total())
    && (t.BuyOrder() in s.orders ==> FitsInt64(s.orders[t.BuyOrder()].locked - t.Cost()))
  }

  /** A BUY's lock is at most its user's reserved cash. */
  lemma LockWithinReserved(s: State, t: Trade, pending: seq<Trade>, hot: set<Id>)
    requires OrdersOk(s) && CashOk(s, [t] + pending, hot) && Settleable(s.orders, t)
    ensures s.orders[t.BuyOrder()].locked <= Get(s.balances, t.buyer).reserved
  {
    hide BuyOk, CashSlack, OrderOk, Get;
    assert CashSlack(s, t.buyer) >= 0;
    ReservedCashCovers(s, t.BuyOrder());
  }

  /**
   One settlement in the middle of a match: the product, both new balances and the
   new lock fit when the cash supply does.
   */
  lemma SettlementFits(s: State, t: Trade, pending: seq<Trade>, hot: set<Id>)
    requires OrdersOk(s) && AccountsOk(s) && CashOk(s, [t] + pending, hot) && Settleable(s.orders, t)
    requires forall i :: 0 <= i < |pending| ==> Sound(pending[i])
    requires CashTotal(s.balances) <= INT64_MAX
    ensures 0 < t.Cost() <= Get(s.balances, t.buyer).reserved && TradeFits(s, t)
    ensures CashTotal(Settle(s, t).balances) <= INT64_MAX
  {
    hide Settle, CashOk, CashTotal, CashSlack, BuyOk, Get;
    SettleableSound(s.orders, t);
    BuyerCovered(s, t, pending, hot);
    CostPositive(t);
    SettleCash(s, t, pending, hot);
    SettleAccounts(s, t);
    HoldingWithinSupply(s, t.buyer);
    HoldingWithinSupply(Settle(s, t), t.buyer);
    HoldingWithinSupply(Settle(s, t), t.seller);
    LockWithinReserved(s, t, pending, hot);
  }

  // ---------------------------------------------------------------------
  // Every settlement of a run
  // ---------------------------------------------------------------------

  /** So do those of a sequence of settlements, each in the state the earlier ones left. */
  predicate TradesFit(s: State, trades: seq<Trade>)
    decreases trades
  {
    if trades == [] then true else
      var rest := trades[1..];
      TradeFits(s, trades[0]) && TradesFit(Settle(s, trades[0]), rest)
  }

  lemma {:induction false} SettlementsFit(s: State, trades: seq<Trade>, hot: set<Id>)
    requires OrdersOk(s) && AccountsOk(s) && CashOk(s, trades, hot) && AllSettleable(s.orders, trades)
    requires CashTotal(s.balances) <= INT64_MAX
    ensures TradesFit(s, trades)
    decreases trades
  {
    hide Settle, OrdersOk, AccountsOk, Settleable, CashOk, CashTotal, TradeFits;
    if trades != [] {
      var t, rest := trades[0], trades[1..];
      assert trades == [t] + rest;
      assert Settleable(s.orders, t);
      forall i | 0 <= i < |rest| ensures Sound(rest[i]) && Settleable(s.orders, rest[i]) {
        assert Settleable(s.orders, trades[i + 1]);
        SettleableSound(s.orders, trades[i + 1]);
      }
      SettlementFits(s, t, rest, hot);
      SettleCash(s, t, rest, hot);
      SettleSameButLocks(s, t);
      SettleAccounts(s, t) by { SettleableSound(s.orders, t); }
      SettleKeepsSettleable(s, t, rest);
      SettlementsFit(Settle(s, t), rest, hot);
    }
  }

  /** The settlements of one step of the engine. */
  predicate StepSettlementsFit(s: State, step: Step)
    requires Enabled(s, step)
  {
    step.MatchNow? && s.orders[step.order].status.Pending? && s.orders[step.order].terms.event in s.markets ==>
      TradesFit(Traded(s, step.order), TradesOf(s, step.order))
  }

  lemma MatchSettlementsFit(s: State, id: Id)
    requires Ready(s, id) && CashOk(s, [], {}) && InBudget(s, id) && CashTotal(s.balances) <= INT64_MAX
    ensures TradesFit(Traded(s, id), TradesOf(s, id))
  {
    hide MatchLoop, Traded, TradesOf, QueueOk, Rests, Uncrossed, AccountsOk, OrderOk, CashOk, InBudget, CashTotal, TradesFit;
    TradedFields(s, id);
    TradedWf(s, id);
    TradedCash(s, id);
    TradedSettleable(s, id);
    SettlementsFit(Traded(s, id), TradesOf(s, id), {id});
  }

  ghost predicate RunSettlementsFit(s: State, steps: seq<Step>)
    requires IsRun(s, steps)
    decreases steps
  {
    steps != [] ==> StepSettlementsFit(s, steps[0]) && RunSettlementsFit(Apply(s, steps[0]), steps[1..])
  }

  lemma {:induction false} GrantsPositive(s: State, steps: seq<Step>)
    requires IsRun(s, steps)
    ensures Grants(s, steps) >= 0
    decreases steps
  {
    hide Apply, Enabled;
    if steps != [] {
      GrantsPositive(Apply(s, steps[0]), steps[1..]);
    }
  }

  /**
   Every settlement of every match of an in-budget run computes only numbers that fit
   in 64 bits, when the cash supply at the end of the run does.
   */
  lemma {:induction false} RunSettlements(s: State, steps: seq<Step>)
    requires Wf(s) && IsRun(s, steps) && CashOk(s, [], {}) && RunInBudget(s, steps)
    requires CashTotal(s.balances) + Grants(s, steps) <= INT64_MAX
    ensures RunSettlementsFit(s, steps)
    decreases steps
  {
    hide Wf, Apply, Enabled, CashOk, CashTotal, Grant, StepSettlementsFit, StepInBudget;
    if steps != [] {
      StepCash(s, steps[0]);
      StepWf(s, steps[0]);
      GrantsPositive(Apply(s, steps[0]), steps[1..]);
      GrantPositive(s, steps[0]);
      StepSettlements(s, steps[0]);
      RunSettlements(Apply(s, steps[0]), steps[1..]);
    }
  }

  lemma GrantPositive(s: State, step: Step)
    ensures Grant(s, step) >= 0
  {
  }

  lemma StepSettlements(s: State, step: Step)
    requires Wf(s) && Enabled(s, step) && CashOk(s, [], {}) && StepInBudget(s, step) && CashTotal(s.balances) <= INT64_MAX
    ensures StepSettlementsFit(s, step)
  {
    hide CashOk, CashTotal, QueueOk, Rests, Uncrossed, AccountsOk, OrderOk, TradesFit, Traded, TradesOf, InBudget;
    if step.MatchNow? && s.orders[step.order].status.Pending? {
      IsReady(s, step.order);
      MatchSettlementsFit(s, step.order);
    }
  }

  // ---------------------------------------------------------------------
  // Every state of a run
  // ---------------------------------------------------------------------

  /**
   In every state of an in-budget run, every balance, every sum of a balance's parts
   and every total of a bid level fit, when the final cash supply and the starting
   state do.
   */
  lemma RunFits(s: State, steps: seq<Step>, user: Id, event: Id, outcome: Outcome, levels: seq<Level>, i: nat)
    requires Wf(s) && IsRun(s, steps) && CashOk(s, [], {}) && RunInBudget(s, steps)
    requires CashTotal(s.balances) + Grants(s, steps) <= INT64_MAX
    requires var s' := Run(s, steps);
             Known(s'.orders, Resting(s', event, outcome, Buy)) && IsDepth(Buy, s'.orders, Resting(s', event, outcome, Buy), levels)
    ensures var s' := Run(s, steps);
            && FitsInt64(Get(s'.balances, user).available) && FitsInt64(Get(s'.balances, user).reserved)
            && FitsInt64(Get(s'.balances, user).Total())
            && (i < |levels| ==> FitsInt64(levels[i].total) && FitsInt64(levels[i].quantity))
  {
    hide Wf, IsRun, Run, RunInBudget, Grants, CashOk, CashTotal, IsDepth, ReservedTotal, Resting, LevelTotals, Get;
    var s' := Run(s, steps);
    RunWf(s, steps);
    RunCash(s, steps);
    WfParts(s');
    HoldingWithinSupply(s', user);
    BidDepthWithinReserved(s', event, outcome, levels);
    BidsWithinReserved(s');
    if i < |levels| {
      LevelWithinTotals(s', event, outcome, levels, i);
    }
  }

  lemma WfParts(s: State)
    requires Wf(s)
    ensures OrdersOk(s) && AccountsOk(s)
  {
  }

  /** No bid level is negative, so each is at most their sum. */
  lemma LevelWithinTotals(s: State, event: Id, outcome: Outcome, levels: seq<Level>, i: nat)
    requires Wf(s) && Known(s.orders, Resting(s, event, outcome, Buy))
    requires IsDepth(Buy, s.orders, Resting(s, event, outcome, Buy), levels) && i < |levels|
    ensures 0 <= levels[i].quantity <= levels[i].total <= LevelTotals(levels)
  {
    hide Resting, CountAt, QuantityAt, LevelTotals, Ordered, HasPrice, Rests, Uncrossed, AccountsOk, OrderOk;
    forall k | 0 <= k < |levels| ensures 0 <= levels[k].quantity <= levels[k].total {
      assert Exact(s.orders, Resting(s, event, outcome, Buy), levels[k]);
      assert QueueOk(s, event, outcome, Buy);
      ShownPositive(s, event, outcome, Resting(s, event, outcome, Buy), levels[k].price);
      CostOf(levels[k].quantity, levels[k].price);
    }
    PartOfTotals(levels, i);
  }

  lemma {:induction false} PartOfTotals(levels: seq<Level>, i: nat)
    requires forall k :: 0 <= k < |levels| ==> 0 <= levels[k].total
    requires i < |levels|
    ensures levels[i].total <= LevelTotals(levels)
  {
    if i == 0 {
      TotalsNonNegative(levels[1..]);
    } else {
      PartOfTotals(levels[1..], i - 1);
    }
  }

  lemma {:induction false} TotalsNonNegative(levels: seq<Level>)
    requires forall k :: 0 <= k < |levels| ==> 0 <= levels[k].total
    ensures LevelTotals(levels) >= 0
  {
    if levels != [] {
      TotalsNonNegative(levels[1..]);
    }
  }

  /** Shown prices and quantities of bids are positive. */
  lemma {:induction false} ShownPositive(s: State, event: Id, outcome: Outcome, queue: seq<Id>, price: int)
    requires OrdersOk(s) && QueueOk(s, event, outcome, Buy) && Known(s.orders, queue)
    requires forall i :: 0 <= i < |queue| ==> queue[i] in Resting(s, event, outcome, Buy)
    ensures QuantityAt(s.orders, queue, price) >= 0
    ensures CountAt(s.orders, queue, price) > 0 ==> price > 0
    decreases queue
  {
    hide Resting, QueueOk;
    if queue != [] {
      var n := |queue| - 1;
      ShownPositive(s, event, outcome, queue[..n], price);
      QueueMember(s, event, outcome, Buy, queue[n]);
      assert OrderOk(s.orders[queue[n]]);
    }
  }
}
