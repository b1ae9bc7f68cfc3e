/**
 What happens to the lock of a resting BUY. Trades of a maker execute at its own
 price, and only the order being matched is released at the end; so a limit BUY that
 locked more than its remainder is worth, because it bought part of its quantity
 cheaper before it rested, keeps the surplus locked when it is filled.
 */
module Surplus {
  import opened Types
  import opened Matching
  import opened EngineState
  import opened Invariant
  import opened StepInvariant
  import opened MatchInvariant
  import opened Shares
  import opened Cash
  import opened Runs
  import opened Lifecycle
  import opened Priority
  import opened Outcomes

  /** In budget, settling lowers a BUY's lock by exactly what it spends. */
  lemma {:induction false} SettleAllLock(s: State, trades: seq<Trade>, hot: set<Id>, x: Id)
    requires OrdersOk(s) && AllSettleable(s.orders, trades) && CashOk(s, trades, hot)
    requires x in s.orders && s.orders[x].terms.side.Buy?
    ensures SettleAll(s, trades).orders[x].locked == s.orders[x].locked - Spend(trades, x)
    decreases trades
  {
    hide Settle, OrdersOk, Settleable, BuyOk;
    if trades != [] {
      var t, rest := trades[0], trades[1..];
      assert trades == [t] + rest;
      assert Settleable(s.orders, t);
      forall i | 0 <= i < |rest| ensures Sound(rest[i]) && Settleable(s.orders, rest[i]) {
        assert Settleable(s.orders, trades[i + 1]);
        SettleableSound(s.orders, trades[i + 1]);
      }
      SettleCash(s, t, rest, hot);
      SettleSameButLocks(s, t);
      SettleKeepsSettleable(s, t, rest);
      SettleOneLock(s, t, x);
      SpendFirst(t, rest, x);
      SettleAllLock(Settle(s, t), rest, hot, x);
    }
  }

  lemma SettleOneLock(s: State, t: Trade, x: Id)
    requires Settleable(s.orders, t) && x in s.orders && s.orders[x].terms.side.Buy?
    requires s.orders[t.BuyOrder()].locked >= t.Cost()
    ensures Settle(s, t).orders[x].locked == s.orders[x].locked - (if x == t.BuyOrder() then t.Cost() else 0)
    ensures Settle(s, t).orders[x].terms == s.orders[x].terms
  {
    hide Settle;
    SettleLock(s, t, x);
  }

  /** A maker spends its own price for every share. */
  lemma {:induction false} SpendAtPrice(trades: seq<Trade>, x: Id, price: int)
    requires forall i :: 0 <= i < |trades| && trades[i].Names(x) ==>
               trades[i].BuyOrder() == x && trades[i].SellOrder() != x && trades[i].price == price
    ensures Spend(trades, x) == Quantity(trades, x) * price
  {
    if trades != [] {
      SpendAtPrice(trades[1..], x, price);
      assert (trades[0].quantity + Quantity(trades[1..], x)) * price == trades[0].quantity * price + Quantity(trades[1..], x) * price;
    }
  }

  /** A resting BUY named by a trade buys at its own price. */
  lemma MakerTrade(s: State, id: Id, x: Id, i: nat)
    requires Ready(s, id) && x in s.orders && x != id && s.orders[x].terms.side.Buy?
    requires i < |TradesOf(s, id)| && TradesOf(s, id)[i].Names(x)
    ensures var t := TradesOf(s, id)[i];
            t.BuyOrder() == x && t.SellOrder() != x && t.price == s.orders[x].terms.price
  {
    hide TradesOf, MatchLoop;
    TradeSound(s, id, i);
    var t := s.orders[id].terms;
    assert QueueOk(s, t.event, t.outcome, t.side.Opposite());
    QueueMember(s, t.event, t.outcome, t.side.Opposite(), x);
  }

  /** Matching lowers a resting BUY's lock by its limit price for every share it bought. */
  lemma MakerLock(s: State, id: Id, x: Id)
    requires Ready(s, id) && CashOk(s, [], {}) && InBudget(s, id)
    requires x in s.orders && x != id && s.orders[x].terms.side.Buy?
    ensures x in Match(s, id).orders
    ensures var o, o' := s.orders[x], Match(s, id).orders[x];
            o'.locked == o.locked - (o'.filled - o.filled) * o.terms.price
  {
    hide MatchLoop, Traded, TradesOf, Settle, Release, QueueOk, Rests, Uncrossed, AccountsOk, OrderOk, BuyOk, InBudget, Settleable;
    var s1, trades := Traded(s, id), TradesOf(s, id);
    MatchFills(s, id, x);
    TradedWf(s, id);
    TradedCash(s, id);
    TradedSettleable(s, id);
    TradedOrder(s, id, x);
    forall i | 0 <= i < |trades| && trades[i].Names(x)
      ensures trades[i].BuyOrder() == x && trades[i].SellOrder() != x && trades[i].price == s.orders[x].terms.price
    {
      MakerTrade(s, id, x, i);
    }
    SpendAtPrice(trades, x, s.orders[x].terms.price);
    SettleAllLock(s1, trades, {id}, x);
    SettleAllSameButLocks(s1, trades);
    ReleaseOther(SettleAll(s1, trades), id, x);
  }

  lemma ReleaseOther(s: State, id: Id, x: Id)
    requires id in s.orders && x in s.orders && x != id
    ensures x in Release(s, id).orders && Release(s, id).orders[x] == s.orders[x]
  {
  }

  /**
   A resting BUY that another order fills ends with nothing locked if and only if it
   had locked exactly its remainder at its limit price. Nothing will ever release the
   rest, since a filled order never changes again.
   */
  lemma FilledMakerKeepsSurplus(s: State, id: Id, x: Id)
    requires Ready(s, id) && CashOk(s, [], {}) && InBudget(s, id)
    requires x in s.orders && x != id && s.orders[x].terms.side.Buy?
    ensures x in Match(s, id).orders
    ensures Match(s, id).orders[x].status.Filled? ==>
              var o, o' := s.orders[x], Match(s, id).orders[x];
              && o'.locked == o.locked - o.remaining * o.terms.price
              && (o'.locked == 0 <==> o.locked == o.remaining * o.terms.price)
  {
    hide MatchLoop, Traded, TradesOf, Match, QueueOk, Rests, Uncrossed, AccountsOk, InBudget, CashOk, Matchable;
    MakerLock(s, id, x);
    MatchWf(s, id);
    MatchTerms(s, id, x);
    var o, o' := s.orders[x], Match(s, id).orders[x];
    assert OrderOk(o) && OrderOk(o');
    assert o'.status.Filled? ==> o'.filled - o.filled == o.remaining;
  }

  /** In every later run the surplus stays locked. */
  lemma SurplusStays(s: State, steps: seq<Step>, x: Id)
    requires Wf(s) && IsRun(s, steps) && x in s.orders && s.orders[x].status.Filled?
    requires forall i :: 0 <= i < |steps| ==> steps[i] != Unpublished(x)
    ensures x in Run(s, steps).orders && Run(s, steps).orders[x].locked == s.orders[x].locked
  {
    hide Wf, IsRun, Run;
    FinishedIsFinal(s, steps, x);
  }

  // ---------------------------------------------------------------------
  // Where the surplus comes from
  // ---------------------------------------------------------------------

  /** Matching lowers the lock of a BUY that stays live by exactly what it spends. */
  lemma TakerLock(s: State, id: Id)
    requires Ready(s, id) && CashOk(s, [], {}) && InBudget(s, id) && s.orders[id].terms.side.Buy?
    ensures id in Match(s, id).orders
    ensures Match(s, id).orders[id].Live() ==>
              Match(s, id).orders[id].locked == s.orders[id].locked - Spend(TradesOf(s, id), id)
  {
    hide MatchLoop, Traded, TradesOf, Settle, Release, QueueOk, Rests, Uncrossed, AccountsOk, OrderOk, BuyOk, InBudget, Settleable;
    var s1, trades := Traded(s, id), TradesOf(s, id);
    TradedWf(s, id);
    TradedCash(s, id);
    TradedSettleable(s, id);
    TradedOrder(s, id, id);
    SettleAllLock(s1, trades, {id}, id);
    SettleAllSameButLocks(s1, trades);
    ReleaseEmpties(SettleAll(s1, trades), id) by { SettledLock(SettleAll(s1, trades), id); }
  }

  lemma SettledLock(s: State, id: Id)
    requires OrdersOk(s) && id in s.orders
    ensures s.orders[id].locked >= 0
  {
    assert OrderOk(s.orders[id]);
  }

  /** Buying at or below a price costs at most that price a share, and less if and only if some share was cheaper. */
  lemma {:induction false} Discount(trades: seq<Trade>, id: Id, price: int)
    requires forall i :: 0 <= i < |trades| ==>
               trades[i].BuyOrder() == id && trades[i].SellOrder() != id && trades[i].quantity > 0 && trades[i].price <= price
    ensures Spend(trades, id) <= Quantity(trades, id) * price
    ensures Spend(trades, id) < Quantity(trades, id) * price <==> exists i :: 0 <= i < |trades| && trades[i].price < price
  {
    if trades != [] {
      var t, rest := trades[0], trades[1..];
      Discount(rest, id, price);
      ScaleByPrice(t.quantity, t.price, price);
      CheaperShares(t.quantity, t.price, price);
      assert (t.quantity + Quantity(rest, id)) * price == t.quantity * price + Quantity(rest, id) * price;
      assert forall i :: 0 < i < |trades| ==> trades[i] == rest[i - 1];
      if i :| 0 <= i < |rest| && rest[i].price < price {
        assert trades[i + 1].price < price;
      }
    }
  }

  lemma CheaperShares(n: int, p: int, price: int)
    requires n > 0 && p <= price
    ensures n * p < n * price <==> p < price
  {
  }

  /**
   A limit BUY that locked its whole quantity at its limit, and rests after matching,
   has locked more than its remainder is worth if and only if it bought some shares
   below its limit.
   */
  lemma SurplusExactlyWhen(s: State, id: Id)
    requires Ready(s, id) && CashOk(s, [], {}) && s.orders[id].terms.side.Buy? && s.orders[id].terms.kind.Limit?
    requires s.orders[id].locked == s.orders[id].terms.quantity * s.orders[id].terms.price
    ensures id in Match(s, id).orders
    ensures var o := Match(s, id).orders[id];
            o.Live() ==>
              && o.locked >= o.remaining * o.terms.price
              && (o.locked > o.remaining * o.terms.price <==>
                    exists i :: 0 <= i < |TradesOf(s, id)| && TradesOf(s, id)[i].price < o.terms.price)
  {
    hide MatchLoop, Traded, TradesOf, Match, QueueOk, Rests, Uncrossed, AccountsOk, CashOk, Matchable, Settleable;
    var trades, t := TradesOf(s, id), s.orders[id].terms;
    TakerLock(s, id);
    MatchFills(s, id, id);
    MatchTerms(s, id, id);
    MatchWf(s, id);
    assert OrderOk(s.orders[id]) && OrderOk(Match(s, id).orders[id]);
    Purchases(s, id);
    Discount(trades, id, t.price);
    var o := Match(s, id).orders[id];
    assert t.quantity * t.price == o.filled * t.price + o.remaining * t.price;
  }

  lemma Purchases(s: State, id: Id)
    requires Ready(s, id) && s.orders[id].terms.side.Buy? && s.orders[id].terms.kind.Limit?
    ensures forall i :: 0 <= i < |TradesOf(s, id)| ==>
              var t := TradesOf(s, id)[i];
              t.BuyOrder() == id && t.SellOrder() != id && t.quantity > 0 && t.price <= s.orders[id].terms.price
    ensures s.orders[id].filled == 0
  {
    hide MatchLoop, TradesOf, QueueOk, Rests, Uncrossed, AccountsOk;
    forall i | 0 <= i < |TradesOf(s, id)|
      ensures var t := TradesOf(s, id)[i];
              t.BuyOrder() == id && t.SellOrder() != id && t.quantity > 0 && t.price <= s.orders[id].terms.price
    {
      TradeSound(s, id, i);
      PriceWithin(s, id, i);
    }
  }

  lemma PriceWithin(s: State, id: Id, i: nat)
    requires Ready(s, id) && i < |TradesOf(s, id)| && s.orders[id].terms.kind.Limit? && s.orders[id].terms.side.Buy?
    ensures TradesOf(s, id)[i].price <= s.orders[id].terms.price
  {
    hide MatchLoop, TradesOf, QueueOk, Rests, Uncrossed, AccountsOk;
    MatchPrices(s, id, i, i);
  }
}
