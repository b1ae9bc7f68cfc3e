/**
 What matching does in a reachable state, said without queues: the candidates are
 all live, matched limit orders on the other side of the same event and outcome.
 */
module Priority {
  import opened Types
  import opened Matching
  import opened PriceTime
  import opened EngineState
  import opened Invariant
  import opened StepInvariant
  import opened MatchInvariant
  import opened Shares
  import opened Runs
  import opened Lifecycle
  import Sums

  /** Every order the incoming one could meet. */
  ghost function Pool(s: State, t: Terms): set<Id> {
    set x | x in s.orders && Belongs(s, x, t.event, t.outcome, t.side.Opposite())
  }

  lemma PoolIsFacing(s: State, id: Id)
    requires Ready(s, id)
    ensures var t := s.orders[id].terms;
            Covers(s.orders, s.arrival, Pool(s, t), Facing(s, t), id) && id !in Pool(s, t)
  {
    var t := s.orders[id].terms;
    var queue := Facing(s, t);
    FacingReady(s, id);
    assert QueueOk(s, t.event, t.outcome, t.side.Opposite());
    forall i | 0 <= i < |queue| ensures queue[i] in Pool(s, t) {
      assert Belongs(s, queue[i], t.event, t.outcome, t.side.Opposite());
    }
    forall x | x in Pool(s, t) ensures x in queue {
      assert Rests(s, x);
    }
  }

  /** The trades of a match are those of the greedy price-time rule over all candidates. */
  lemma MatchFollowsPriceTime(s: State, id: Id)
    requires Ready(s, id)
    ensures TradesOf(s, id) == Greedy(s.orders, s.arrival, Pool(s, s.orders[id].terms), id, s.nextTrade).trades
  {
    hide MatchLoop, Greedy, Covers, Wf;
    var t := s.orders[id].terms;
    PoolIsFacing(s, id);
    MatchIsGreedy(s.orders, s.arrival, Pool(s, t), Facing(s, t), id, s.nextTrade);
  }

  /** The order fills up to its quantity or the liquidity it can reach, whichever is less. */
  lemma MatchFillsMaximally(s: State, id: Id)
    requires Ready(s, id)
    ensures Traded(s, id).orders[id].filled
         == Min(s.orders[id].terms.quantity, Liquidity(s.orders, Pool(s, s.orders[id].terms), id))
  {
    hide MatchLoop, Traded, Covers, Liquidity, QueueOk, Rests, Uncrossed;
    var t := s.orders[id].terms;
    PoolIsFacing(s, id);
    assert OrderOk(s.orders[id]);
    MaximalFill(s.orders, s.arrival, Pool(s, t), Facing(s, t), id, s.nextTrade);
    TradedQuantity(s, id, id);
  }

  /** Successive trades get no better for the taker, and none is worse than its limit. */
  lemma MatchPrices(s: State, id: Id, i: nat, j: nat)
    requires Ready(s, id) && i <= j < |TradesOf(s, id)|
    ensures var t := s.orders[id].terms;
            && NoBetter(t.side, TradesOf(s, id)[i].price, TradesOf(s, id)[j].price)
            && (t.kind.Limit? ==> NoBetter(t.side, TradesOf(s, id)[j].price, t.price))
  {
    hide MatchLoop, Covers, Wf;
    var t := s.orders[id].terms;
    PoolIsFacing(s, id);
    PricesMonotone(s.orders, s.arrival, Pool(s, t), Facing(s, t), id, s.nextTrade, i, j);
    if t.kind.Limit? {
      PriceWithinLimit(s.orders, Facing(s, t), id, s.nextTrade, j);
    }
  }

  // ---------------------------------------------------------------------
  // What an order finds, said field by field
  // ---------------------------------------------------------------------

  /**
   A resting order meets an incoming one: a live limit order of another user, on the
   other side of the same outcome of the same event, at any price when the incoming order
   is a market order, and at its limit or better when it is a limit order.
   */
  predicate Meets(s: State, incoming: Terms, x: Id) {
    && x in s.orders && x !in s.inflight
    && (s.orders[x].status == Pending || s.orders[x].status == Partial) && s.orders[x].terms.kind == Limit
    && s.orders[x].terms.event == incoming.event && s.orders[x].terms.outcome == incoming.outcome
    && s.orders[x].terms.user != incoming.user
    && (incoming.side == Buy ==>
          s.orders[x].terms.side == Sell && (incoming.kind == OrderType.Market || s.orders[x].terms.price <= incoming.price))
    && (incoming.side == Sell ==>
          s.orders[x].terms.side == Buy && (incoming.kind == OrderType.Market || s.orders[x].terms.price >= incoming.price))
  }

  ghost function MetRemainders(s: State, incoming: Terms): map<Id, int> {
    map x | x in s.orders :: if Meets(s, incoming, x) then s.orders[x].remaining else 0
  }

  lemma MeetsIsEligible(s: State, id: Id, x: Id)
    requires Ready(s, id) && x in s.orders
    ensures Meets(s, s.orders[id].terms, x) <==> x in Pool(s, s.orders[id].terms) && Eligible(s.orders, x, id)
  {
    hide Uncrossed, AccountsOk, OrdersOk, QueueOk;
    var t := s.orders[id].terms;
    assert OrderOk(s.orders[x]) && Rests(s, x) by { PartsOf(s, x); }
    if s.orders[x].Live() && x !in s.inflight {
      var u := s.orders[x].terms;
      assert QueueOk(s, u.event, u.outcome, u.side);
      QueueMember(s, u.event, u.outcome, u.side, x);
    }
  }

  lemma PartsOf(s: State, x: Id)
    requires Wf(s) && x in s.orders
    ensures OrderOk(s.orders[x]) && Rests(s, x)
  {
    hide QueueOk, Uncrossed, AccountsOk;
  }

  lemma LiquidityIsMet(s: State, id: Id)
    requires Ready(s, id)
    ensures Liquidity(s.orders, Pool(s, s.orders[id].terms), id) == Sums.Sum(MetRemainders(s, s.orders[id].terms))
  {
    hide Wf, Meets, Pool, Eligible;
    var t := s.orders[id].terms;
    var m, n := Weights(s.orders, Pool(s, t), id), MetRemainders(s, t);
    forall x | x in s.orders ensures n[x] == if x in m then m[x] else 0 {
      MeetsIsEligible(s, id, x);
    }
    Sums.Extend(m, n);
  }

  /**
   In every reachable state a matched order, limit or market, fills up to its quantity or
   the remainders of all the orders it meets, whichever is less.
   */
  lemma FillsWhatItMeets(s: State, id: Id)
    requires Ready(s, id)
    ensures id in Match(s, id).orders
    ensures Match(s, id).orders[id].filled
         == Min(s.orders[id].terms.quantity, Sums.Sum(MetRemainders(s, s.orders[id].terms)))
  {
    hide MatchLoop, Traded, TradesOf, Match, Liquidity, QueueOk, Rests, Uncrossed, AccountsOk, MetRemainders;
    MatchFillsMaximally(s, id);
    LiquidityIsMet(s, id);
    TradedQuantity(s, id, id);
    MatchFills(s, id, id);
  }

  /** So it trades if and only if it meets some order. */
  lemma TradesIffMeets(s: State, id: Id)
    requires Ready(s, id)
    ensures |TradesOf(s, id)| > 0 <==> exists x :: Meets(s, s.orders[id].terms, x)
  {
    hide MatchLoop, Traded, TradesOf, Match, QueueOk, Rests, Uncrossed, AccountsOk, Meets, Matchable;
    var t, w := s.orders[id].terms, MetRemainders(s, s.orders[id].terms);
    FillsWhatItMeets(s, id);
    MatchFills(s, id, id);
    assert OrderOk(s.orders[id]);
    forall x | x in s.orders ensures Meets(s, t, x) ==> s.orders[x].remaining > 0 {
      MetRemains(s, t, x);
    }
    if x :| Meets(s, t, x) {
      MetIsKnown(s, t, x);
      Sums.AtMostSum(w, x);
      assert Quantity(TradesOf(s, id), id) > 0;
    } else {
      Sums.Zero(w);
      if |TradesOf(s, id)| > 0 {
        FirstTradeCounts(s, id);
      }
    }
  }

  lemma MetIsKnown(s: State, t: Terms, x: Id)
    requires Meets(s, t, x)
    ensures x in s.orders
  {
  }

  lemma MetRemains(s: State, t: Terms, x: Id)
    requires Wf(s) && x in s.orders
    ensures Meets(s, t, x) ==> s.orders[x].remaining > 0
  {
    hide QueueOk, Rests, Uncrossed, AccountsOk;
    assert OrderOk(s.orders[x]);
  }

  lemma FirstTradeCounts(s: State, id: Id)
    requires Ready(s, id) && |TradesOf(s, id)| > 0
    ensures Quantity(TradesOf(s, id), id) > 0
  {
    hide MatchLoop, TradesOf, Wf;
    var trades := TradesOf(s, id);
    forall i | 0 <= i < |trades| ensures Sound(trades[i]) && trades[i].taker == id {
      TradeSound(s, id, i);
    }
    QuantityNonNegative(trades[1..], id);
  }

  /** Each trade is between a buyer and a seller of the right orders, at the price of the order that rested. */
  lemma TradeSays(s: State, id: Id, i: nat)
    requires Ready(s, id) && i < |TradesOf(s, id)|
    ensures var t := TradesOf(s, id)[i];
            var incoming := s.orders[id].terms;
            && t.taker == id && Meets(s, incoming, t.maker)
            && t.price == s.orders[t.maker].terms.price && 0 < t.quantity <= s.orders[t.maker].remaining
            && t.event == incoming.event && t.outcome == incoming.outcome && t.takerSide == incoming.side
            && t.buyer == (if incoming.side == Buy then incoming.user else s.orders[t.maker].terms.user)
            && t.seller == (if incoming.side == Buy then s.orders[t.maker].terms.user else incoming.user)
  {
    hide MatchLoop, TradesOf, Rests, Uncrossed, AccountsOk, Meets, Pool;
    TradeSound(s, id, i);
    var t := s.orders[id].terms;
    var x := TradesOf(s, id)[i].maker;
    assert QueueOk(s, t.event, t.outcome, t.side.Opposite());
    QueueMember(s, t.event, t.outcome, t.side.Opposite(), x);
    MakerIsEligible(s, id, i);
    InPool(s, t, x);
    MeetsIsEligible(s, id, x);
    QuantityFits(s, id, i);
  }

  lemma InPool(s: State, t: Terms, x: Id)
    requires Belongs(s, x, t.event, t.outcome, t.side.Opposite())
    ensures x in Pool(s, t)
  {
  }

  lemma MakerIsEligible(s: State, id: Id, i: nat)
    requires Ready(s, id) && i < |TradesOf(s, id)|
    ensures TradesOf(s, id)[i].maker in s.orders && Eligible(s.orders, TradesOf(s, id)[i].maker, id)
  {
    hide MatchLoop, QueueOk, Rests, Uncrossed, AccountsOk;
    MakerEligible(s.orders, Facing(s, s.orders[id].terms), id, s.nextTrade, i);
  }

  lemma {:induction false} PartOfQuantity(trades: seq<Trade>, i: nat, x: Id)
    requires i < |trades| && trades[i].Names(x) && forall j :: 0 <= j < |trades| ==> Sound(trades[j])
    ensures trades[i].quantity <= Quantity(trades, x)
  {
    if i == 0 {
      QuantityNonNegative(trades[1..], x);
    } else {
      PartOfQuantity(trades[1..], i - 1, x);
    }
  }

  lemma QuantityFits(s: State, id: Id, i: nat)
    requires Ready(s, id) && i < |TradesOf(s, id)|
    ensures var t := TradesOf(s, id)[i];
            t.maker in s.orders && t.quantity <= s.orders[t.maker].remaining
  {
    hide MatchLoop, TradesOf, Traded, QueueOk, Rests, Uncrossed, AccountsOk;
    var trades := TradesOf(s, id);
    forall j | 0 <= j < |trades| ensures Sound(trades[j]) {
      TradeSound(s, id, j);
    }
    TradeSound(s, id, i);
    var x := trades[i].maker;
    PartOfQuantity(trades, i, x);
    TradedQuantity(s, id, x);
    TradedOrder(s, id, x);
  }
}
