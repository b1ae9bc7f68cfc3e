/**
 What a market BUY beyond its lock does to the reservation invariant. Its excess is
 taken from whatever else its user has reserved, and from nowhere when that is used up.
 */
module Overdraw {
  import opened Types
  import opened Matching
  import opened EngineState
  import opened Invariant
  import opened StepInvariant
  import opened MatchInvariant
  import opened Shares
  import opened Cash
  import opened Runs
  import opened Lifecycle
  import opened Outcomes
  import opened Walk
  import opened Budget
  import Sums

  /** What the user's other orders have locked. */
  ghost function OtherLocks(s: State, id: Id): int
    requires id in s.orders
  {
    BuyLocks(s.orders, s.orders[id].terms.user) - s.orders[id].locked
  }

  /** A BUY that is not being matched takes no part in the match of another BUY. */
  lemma OtherBuyUntouched(s: State, id: Id, x: Id)
    requires Ready(s, id) && s.orders[id].terms.side.Buy? && x in s.orders && x != id && s.orders[x].terms.side.Buy?
    ensures x in Match(s, id).orders && Match(s, id).orders[x] == s.orders[x]
  {
    hide MatchLoop, Traded, TradesOf, Settle, Release, QueueOk, Rests, Uncrossed, AccountsOk, OrderOk;
    var t := s.orders[id].terms;
    assert QueueOk(s, t.event, t.outcome, Sell);
    if x in Facing(s, t) {
      QueueMember(s, t.event, t.outcome, Sell, x);
    }
    TradedOther(s, id, x);
    TradedFields(s, id);
    forall i | 0 <= i < |TradesOf(s, id)| ensures !TradesOf(s, id)[i].Names(x) {
      TradeSound(s, id, i);
    }
    SettleAllOther(Traded(s, id), TradesOf(s, id), x);
    ReleaseOther(SettleAll(Traded(s, id), TradesOf(s, id)), id, x);
  }

  lemma ReleaseOther(s: State, id: Id, x: Id)
    requires id in s.orders && x in s.orders && x != id
    ensures x in Release(s, id).orders && Release(s, id).orders[x] == s.orders[x]
  {
  }

  /** After the match, every user's locks are those of the user's other orders. */
  lemma LocksAfter(s: State, id: Id, user: Id)
    requires Ready(s, id) && s.orders[id].terms.side.Buy? && s.orders[id].terms.kind.Market?
    ensures BuyLocks(Match(s, id).orders, user) == BuyLocks(s.orders, user) - BuyLock(s.orders[id], user)
  {
    hide Match, QueueOk, Rests, Uncrossed, AccountsOk, Matchable, OrderOk;
    var m := Match(s, id);
    MatchTerms(s, id, id);
    FinishedWithoutLock(s, id);
    forall x | x in s.orders && x != id ensures BuyLock(m.orders[x], user) == BuyLock(s.orders[x], user) {
      MatchTerms(s, id, x);
      if s.orders[x].terms.side.Buy? {
        OtherBuyUntouched(s, id, x);
      }
    }
    assert BuyWeights(m.orders, user) == BuyWeights(s.orders, user)[id := 0];
    Sums.Update(BuyWeights(s.orders, user), id, 0);
  }

  lemma FinishedWithoutLock(s: State, id: Id)
    requires Ready(s, id) && s.orders[id].terms.kind.Market?
    ensures id in Match(s, id).orders && Match(s, id).orders[id].locked == 0 && !Match(s, id).orders[id].Live()
  {
    hide Match, Resting;
    MatchOutcome(s, id);
    MatchTerms(s, id, id);
    MatchWf(s, id);
    FinishedOrder(Match(s, id), id);
  }

  lemma FinishedOrder(s: State, id: Id)
    requires Wf(s) && id in s.orders
    ensures s.orders[id].remaining >= 0
  {
    hide QueueOk, Rests, Uncrossed, AccountsOk;
    assert OrderOk(s.orders[id]);
  }

  /** Only the buyer's reserved cash moves. */
  lemma {:induction false} ReservedElsewhere(s: State, trades: seq<Trade>, user: Id)
    requires forall i :: 0 <= i < |trades| ==> Sound(trades[i]) && trades[i].buyer != user
    ensures Get(SettleAll(s, trades).balances, user).reserved == Get(s.balances, user).reserved
    decreases trades
  {
    hide Settle, Get;
    if trades != [] {
      SettleBalance(s, trades[0], user);
      ReservedElsewhere(Settle(s, trades[0]), trades[1..], user);
    }
  }

  lemma ReservedAfterRelease(s: State, id: Id, user: Id)
    requires id in s.orders && s.orders[id].terms.side.Buy? && s.orders[id].locked >= 0
    requires Get(s.balances, s.orders[id].terms.user).reserved >= 0
    ensures Get(Release(s, id).balances, user).reserved ==
            if user == s.orders[id].terms.user then Clamp(Get(s.balances, user).reserved - s.orders[id].locked)
            else Get(s.balances, user).reserved
  {
  }

  /** What is left of each user's reserved cash. */
  lemma ReservedAfter(s: State, id: Id, user: Id)
    requires Ready(s, id) && s.orders[id].terms.side.Buy? && s.orders[id].terms.kind.Market?
    ensures var before := Get(s.balances, user).reserved;
            var lock, cost := s.orders[id].locked, CostOfWalking(s, id);
            Get(Match(s, id).balances, user).reserved ==
            if user == s.orders[id].terms.user then Clamp(Clamp(before - cost) - Clamp(lock - cost)) else before
  {
    hide MatchLoop, Traded, TradesOf, Settle, Release, QueueOk, Rests, Uncrossed, AccountsOk, OrderOk, Get, CostOfWalking, Settleable;
    var buyer := s.orders[id].terms.user;
    var s1, trades := Traded(s, id), TradesOf(s, id);
    TradedWf(s, id);
    TradedFields(s, id);
    TradedTaker(s, id);
    MarketTrades(s, id);
    UserSolvent(s, buyer);
    SpendIsWalk(s, id);
    SpendDown(s1, trades, id, buyer);
    forall i | 0 <= i < |trades| ensures Sound(trades[i]) && trades[i].buyer == buyer {
      TradeSound(s, id, i);
    }
    if user != buyer {
      ReservedElsewhere(s1, trades, user);
    }
    var s2 := SettleAll(s1, trades);
    SettleAllSameButLocks(s1, trades);
    assert Bare(s2.orders[id]) == Bare(s1.orders[id]);
    NotRejected(s2, id);
    TradedStanding(s, id);
    TradedOrder(s, id, id);
    FinishedOrderBare(s1, id);
    ReservedAfterRelease(s2, id, user) by { SameTerms(s1, s2, id); }
  }

  lemma SameTerms(s: State, s': State, id: Id)
    requires id in s.orders && id in s'.orders && Bare(s'.orders[id]) == Bare(s.orders[id])
    ensures s'.orders[id].terms == s.orders[id].terms && s'.orders[id].status == s.orders[id].status
  {
    assert s'.orders[id].terms == Bare(s'.orders[id]).terms;
  }

  lemma FinishedOrderBare(s: State, id: Id)
    requires OrdersOk(s) && id in s.orders
    ensures s.orders[id].remaining >= 0
  {
    assert OrderOk(s.orders[id]);
  }

  /** The clamps in one line. */
  lemma ClampedSlack(reserved: int, lock: int, others: int, cost: int)
    requires lock >= 0 && others >= 0 && reserved >= lock + others && cost >= 0
    ensures Clamp(Clamp(reserved - cost) - Clamp(lock - cost)) - others >= 0 <==>
              cost - lock <= reserved - lock - others || others == 0
  {
  }

  lemma OthersNonNegative(s: State, id: Id)
    requires OrdersOk(s) && id in s.orders && s.orders[id].terms.side.Buy?
    ensures OtherLocks(s, id) >= 0 && s.orders[id].locked >= 0
  {
    var user := s.orders[id].terms.user;
    var w := BuyWeights(s.orders, user);
    forall x | x in w ensures w[x] >= 0 {
      assert OrderOk(s.orders[x]);
    }
    Sums.AtMostSum(w, id);
    assert OrderOk(s.orders[id]);
  }

  lemma WalkNonNegative(s: State, id: Id)
    requires Ready(s, id) && s.orders[id].terms.side.Buy?
    ensures CostOfWalking(s, id) >= 0
  {
    hide MatchLoop, CostOfWalking, TradesOf, Wf;
    SpendIsWalk(s, id);
    TradesSound(s, id);
    SpendNonNegative(TradesOf(s, id), id);
  }

  /** Every BUY order keeps what it has to protect, in budget or not. */
  lemma BuysOkAfter(s: State, id: Id, x: Id)
    requires Ready(s, id) && CashOk(s, [], {}) && x in s.orders
    requires s.orders[id].terms.side.Buy? && s.orders[id].terms.kind.Market?
    ensures x in Match(s, id).orders && BuyOk(Match(s, id), [], {}, x)
  {
    hide Match, QueueOk, Rests, Uncrossed, AccountsOk, Matchable, OrderOk, CashSlack;
    MatchTerms(s, id, x);
    assert BuyOk(s, [], {}, x);
    if x == id {
      FinishedWithoutLock(s, id);
      assert Spend([], id) == 0;
    } else if s.orders[x].terms.side.Buy? {
      OtherBuyUntouched(s, id, x);
      SameBuyOk(s, Match(s, id), x);
    }
  }

  lemma SameBuyOk(s: State, s': State, x: Id)
    requires x in s.orders && x in s'.orders && s'.orders[x] == s.orders[x]
    ensures BuyOk(s', [], {}, x) <==> BuyOk(s, [], {}, x)
  {
  }

  /** The slack of the market BUY's user afterwards. */
  lemma SlackAfter(s: State, id: Id)
    requires Ready(s, id) && s.orders[id].terms.side.Buy? && s.orders[id].terms.kind.Market?
    ensures var user := s.orders[id].terms.user;
            var lock, cost := s.orders[id].locked, CostOfWalking(s, id);
            && CashSlack(Match(s, id), user)
               == Clamp(Clamp(Get(s.balances, user).reserved - cost) - Clamp(lock - cost)) - OtherLocks(s, id)
            && CashSlack(s, user) == Get(s.balances, user).reserved - lock - OtherLocks(s, id)
  {
    hide Match, Wf, Matchable, Get, CostOfWalking, BuyLocks;
    LocksAfter(s, id, s.orders[id].terms.user);
    ReservedAfter(s, id, s.orders[id].terms.user);
  }

  lemma SlackElsewhere(s: State, id: Id, user: Id)
    requires Ready(s, id) && s.orders[id].terms.side.Buy? && s.orders[id].terms.kind.Market? && user != s.orders[id].terms.user
    ensures CashSlack(Match(s, id), user) == CashSlack(s, user)
  {
    hide Match, Wf, Matchable, Get, CostOfWalking, BuyLocks;
    LocksAfter(s, id, user);
    ReservedAfter(s, id, user);
  }

  /**
   Matching a market BUY keeps the reservation invariant if and only if its cost beyond
   its lock is within the user's slack, or the user has nothing else locked. Between the
   lock and the reserved cash the total is conserved, at the expense of other locks.
   */
  lemma ReservationKeptExactlyWhen(s: State, id: Id)
    requires Ready(s, id) && CashOk(s, [], {})
    requires s.orders[id].terms.side.Buy? && s.orders[id].terms.kind.Market?
    ensures CashOk(Match(s, id), [], {}) <==>
              || CostOfWalking(s, id) - s.orders[id].locked <= CashSlack(s, s.orders[id].terms.user)
              || OtherLocks(s, id) == 0
  {
    hide Match, QueueOk, Rests, Uncrossed, AccountsOk, Matchable, OrderOk, Get, CostOfWalking, BuyLocks, BuyOk, CashSlack, OtherLocks;
    var m, user := Match(s, id), s.orders[id].terms.user;
    MatchTerms(s, id, id);
    forall x | x in m.orders ensures BuyOk(m, [], {}, x) {
      BuysOkAfter(s, id, x);
    }
    forall u: Id | u != user ensures CashSlack(m, u) >= 0 {
      SlackElsewhere(s, id, u);
      assert CashSlack(s, u) >= 0;
    }
    assert CashOk(m, [], {}) <==> CashSlack(m, user) >= 0;
    assert CashSlack(s, user) >= 0;
    SlackAfter(s, id);
    OthersNonNegative(s, id);
    WalkNonNegative(s, id);
    ClampedSlack(Get(s.balances, user).reserved, s.orders[id].locked, OtherLocks(s, id), CostOfWalking(s, id));
  }
}
