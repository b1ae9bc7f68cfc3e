/**
 What happens when an order of a user arrives before the command that funds the user.
 Any ledger entry the order opens counts as an account, and a known account is granted
 nothing.
 */
module Funding {
  import opened Types
  import opened Matching
  import opened PriceTime
  import opened EngineState
  import opened Invariant
  import opened StepInvariant
  import opened MatchInvariant
  import opened Shares
  import opened Runs
  import opened Priority
  import opened Outcomes
  import opened Commands
  import opened Replay
  import Sums

  /** A resting bid of another user that the request, a SELL, would trade with. */
  predicate Buys(s: State, r: Request, x: Id) {
    && Belongs(s, x, r.eventId, if r.outcome == "YES" then Yes else No, Buy)
    && s.orders[x].terms.user != r.userId
    && (r.orderType == "MARKET" || s.orders[x].terms.price >= r.price)
  }

  /** The request is placed, and it is a BUY, or a SELL of shares the user has to somebody who buys them. */
  ghost predicate OpensAccount(s: State, r: Request, freshId: Id) {
    && WellFormed(r) && OrderId(r, freshId) !in s.orders && r.eventId in s.markets
    && (r.side == "BUY" || (Affordable(s, r) && exists x :: x in s.orders && Buys(s, r, x)))
  }

  lemma SettleOpens(s: State, t: Trade, user: Id)
    ensures user in Settle(s, t).balances <==> user in s.balances || user == t.buyer || user == t.seller
  {
  }

  lemma {:induction false} SettleAllOpens(s: State, trades: seq<Trade>, user: Id)
    ensures user in SettleAll(s, trades).balances <==>
              user in s.balances || exists i :: 0 <= i < |trades| && (trades[i].buyer == user || trades[i].seller == user)
    decreases trades
  {
    hide Settle;
    if trades != [] {
      SettleOpens(s, trades[0], user);
      SettleAllOpens(Settle(s, trades[0]), trades[1..], user);
      assert forall i :: 0 < i < |trades| ==> trades[i] == trades[1..][i - 1];
      if i :| 0 <= i < |trades[1..]| && (trades[1..][i].buyer == user || trades[1..][i].seller == user) {
        assert trades[i + 1] == trades[1..][i];
      }
    }
  }

  /** The seller of an order being matched has an account afterwards exactly if the order trades. */
  lemma MatchOpens(s: State, id: Id)
    requires Ready(s, id) && s.orders[id].terms.side.Sell? && s.orders[id].terms.user !in s.balances
    ensures s.orders[id].terms.user in Match(s, id).balances <==> |TradesOf(s, id)| > 0
  {
    hide MatchLoop, Traded, TradesOf, SettleAll, QueueOk, Rests, Uncrossed, AccountsOk, OrderOk;
    var user, trades, s1 := s.orders[id].terms.user, TradesOf(s, id), Traded(s, id);
    TradedFields(s, id);
    TradedWf(s, id);
    TradedOrder(s, id, id);
    SettleAllOpens(s1, trades, user);
    SettleAllSameButLocks(s1, trades);
    assert Bare(SettleAll(s1, trades).orders[id]) == Bare(s1.orders[id]);
    ReleaseOfSell(SettleAll(s1, trades), id);
    forall i | 0 <= i < |trades| ensures trades[i].seller == user {
      TradeSound(s, id, i);
    }
    assert |trades| > 0 ==> trades[0].seller == user;
  }

  lemma ReleaseOfSell(s: State, id: Id)
    requires id in s.orders
    ensures Bare(s.orders[id]).terms.side.Sell? ==> Release(s, id).balances == s.balances
  {
  }

  /** A match makes a trade exactly if some candidate can trade. */
  lemma TradesExactlyWhen(s: State, id: Id)
    requires Ready(s, id)
    ensures |TradesOf(s, id)| > 0 <==>
              exists x :: x in s.orders && x in Pool(s, s.orders[id].terms) && Eligible(s.orders, x, id)
  {
    hide MatchLoop, Traded, TradesOf, Pool, QueueOk, Rests, Uncrossed, AccountsOk, Eligible, Liquidity;
    var pool := Pool(s, s.orders[id].terms);
    MatchFillsMaximally(s, id);
    TradedQuantity(s, id, id);
    if x :| x in s.orders && x in pool && Eligible(s.orders, x, id) {
      CandidateCounts(s.orders, pool, id, x);
      assert OrderOk(s.orders[id]);
      assert Quantity(TradesOf(s, id), id) > 0;
    }
    if |TradesOf(s, id)| > 0 {
      FirstMaker(s, id);
    }
  }

  lemma FirstMaker(s: State, id: Id)
    requires Ready(s, id) && |TradesOf(s, id)| > 0
    ensures var x := TradesOf(s, id)[0].maker;
            x in s.orders && x in Pool(s, s.orders[id].terms) && Eligible(s.orders, x, id)
  {
    hide QueueOk, Rests, Uncrossed, AccountsOk, MatchLoop;
    var t := s.orders[id].terms;
    MakerEligible(s.orders, Facing(s, t), id, s.nextTrade, 0);
    QueueMember(s, t.event, t.outcome, t.side.Opposite(), TradesOf(s, id)[0].maker);
  }

  lemma CandidateCounts(orders: Orders, pool: set<Id>, id: Id, x: Id)
    requires id in orders && x in orders && x in pool && Eligible(orders, x, id)
    ensures Liquidity(orders, pool, id) > 0
  {
    var w := Weights(orders, pool, id);
    forall k | k in w ensures w[k] >= 0 {
    }
    Sums.AtMostSum(w, x);
  }

  /** The candidates of an admitted SELL, said about the state before it was admitted. */
  lemma BuyersBefore(s: State, r: Request, freshId: Id, x: Id)
    requires Wf(s) && Admit(s, r, freshId).Admitted? && r.side == "SELL"
    ensures var s1, id := Admit(s, r, freshId).state, OrderId(r, freshId);
            && id in s1.orders
            && (x in s1.orders && x in Pool(s1, s1.orders[id].terms) && Eligible(s1.orders, x, id) <==>
                  x in s.orders && Buys(s, r, x))
  {
    hide QueueOk, Rests, Uncrossed, AccountsOk, Validate, Admit, Freezes;
    AdmissionFreezes(s, r, freshId);
    AdmittedFields(s, r, freshId);
    if x in s.orders {
      assert OrderOk(s.orders[x]);
    }
  }

  lemma AdmittedFields(s: State, r: Request, freshId: Id)
    requires Admit(s, r, freshId).Admitted?
    ensures var s1 := Admit(s, r, freshId).state;
            && s1.inflight == s.inflight + {OrderId(r, freshId)} && s1.arrival == s.arrival && s1.clock == s.clock
            && (r.side == "SELL" ==> s1.balances == s.balances)
            && OrderId(r, freshId) !in s.orders
  {
    hide Validate;
  }

  lemma SellOpens(s: State, r: Request, freshId: Id)
    requires Wf(s) && Admit(s, r, freshId).Admitted? && r.side == "SELL" && r.userId !in s.balances
    ensures r.userId in Handle(s, CreateOrder(r, freshId)).state.balances <==> exists x :: x in s.orders && Buys(s, r, x)
  {
    hide Wf, Admit, Match, TradesOf, Matchable, Pool, Eligible, Buys, Freezes;
    var s1, id := Admit(s, r, freshId).state, OrderId(r, freshId);
    AdmitWf(s, r, freshId);
    AdmissionFreezes(s, r, freshId);
    AdmittedFields(s, r, freshId);
    AdmittedInflight(s, r, freshId);
    MatchWf(s1, id);
    IsReady(s1, id);
    MatchOpens(s1, id);
    TradesExactlyWhen(s1, id);
    forall x: Id
      ensures x in s1.orders && x in Pool(s1, s1.orders[id].terms) && Eligible(s1.orders, x, id) <==> x in s.orders && Buys(s, r, x)
    {
      BuyersBefore(s, r, freshId, x);
    }
  }

  /** A BUY opens the account when funds are reserved, or refused. */
  lemma BuyOpens(s: State, r: Request, freshId: Id)
    requires Wf(s) && WellFormed(r) && OrderId(r, freshId) !in s.orders && r.eventId in s.markets && r.side == "BUY"
    ensures r.userId in Handle(s, CreateOrder(r, freshId)).state.balances
  {
    hide Wf, Match, Matchable, Validate;
    AdmittedExactlyWhen(s, r, freshId);
    var a, id := Admit(s, r, freshId), OrderId(r, freshId);
    if a.Admitted? {
      AdmitWf(s, r, freshId);
      AdmittedInflight(s, r, freshId);
      MatchWf(a.state, id);
      MatchGrows(a.state, id);
    }
  }

  /** Without a placed BUY or an admitted order, no account is opened. */
  lemma OtherOpensNone(s: State, r: Request, freshId: Id)
    requires Wf(s) && r.userId !in s.balances && !Admit(s, r, freshId).Admitted?
    requires !(WellFormed(r) && OrderId(r, freshId) !in s.orders && r.eventId in s.markets && r.side == "BUY")
    ensures r.userId !in Handle(s, CreateOrder(r, freshId)).state.balances
  {
    hide Wf, Validate;
  }

  /**
   For any order of a user without an account: the funding command that comes after it
   grants nothing if and only if the order opens an account, which can be told from the
   state before.
   */
  lemma OrderBeforeFunding(s: State, r: Request, freshId: Id)
    requires Wf(s) && r.userId != NO_ID && r.userId !in s.balances
    ensures var s1 := Handle(s, CreateOrder(r, freshId)).state;
            var s2 := HandleAll(s, [CreateOrder(r, freshId), CreateUser(r.userId)]);
            s2 == (if OpensAccount(s, r, freshId) then s1
                   else SetBalance(s1, r.userId, Holding(DEFAULT_STARTING_BALANCE, 0)))
    ensures OpensAccount(s, r, freshId) <==> r.userId in Handle(s, CreateOrder(r, freshId)).state.balances
  {
    hide Wf, Handle, HandleAll, Admit, WellFormed, Affordable, Buys;
    var c, d := CreateOrder(r, freshId), CreateUser(r.userId);
    TwoCommands(s, c, d);
    AdmittedExactlyWhen(s, r, freshId);
    HandleUser(Handle(s, c).state, r.userId);
    if WellFormed(r) && OrderId(r, freshId) !in s.orders && r.eventId in s.markets && r.side == "BUY" {
      BuyOpens(s, r, freshId);
    } else if Admit(s, r, freshId).Admitted? {
      SidesOf(r);
      SellOpens(s, r, freshId);
    } else {
      SidesOf(r);
      OtherOpensNone(s, r, freshId);
    }
  }

  lemma HandleUser(s: State, user: Id)
    requires Wf(s)
    ensures Handle(s, CreateUser(user)).state == UserCreated(s, user)
  {
    hide Wf;
  }

  lemma SidesOf(r: Request)
    ensures WellFormed(r) ==> r.side == "BUY" || r.side == "SELL"
    ensures r.side == "SELL" ==> r.side != "BUY"
  {
  }

  /** A limit BUY leaves the account open and empty, where the tables show the starting balance. */
  lemma UnfundedBuyLeavesNothing(s: State, r: Request, freshId: Id)
    requires Wf(s) && WellFormed(r) && r.side == "BUY" && r.orderType == "LIMIT"
    requires OrderId(r, freshId) !in s.orders && r.eventId in s.markets && r.userId !in s.balances
    ensures var s' := HandleAll(s, [CreateOrder(r, freshId), CreateUser(r.userId)]);
            r.userId in s'.balances && s'.balances[r.userId].Total() == 0
  {
    hide Wf, HandleAll, Validate, Admit;
    TwoCommands(s, CreateOrder(r, freshId), CreateUser(r.userId));
    UnfundedRefused(s, r, freshId);
  }

  lemma UnfundedRefused(s: State, r: Request, freshId: Id)
    requires WellFormed(r) && r.side == "BUY" && r.orderType == "LIMIT"
    requires OrderId(r, freshId) !in s.orders && r.eventId in s.markets && r.userId !in s.balances
    ensures Admit(s, r, freshId) == Refused(SetBalance(s, r.userId, NOTHING), InsufficientFunds)
    ensures r.userId != NO_ID
  {
    CostOfRequest(r.quantity, r.price);
  }

  lemma CostOfRequest(n: int, p: int)
    requires n > 0 && p > 0
    ensures n * p > 0
  {
  }

  // ---------------------------------------------------------------------
  // Accounts over a whole log
  // ---------------------------------------------------------------------

  /** The user is a party to a trade among the events. */
  ghost predicate TradedIn(events: seq<Event>, user: Id) {
    exists i :: 0 <= i < |events| && events[i].TradeExecuted?
                && (events[i].trade.buyer == user || events[i].trade.seller == user)
  }

  /** The user's BUY gets as far as the reservation. */
  predicate PlacesBuy(s: State, c: Command, user: Id) {
    && c.CreateOrder? && c.request.userId == user && c.request.side == "BUY" && WellFormed(c.request)
    && OrderId(c.request, c.freshId) !in s.orders && c.request.eventId in s.markets
  }

  /** The command funds the user, places a BUY of the user, or trades with the user. */
  ghost predicate Opens(s: State, c: Command, user: Id)
    requires Wf(s)
  {
    (c == CreateUser(user) && user != NO_ID) || PlacesBuy(s, c, user) || TradedIn(Handle(s, c).events, user)
  }

  lemma MatchAccountsOpened(s: State, id: Id, user: Id)
    requires Ready(s, id) && (s.orders[id].terms.side.Buy? ==> s.orders[id].terms.user in s.balances)
    ensures user in Match(s, id).balances <==> user in s.balances || TradedIn(TradeEvents(TradesOf(s, id)), user)
  {
    hide MatchLoop, Traded, TradesOf, SettleAll, QueueOk, Rests, Uncrossed, AccountsOk, OrderOk, Release;
    var trades, s1 := TradesOf(s, id), Traded(s, id);
    TradedFields(s, id);
    TradedWf(s, id);
    TradedOrder(s, id, id);
    SettleAllOpens(s1, trades, user);
    SettleAllOpens(s1, trades, s.orders[id].terms.user);
    SettleAllSameButLocks(s1, trades);
    assert Bare(SettleAll(s1, trades).orders[id]) == Bare(s1.orders[id]);
    ReleaseOpensNone(SettleAll(s1, trades), id, user);
    PartiesInEvents(trades, user);
  }

  lemma ReleaseOpensNone(s: State, id: Id, user: Id)
    requires id in s.orders
    requires Bare(s.orders[id]).terms.side.Buy? ==> Bare(s.orders[id]).terms.user in s.balances
    ensures user in Release(s, id).balances <==> user in s.balances
  {
  }

  lemma PartiesInEvents(trades: seq<Trade>, user: Id)
    ensures TradedIn(TradeEvents(trades), user) <==>
              exists i :: 0 <= i < |trades| && (trades[i].buyer == user || trades[i].seller == user)
  {
    var events := TradeEvents(trades);
    if i :| 0 <= i < |trades| && (trades[i].buyer == user || trades[i].seller == user) {
      assert events[i] == TradeExecuted(trades[i]);
    }
  }

  lemma TradedBehind(e: Event, events: seq<Event>, user: Id)
    requires !e.TradeExecuted?
    ensures TradedIn([e] + events, user) <==> TradedIn(events, user)
  {
    var all := [e] + events;
    if i :| 0 <= i < |events| && events[i].TradeExecuted? && (events[i].trade.buyer == user || events[i].trade.seller == user) {
      assert all[i + 1] == events[i];
    }
    if i :| 0 <= i < |all| && all[i].TradeExecuted? && (all[i].trade.buyer == user || all[i].trade.seller == user) {
      assert events[i - 1] == all[i];
    }
  }

  /** Which accounts an admission or a refusal opens. */
  lemma AdmitOpens(s: State, r: Request, freshId: Id, user: Id)
    ensures user in Admit(s, r, freshId).state.balances <==>
              user in s.balances || PlacesBuy(s, CreateOrder(r, freshId), user)
  {
    hide Validate;
  }

  lemma CreateOpens(s: State, r: Request, freshId: Id, user: Id)
    requires Wf(s)
    ensures user in Handle(s, CreateOrder(r, freshId)).state.balances <==>
              user in s.balances || Opens(s, CreateOrder(r, freshId), user)
  {
    hide Wf, Admit, Match, TradesOf, Matchable, PlacesBuy, TradedIn, TradeEvents, Freezes;
    var a, id := Admit(s, r, freshId), OrderId(r, freshId);
    AdmitOpens(s, r, freshId, user);
    NoEventsNoTrade(user);
    if a.Admitted? {
      AdmitOpens(s, r, freshId, r.userId);
      AdmitWf(s, r, freshId);
      AdmissionFreezes(s, r, freshId);
      AdmittedExactlyWhen(s, r, freshId);
      AdmittedInflight(s, r, freshId);
      MatchWf(a.state, id);
      IsReady(a.state, id);
      BuyIsPlaced(s, r, freshId);
      MatchAccountsOpened(a.state, id, user);
      TradedBehind(OrderCreated(a.order), TradeEvents(TradesOf(a.state, id)), user);
    }
  }

  lemma BuyIsPlaced(s: State, r: Request, freshId: Id)
    requires WellFormed(r) && OrderId(r, freshId) !in s.orders && r.eventId in s.markets
    ensures r.side == "BUY" ==> PlacesBuy(s, CreateOrder(r, freshId), r.userId)
  {
  }

  lemma NoEventsNoTrade(user: Id)
    ensures !TradedIn([], user)
  {
  }

  /** Every order that buys has its user's account open. */
  ghost predicate BuyersKnown(s: State) {
    forall id | id in s.orders && s.orders[id].terms.side.Buy? :: s.orders[id].terms.user in s.balances
  }

  lemma CommandOpens(s: State, c: Command, user: Id)
    requires Wf(s) && BuyersKnown(s)
    ensures user in Handle(s, c).state.balances <==> user in s.balances || Opens(s, c, user)
  {
    hide Wf, Admit, Match, Matchable, Cancel, TradesOf, TradedIn, PlacesBuy;
    NoEventsNoTrade(user);
    NotPlaced(s, c, user);
    match c
    case CreateOrder(r, freshId) => CreateOpens(s, r, freshId, user);
    case CancelOrder(id, event) =>
      HandleGrows(s, c);
      CancelBuyers(s, id, event, user);
      CancelTradesNone(id, user);
    case _ =>
  }

  lemma NotPlaced(s: State, c: Command, user: Id)
    ensures PlacesBuy(s, c, user) ==> c.CreateOrder?
  {
  }

  lemma CancelTradesNone(id: Id, user: Id)
    ensures !TradedIn([OrderCanceled(id)], user)
  {
  }

  lemma CancelBuyers(s: State, id: Id, event: Id, user: Id)
    requires BuyersKnown(s)
    ensures user in Cancel(s, id, event).state.balances <==> user in s.balances
  {
    hide RemoveId;
  }

  /** Buyers keep their accounts, and a new buyer gets one. */
  lemma BuyersStayKnown(s: State, c: Command)
    requires Wf(s) && BuyersKnown(s)
    ensures BuyersKnown(Handle(s, c).state)
  {
    hide Wf, Handle;
    HandleGrows(s, c);
    var s' := Handle(s, c).state;
    forall id | id in s'.orders && s'.orders[id].terms.side.Buy? ensures s'.orders[id].terms.user in s'.balances {
      OrderOrigin(s, c, id);
    }
  }

  /** An order of the new state is an old one, or the one just placed. */
  lemma OrderOrigin(s: State, c: Command, id: Id)
    requires Wf(s) && id in Handle(s, c).state.orders
    ensures var o := Handle(s, c).state.orders[id];
            || (id in s.orders && o.terms == s.orders[id].terms)
            || (o.terms.side.Buy? ==> o.terms.user in Handle(s, c).state.balances)
  {
    hide Wf, Admit, Match, Matchable, Cancel, TradesOf, Freezes;
    match c
    case CreateOrder(r, freshId) =>
      var a, x := Admit(s, r, freshId), OrderId(r, freshId);
      if a.Admitted? {
        AdmissionFreezes(s, r, freshId);
        AdmittedExactlyWhen(s, r, freshId);
        AdmitWf(s, r, freshId);
        AdmittedInflight(s, r, freshId);
        MatchWf(a.state, x);
        MatchTerms(a.state, x, id);
        MatchGrows(a.state, x);
        AdmitOpens(s, r, freshId, r.userId);
        BuyIsPlaced(s, r, freshId);
      } else {
        RefusalChangesNothing(s, r, freshId);
      }
    case CancelOrder(x, event) => CancelOrigin(s, x, event, id);
    case CreateUser(user) => OpenedOrders(s, user);
    case CreateMarket(event) => MarketOrders(s, event);
    case ReadOnly =>
  }

  lemma CancelOrigin(s: State, x: Id, event: Id, id: Id)
    ensures id in Cancel(s, x, event).state.orders ==>
              id in s.orders && Cancel(s, x, event).state.orders[id].terms == s.orders[id].terms
  {
    hide RemoveId;
  }

  lemma OpenedOrders(s: State, user: Id)
    ensures UserCreated(s, user).orders == s.orders
  {
  }

  lemma MarketOrders(s: State, event: Id)
    ensures CreateEvent(s, event).orders == s.orders
  {
  }

  lemma {:induction false} BuyersKnownThrough(s: State, log: seq<Command>)
    requires Wf(s) && BuyersKnown(s)
    ensures BuyersKnown(HandleAll(s, log))
    decreases log
  {
    hide Wf, Handle, BuyersKnown;
    if log != [] {
      BuyersStayKnown(s, log[0]);
      BuyersKnownThrough(Handle(s, log[0]).state, log[1..]);
    }
  }

  /**
   Over every log, a user has an account if and only if the user had one, or some command
   funded the user, placed a BUY of the user, or traded with the user: as the one who
   sends it, or because the user's order was resting.
   */
  lemma {:induction false} AccountsExactlyWhen(s: State, log: seq<Command>, user: Id)
    requires Wf(s) && BuyersKnown(s)
    ensures user in HandleAll(s, log).balances <==>
              user in s.balances || exists i :: 0 <= i < |log| && Opens(HandleAll(s, log[..i]), log[i], user)
    decreases |log|
  {
    hide Wf, Handle, BuyersKnown, Opens, HandleAll;
    if log == [] {
      NothingHandled(s);
    } else {
      var n := |log| - 1;
      var init, s1 := log[..n], HandleAll(s, log[..n]);
      assert log == init + [log[n]];
      HandleAllAppend(s, init, [log[n]]);
      OneCommand(s1, log[n]);
      BuyersKnownThrough(s, init);
      CommandOpens(s1, log[n], user);
      AccountsExactlyWhen(s, init, user);
      forall i | 0 <= i < n ensures init[..i] == log[..i] && init[i] == log[i] {
      }
      if i :| 0 <= i < |init| && Opens(HandleAll(s, init[..i]), init[i], user) {
        assert Opens(HandleAll(s, log[..i]), log[i], user);
      }
      if i :| 0 <= i < |log| && Opens(HandleAll(s, log[..i]), log[i], user) {
        if i < n {
          assert Opens(HandleAll(s, init[..i]), init[i], user);
        }
      }
    }
  }

  lemma NothingHandled(s: State)
    requires Wf(s)
    ensures HandleAll(s, []) == s
  {
  }

  /** So the funding command grants nothing if and only if the log before it did one of these. */
  lemma FundingAfterLog(s: State, log: seq<Command>, user: Id)
    requires Wf(s) && BuyersKnown(s) && user != NO_ID && user !in s.balances
    ensures var s1 := HandleAll(s, log);
            HandleAll(s, log + [CreateUser(user)]) ==
            (if exists i :: 0 <= i < |log| && Opens(HandleAll(s, log[..i]), log[i], user) then s1
             else SetBalance(s1, user, Holding(DEFAULT_STARTING_BALANCE, 0)))
  {
    hide Wf, Handle, BuyersKnown, Opens, HandleAll;
    AccountsExactlyWhen(s, log, user);
    HandleAllAppend(s, log, [CreateUser(user)]);
    OneCommand(HandleAll(s, log), CreateUser(user));
    HandleUser(HandleAll(s, log), user);
  }
}
