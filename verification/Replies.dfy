/**
 The replies of the engine (internal/engine/engine.go): which commands it confirms,
 what each confirmed command emits, and the reason given for each refusal.
 */
module Replies {
  import opened Types
  import opened Matching
  import opened EngineState
  import opened Invariant
  import opened MatchInvariant
  import opened Commands
  import opened Outcomes
  import Stream

  /**
   A creation is confirmed if and only if it is well formed and either its order is
   known or it can be placed; a cancellation if and only if its order is live and of the
   event; a market or an account if and only if it is named.
   */
  lemma AcceptedExactlyWhen(s: State, c: Command)
    requires Wf(s)
    ensures Handle(s, c).accepted <==>
              match c
              case CreateOrder(r, freshId) =>
                WellFormed(r) && (OrderId(r, freshId) in s.orders || (r.eventId in s.markets && Affordable(s, r)))
              case CancelOrder(id, event) =>
                id != NO_ID && id in s.orders && (event == NO_ID || s.orders[id].terms.event == event) && s.orders[id].Live()
              case CreateMarket(event) => event != NO_ID
              case CreateUser(user) => user != NO_ID
              case ReadOnly => true
  {
    hide Wf, Admit, Cancel, WellFormed, Affordable;
    match c
    case CreateOrder(r, freshId) => AdmittedExactlyWhen(s, r, freshId);
    case CancelOrder(id, event) => CanceledExactlyWhen(s, id, event);
    case _ =>
  }

  /**
   A new order's creation comes first and shows it as admitted; then only its own
   trades follow. A cancellation emits itself. Nothing else emits anything.
   */
  lemma EmitsExactlyWhen(s: State, c: Command)
    requires Wf(s)
    ensures var h := Handle(s, c);
            && (h.events != [] <==>
                  h.accepted && (c.CancelOrder? || (c.CreateOrder? && OrderId(c.request, c.freshId) !in s.orders)))
            && (h.events != [] && c.CancelOrder? ==> h.events == [OrderCanceled(c.order)])
            && (h.events != [] && c.CreateOrder? ==>
                  && h.events[0].OrderCreated?
                  && h.events[0].order.terms.id == OrderId(c.request, c.freshId)
                  && Carries(h.events[0].order.terms, c.request)
                  && h.events[0].order.status.Pending? && h.events[0].order.filled == 0
                  && h.events[0].order.remaining == c.request.quantity
                  && h.events[0].order.locked == Demand(s, c.request)
                  && (forall i :: 1 <= i < |h.events| ==>
                        h.events[i].TradeExecuted? && h.events[i].trade.taker == OrderId(c.request, c.freshId)))
  {
    hide Wf, Cancel, Match, WellFormed, Affordable, Carries, Demand;
    match c
    case CreateOrder(r, freshId) =>
      AdmittedExactlyWhen(s, r, freshId);
      if Admit(s, r, freshId).Admitted? {
        hide Admit, TradesOf;
        AdmissionFreezes(s, r, freshId);
        CreationEmits(s, r, freshId);
      }
    case _ =>
  }

  lemma CreationEmits(s: State, r: Request, freshId: Id)
    requires Wf(s) && Admit(s, r, freshId).Admitted?
    ensures var h, a := Handle(s, CreateOrder(r, freshId)), Admit(s, r, freshId);
            && h.events != [] && h.accepted && h.events[0] == OrderCreated(a.order)
            && a.order.terms.id == OrderId(r, freshId) && OrderId(r, freshId) !in s.orders
            && (forall i :: 1 <= i < |h.events| ==>
                  h.events[i].TradeExecuted? && h.events[i].trade.taker == OrderId(r, freshId))
  {
    hide Wf, Match, TradesOf, Reserve, Matchable;
    AdmittedInflight(s, r, freshId);
    AdmitWf(s, r, freshId);
    var id := OrderId(r, freshId);
    var a := Admit(s, r, freshId).state;
    MatchWf(a, id);
    forall i | 0 <= i < |TradesOf(a, id)| ensures TradesOf(a, id)[i].taker == id {
      Stream.TradeOrders(a, id, i);
    }
  }

  /** The reason of a refusal names the first thing that is wrong. */
  lemma RefusedBecause(s: State, r: Request, freshId: Id)
    requires Admit(s, r, freshId).Refused?
    ensures var named := r.quantity > 0 && r.eventId != NO_ID && r.userId != NO_ID;
            var sided := named && r.side in {"BUY", "SELL"};
            var outcomeGiven := sided && r.outcome in {"YES", "NO"};
            match Admit(s, r, freshId).error
            case BadQuantity => r.quantity <= 0
            case EventRequired => r.quantity > 0 && r.eventId == NO_ID
            case UserRequired => r.quantity > 0 && r.eventId != NO_ID && r.userId == NO_ID
            case BadSide => named && !sided
            case BadOutcome => sided && !outcomeGiven
            case BadType => outcomeGiven && r.orderType !in {"LIMIT", "MARKET"}
            case BadPrice => outcomeGiven && r.orderType == "LIMIT" && r.price <= 0
            case EventNotFound => WellFormed(r) && r.eventId !in s.markets
            case InsufficientFunds => WellFormed(r) && r.eventId in s.markets && r.side == "BUY" && !Affordable(s, r)
            case InsufficientShares => WellFormed(r) && r.eventId in s.markets && r.side == "SELL" && !Affordable(s, r)
            case _ => false
  {
    var id := OrderId(r, freshId);
    if WellFormed(r) {
      ValidTerms(r, id);
    }
  }

  /** The reason of a failed cancellation. */
  lemma NotCanceledBecause(s: State, id: Id, event: Id)
    requires Wf(s) && Cancel(s, id, event).result.Err?
    ensures match Cancel(s, id, event).result.error
            case OrderIdRequired => id == NO_ID
            case OrderNotFound => id != NO_ID && id !in s.orders
            case WrongEvent => id in s.orders && event != NO_ID && s.orders[id].terms.event != event
            case NotCancelable => id in s.orders && !s.orders[id].Live()
            case _ => false
  {
    hide QueueOk, Rests, Uncrossed, AccountsOk, Withdrawn, Release;
    if id in s.orders {
      assert OrderOk(s.orders[id]);
    }
  }
}
