// Which submits reach the broker: the key tells one intent from another, and the engine
// dispatches exactly the intents it has no order of.

module Intents {
  import opened Models
  import opened Sums
  import opened Orders
  import opened Positions
  import opened Settings
  import opened Store
  import opened Idempotency
  import opened EngineSpec
  import opened Views
  import opened Recovery
  import opened EngineRuns
  import opened AgreementRuns
  import opened OrderHistory

  // ----- Keys and intents -----

  // A limit of zero is no limit.
  predicate NoLimit(limit: Option<real>) {
    limit == None || limit == Some(0.0)
  }

  predicate SameLimit(a: Option<real>, b: Option<real>) {
    a == b || (NoLimit(a) && NoLimit(b))
  }

  // Field by field the same economic intent.
  predicate SameIntent(a: Request, b: Request) {
    && a.symbol == b.symbol && a.side == b.side && a.qty == b.qty && a.orderType == b.orderType
    && SameLimit(a.limitPrice, b.limitPrice) && a.nonce == b.nonce
  }

  // One key, one intent.
  lemma SameKeyExactly(a: Request, b: Request)
    ensures a.Key() == b.Key() <==> SameIntent(a, b)
  {
  }

  // The order was submitted with this very intent; its nonce is the one in its key.
  predicate HasIntent(o: OrderRow, req: Request) {
    && o.symbol == req.symbol && o.side == req.side && o.qty == req.qty && o.orderType == req.orderType
    && SameLimit(o.limitPrice, req.limitPrice) && o.clientId.Some? && o.clientId.value.nonce == req.nonce
  }

  // The order's key is that of its own fields.
  predicate KeyTells(o: OrderRow) {
    && o.clientId.Some?
    && o.clientId.value == Request(o.symbol, o.side, o.qty, o.orderType, o.limitPrice, o.clientId.value.nonce).Key()
  }

  ghost predicate KeysTell(orders: map<OrderId, OrderRow>) {
    forall id :: id in orders ==> KeyTells(orders[id])
  }

  lemma IntentIsKey(o: OrderRow, req: Request)
    requires KeyTells(o)
    ensures HasIntent(o, req) <==> o.clientId == Some(req.Key())
  {
    hide Request.Key;
    SameKeyExactly(Request(o.symbol, o.side, o.qty, o.orderType, o.limitPrice, o.clientId.value.nonce), req);
  }

  lemma RequestedTells(req: Request, id: OrderId)
    requires req.qty > 0.0
    ensures KeyTells(RequestedRow(req, id)) && HasIntent(RequestedRow(req, id), req)
  {
  }

  // ----- Over every run -----

  lemma StepKeysTell(c: Config, e: State, ev: Event)
    requires KeyedState(e) && KeysTell(e.orders)
    ensures KeysTell(Step(c, e, ev).orders)
  {
    hide Step, ByEvent, Request.Key, KeyedState, RequestedRow, DeriveKey;
    var r := Step(c, e, ev);
    StepRows(c, e, ev);
    StepKeepsIdentities(c, e, ev);
    forall id | id in r.orders ensures KeyTells(r.orders[id]) {
      if id in e.orders {
        assert SameIdentity(r.orders[id], e.orders[id]) && KeyTells(e.orders[id]);
      } else {
        assert IsRequested(ev, id, r.orders[id]);
        RequestedTells(if ev.SubmitOrder? then ev.req else ev.crashReq, id);
      }
    }
  }

  lemma {:induction false} RunKeysTell(c: Config, evs: seq<Event>)
    ensures KeyedState(Run(c, evs)) && KeysTell(Run(c, evs).orders)
  {
    hide Step, KeysTell, Keyed;
    AtMostOnce(c, evs);
    if evs == [] {
      NoKeysYet();
    } else {
      RunKeysTell(c, evs[..|evs| - 1]);
      StepKeysTell(c, Run(c, evs[..|evs| - 1]), evs[|evs| - 1]);
    }
  }

  lemma NoKeysYet()
    ensures KeysTell(START.orders)
  {
  }

  // What an open sell order of the symbol may still take.
  function SellLeft(orders: map<OrderId, OrderRow>, s: Symbol): OrderId -> real {
    (id: OrderId) =>
      if id in orders && orders[id].symbol == s && orders[id].side == Sell
         && orders[id].status in {New, Submitted, Working, PartiallyFilled}
      then orders[id].qty - orders[id].filled
      else 0.0
  }

  // More is to be sold than is held and not already on sale.
  ghost predicate Oversells(e: State, req: Request) {
    req.side == Sell && req.qty > Held(e, req.symbol) - Over(e.orders.Keys, SellLeft(e.orders, req.symbol))
  }

  lemma GuardExactly(e: State, req: Request)
    ensures Oversells(e, req) <==> req.side.Sell? && req.qty > Available(e, req.symbol)
  {
    OverSame(e.orders.Keys, SellLeft(e.orders, req.symbol), ReserveOf(e.orders, req.symbol, false));
  }

  // The engine already has an order of this intent.
  ghost predicate HasOrderOf(e: State, req: Request) {
    exists id :: id in e.orders && HasIntent(e.orders[id], req)
  }

  // After every run, restarts and crashes included, a submit under a fresh id ends in exactly
  // one of four ways: the guard refuses it; it is an intent the engine has an order of, which
  // it returns; the order cannot be made; or it is dispatched, as an order of every field
  // that was asked for, stored, and its key with it.
  lemma DispatchedExactly(c: Config, evs: seq<Event>, req: Request, id: OrderId)
    requires id !in Run(c, evs).orders
    ensures var e := Run(c, evs);
            var (r, outcome) := SubmitBegin(e, req, id);
            && (outcome.Oversold? <==> Oversells(e, req))
            && (outcome.Known? <==> !Oversells(e, req) && HasOrderOf(e, req))
            && (outcome.Known? ==> outcome.orderId in e.orders && HasIntent(e.orders[outcome.orderId], req))
            && (outcome.Dispatched? <==>
                  && !Oversells(e, req) && !HasOrderOf(e, req)
                  && req.qty > 0.0 && (req.orderType == Limit ==> req.limitPrice.Some?))
            && DispatchOf(e, SubmitOrder(req, id)) == (if outcome.Dispatched? then [req.Key()] else [])
            && (outcome.Dispatched? ==>
                  outcome.orderId == id && MadeAsAsked(r, req, id) && r.orders == e.orders[id := r.orders[id]])
            && (!outcome.Dispatched? ==> r.orders == e.orders && r.disk == e.disk)
            && r.book.Keys == e.book.Keys + (if req.side == Sell then {req.symbol} else {})
            && forall s: Symbol :: Lookup(r.book, s) == Lookup(e.book, s)
  {
    hide Lookup, KeyedState, Available, HasIntent, Request.Key, SubmitBegin, Oversells, RequestedRow, Run;
    var e := Run(c, evs);
    RunKeysTell(c, evs);
    GuardExactly(e, req);
    OrderOfKey(e, req);
    SubmitCases(e, req, id);
    SubmitLooksUp(e, req, id);
    SubmitKeyed(e, req, id);
    if req.qty > 0.0 {
      RequestedIsAsked(req, id);
    }
  }

  // The new order, in memory and on disk, and its key.
  ghost predicate MadeAsAsked(r: State, req: Request, id: OrderId) {
    && id in r.orders && id in r.disk.orders && r.disk.orders[id] == r.orders[id] && IsAsked(r.orders[id], req, id)
    && req.Key() in r.registry && r.registry[req.Key()].orderId == id
  }

  predicate IsAsked(o: OrderRow, req: Request, id: OrderId) {
    && o.orderId == id && o.symbol == req.symbol && o.side == req.side && o.qty == req.qty
    && o.orderType == req.orderType && o.limitPrice == req.limitPrice && HasIntent(o, req)
    && o.status == New && !o.confirmed && o.filled == 0.0 && o.fees == 0.0 && o.brokerId == None
  }

  lemma RequestedIsAsked(req: Request, id: OrderId)
    requires req.qty > 0.0
    ensures IsAsked(RequestedRow(req, id), req, id)
  {
  }

  lemma OrderOfKey(e: State, req: Request)
    requires KeyedState(e) && KeysTell(e.orders)
    ensures HasOrderOf(e, req) <==> req.Key() in e.registry
    ensures req.Key() in e.registry ==>
      e.registry[req.Key()].orderId in e.orders && HasIntent(e.orders[e.registry[req.Key()].orderId], req)
  {
    hide HasIntent, KeyTells, Request.Key;
    forall id | id in e.orders ensures HasIntent(e.orders[id], req) <==> e.orders[id].clientId == Some(req.Key()) {
      IntentIsKey(e.orders[id], req);
    }
  }

  // A sell looks its position up, which creates it, and changes none.
  lemma SubmitLooksUp(e: State, req: Request, id: OrderId)
    ensures var r := SubmitBegin(e, req, id).0;
            && r.book.Keys == e.book.Keys + (if req.side == Sell then {req.symbol} else {})
            && forall s: Symbol :: Lookup(r.book, s) == Lookup(e.book, s)
  {
    hide Available, OrderFits, WithOrder, RequestedRow, Request.Key, Claimed;
  }

  // The exits of submit, in the order it tries them.
  lemma SubmitCases(e: State, req: Request, id: OrderId)
    requires KeyedState(e) && id !in e.orders
    ensures var (r, outcome) := SubmitBegin(e, req, id);
            var guarded := req.side.Sell? && req.qty > Available(e, req.symbol);
            && (outcome.Oversold? <==> guarded)
            && (outcome.Known? <==> !guarded && req.Key() in e.registry)
            && (outcome.Known? ==> outcome.orderId == e.registry[req.Key()].orderId)
            && (outcome.Dispatched? <==>
                  !guarded && req.Key() !in e.registry && Constructible(req.qty, req.orderType, req.limitPrice))
            && (!outcome.Dispatched? ==> r.orders == e.orders && r.disk == e.disk)
            && (outcome.Dispatched? ==>
                  && outcome.orderId == id && r.orders == e.orders[id := RequestedRow(req, id)]
                  && id in r.disk.orders && r.disk.orders[id] == r.orders[id]
                  && req.Key() in r.registry && r.registry[req.Key()].orderId == id)
  {
    hide Keyed, Available, Touched, Request.Key;
    SubmitKeyed(e, req, id);
    if req.Key() !in e.registry && Constructible(req.qty, req.orderType, req.limitPrice) {
      NewIsFree(e, id);
    }
  }

  lemma NewIsFree(e: State, id: OrderId)
    requires KeyedState(e) && id !in e.orders
    ensures id !in e.disk.orders
  {
  }

  // ----- Which claims are taken as sent -----

  predicate IsSent(e: State, k: Key) {
    k in e.registry && e.registry[k].sent
  }

  // The ack of this order does not raise.
  predicate AcksKey(e: State, ev: Event, k: Key) {
    ev.BrokerAck? && ev.ackId in e.orders && e.orders[ev.ackId].clientId == Some(k)
    && !AckRefused(e.orders[ev.ackId], ev.ack)
  }

  // A key is taken as sent once its order's ack came without raising, or after any restart;
  // and it stays so.
  lemma SentExactly(c: Config, e: State, ev: Event, k: Key)
    requires KeyedState(e)
    ensures var r := Step(c, e, ev);
            IsSent(r, k) <==> IsSent(e, k) || AcksKey(e, ev, k) || (RestartsIn(e, ev) && k in r.registry)
  {
    hide Keyed, SubmitBegin, SubmitAck, OnFill, CancelAck, ConfirmAck, Restarted, CommittedDisk, OnlyOwnRow, AckRefused;
    match ev {
      case SubmitOrder(req, id) =>
        if id !in e.orders {
          SubmitClaims(e, req, id);
        }
      case SubmitCrash(req, id, committed) =>
        if id !in e.orders {
          SubmitKeyed(e, req, id);
          var from := if committed then SubmitBegin(e, req, id).0 else e;
          RestartSends(c, from, from.disk);
          RestartKeyed(c, from, from.disk);
          RestartedIs(c, e, from, from.disk);
        }
      case BrokerAck(id, ack) =>
        if id in e.orders {
          AckSends(e, id, ack, k);
        }
      case FillArrives(f) =>
        FillKeyed(c, e, f, 0);
      case FillCrash(f, commits) =>
        FillKeyed(c, e, f, commits);
        OwnRowKeyed(e, f, CommittedDisk(c, e, f, commits));
        RestartSends(c, e, CommittedDisk(c, e, f, commits));
        RestartKeyed(c, e, CommittedDisk(c, e, f, commits));
      case CancelReply(id, ack) =>
        if id in e.orders {
          CancelKeyed(e, id, ack);
        }
      case ConfirmReply(id, verdict) =>
        if id in e.orders {
          ConfirmKeyed(e, id, verdict);
        }
      case MarkMoves(_, _) =>
      case Restarts =>
        RestartSends(c, e, e.disk);
        RestartKeyed(c, e, e.disk);
    }
  }

  lemma SubmitClaims(e: State, req: Request, id: OrderId)
    requires KeyedState(e) && id !in e.orders
    ensures var r := SubmitBegin(e, req, id).0;
            forall k :: IsSent(r, k) <==> IsSent(e, k)
    ensures e.registry.Keys <= SubmitBegin(e, req, id).0.registry.Keys
  {
    hide Keyed, Available, Touched, OrderFits, WithOrder, RequestedRow, Request.Key;
  }

  lemma AckSends(e: State, id: OrderId, ack: Ack, k: Key)
    requires KeyedState(e) && id in e.orders
    ensures IsSent(SubmitAck(e, id, ack), k) <==> IsSent(e, k) || AcksKey(e, BrokerAck(id, ack), k)
  {
    hide Keyed, Acked, Stored, AckRefused;
    OwnRow(e, id);
    AckedKeepsIdentity(e.orders[id], ack);
    AckRaises(e.orders[id], ack);
    var row := Acked(e.orders[id], ack).row;
    StoredClaims(e.(registry := Sent(e.registry, row.clientId.value)), row);
  }

  lemma StoredClaims(e: State, row: OrderRow)
    ensures Stored(e, row).registry == e.registry
  {
    hide OrderFits, WithOrder;
  }

  lemma RestartSends(c: Config, e: State, d: Tables)
    requires Keyed(e.orders, e.registry, d.orders)
    ensures forall k :: k in Restarted(c, e, d).registry ==> IsSent(Restarted(c, e, d), k)
  {
    hide Keyed;
    RestartKeyed(c, e, d);
    var r := Restarted(c, e, d);
    assert r.registry == ClaimsOf(d.orders);
    forall k | k in r.registry ensures r.registry[k].sent {
      var id := r.registry[k].orderId;
      assert d.orders[id].clientId == Some(k);
    }
  }
}
