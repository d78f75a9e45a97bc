// What every engine run keeps of an order: its identity, its key, and who may reject it.

module OrderHistory {
  import opened Models
  import opened Money
  import opened Orders
  import opened Positions
  import opened Settings
  import opened Store
  import opened Idempotency
  import opened EngineSpec
  import opened Views
  import opened EngineRuns

  // ----- Where a row comes from -----

  // What the event's own operation makes of a row.
  function ByEvent(ev: Event, o: OrderRow): OrderRow {
    match ev
    case BrokerAck(_, ack) => Acked(o, ack).row
    case FillArrives(f) => Filling(o, f).row
    case FillCrash(f, _) => Filling(o, f).row
    case CancelReply(_, ack) => if ack.status.Cancelled? then Cancelling(o, None, false).row else o
    case ConfirmReply(_, verdict) => Confirming(o, verdict)
    case _ => o
  }

  // A row after the step is the one before it, in memory or on disk, or the event's own
  // operation on the one in memory; a row of a new order is a new one.
  ghost predicate RowsFrom(e: State, ev: Event, after: map<OrderId, OrderRow>) {
    && e.orders.Keys <= after.Keys
    && (forall id :: id in e.orders ==>
          id in e.disk.orders
            && (after[id] == e.orders[id] || after[id] == e.disk.orders[id] || after[id] == ByEvent(ev, e.orders[id])))
    && (forall id :: id in after && id !in e.orders ==> after[id].status.New? && IsRequested(ev, id, after[id]))
  }

  // The row a submit's request asks for.
  predicate IsRequested(ev: Event, id: OrderId, row: OrderRow) {
    || (ev.SubmitOrder? && ev.newId == id && ev.req.qty > 0.0 && row == RequestedRow(ev.req, id))
    || (ev.SubmitCrash? && ev.crashId == id && ev.crashReq.qty > 0.0 && row == RequestedRow(ev.crashReq, id))
  }

  lemma OneRowWritten(e: State, ev: Event, id: OrderId, disk: bool)
    requires KeyedState(e) && id in e.orders
    ensures RowsFrom(e, ev,
                     if disk then e.disk.orders[id := ByEvent(ev, e.orders[id])]
                     else e.orders[id := ByEvent(ev, e.orders[id])])
  {
    hide ByEvent;
  }

  lemma NothingWritten(e: State, ev: Event)
    requires KeyedState(e)
    ensures RowsFrom(e, ev, e.orders) && RowsFrom(e, ev, e.disk.orders)
  {
    hide ByEvent;
  }

  lemma ByEventKeeps(ev: Event, o: OrderRow)
    ensures SameIdentity(ByEvent(ev, o), o) && ByEvent(ev, o).orderId == o.orderId
  {
    hide Filling, Acked;
    match ev {
      case BrokerAck(_, ack) => AckedKeepsIdentity(o, ack);
      case FillArrives(f) => FillingKeepsIdentity(o, f);
      case FillCrash(f, _) => FillingKeepsIdentity(o, f);
      case _ =>
    }
  }

  lemma StoredRows(e: State, ev: Event, id: OrderId, b: State)
    requires KeyedState(e) && id in e.orders && b == e.(registry := b.registry)
    ensures var r, row := Stored(b, ByEvent(ev, e.orders[id])), ByEvent(ev, e.orders[id]);
            r.orders == e.orders[id := row] && r.disk.orders == e.disk.orders[id := row]
  {
    hide ByEvent, Keyed, OrderFits, WrittenRow;
    OwnRow(e, id);
    ByEventKeeps(ev, e.orders[id]);
    KeyedRowFits(e.orders, e.registry, e.disk, ByEvent(ev, e.orders[id]));
  }

  lemma AckRows(e: State, id: OrderId, ack: Ack)
    requires KeyedState(e) && id in e.orders
    ensures var ev, r := BrokerAck(id, ack), SubmitAck(e, id, ack);
            RowsFrom(e, ev, r.orders) && RowsFrom(e, ev, r.disk.orders)
  {
    hide Keyed, Acked, Stored, RowsFrom;
    var ev, o := BrokerAck(id, ack), e.orders[id];
    var sent := if o.clientId.Some? then e.(registry := Sent(e.registry, o.clientId.value)) else e;
    AckedKeepsIdentity(o, ack);
    StoredRows(e, ev, id, sent);
    OneRowWritten(e, ev, id, false);
    OneRowWritten(e, ev, id, true);
    NothingWritten(e, ev);
  }

  lemma CancelRows(e: State, id: OrderId, ack: Ack)
    requires KeyedState(e) && id in e.orders
    ensures var ev, r := CancelReply(id, ack), CancelAck(e, id, ack);
            RowsFrom(e, ev, r.orders) && RowsFrom(e, ev, r.disk.orders)
  {
    hide Keyed, Cancelling, Stored, RowsFrom;
    var ev := CancelReply(id, ack);
    StoredRows(e, ev, id, e);
    OneRowWritten(e, ev, id, false);
    OneRowWritten(e, ev, id, true);
    NothingWritten(e, ev);
  }

  lemma ConfirmRows(e: State, id: OrderId, verdict: OrderStatus)
    requires KeyedState(e) && id in e.orders
    ensures var ev, r := ConfirmReply(id, verdict), ConfirmAck(e, id, verdict);
            RowsFrom(e, ev, r.orders) && RowsFrom(e, ev, r.disk.orders)
  {
    hide Keyed, Confirming, Stored, RowsFrom;
    var ev := ConfirmReply(id, verdict);
    StoredRows(e, ev, id, e);
    OneRowWritten(e, ev, id, false);
    OneRowWritten(e, ev, id, true);
  }

  lemma FillRows(c: Config, e: State, f: Fill, ev: Event)
    requires KeyedState(e) && (ev == FillArrives(f) || (ev.FillCrash? && ev.crashFill == f))
    ensures RowsFrom(e, ev, OnFill(c, e, f).0.orders) && RowsFrom(e, ev, OnFill(c, e, f).0.disk.orders)
    ensures ev.FillCrash? ==> RowsFrom(e, ev, CommittedDisk(c, e, f, ev.commits).orders)
  {
    hide Keyed, Filling, OnFill, CommittedDisk, RowsFrom;
    NothingWritten(e, ev);
    if f.orderId in e.orders {
      OneRowWritten(e, ev, f.orderId, false);
      OneRowWritten(e, ev, f.orderId, true);
      OnFillWrites(c, e, f);
      if ev.FillCrash? {
        CommitsWrite(c, e, f, ev.commits);
      }
    } else {
      NoOrderNoWrite(c, e, f, if ev.FillCrash? then ev.commits else 0);
    }
  }

  lemma SubmitRows(e: State, req: Request, id: OrderId, ev: Event)
    requires KeyedState(e) && id !in e.orders
    requires ev == SubmitOrder(req, id) || (ev.SubmitCrash? && ev.crashReq == req && ev.crashId == id)
    ensures RowsFrom(e, ev, SubmitBegin(e, req, id).0.orders) && RowsFrom(e, ev, SubmitBegin(e, req, id).0.disk.orders)
  {
    hide Keyed, SubmitBegin, RowsFrom, RequestedRow;
    NothingWritten(e, ev);
    SubmitWrites(e, req, id);
    if req.qty > 0.0 {
      RequestedIsNew(req, id);
      NewRow(e, ev, RequestedRow(req, id));
    }
  }

  lemma NewRow(e: State, ev: Event, row: OrderRow)
    requires KeyedState(e) && row.orderId !in e.orders && row.status.New? && IsRequested(ev, row.orderId, row)
    ensures RowsFrom(e, ev, e.orders[row.orderId := row]) && RowsFrom(e, ev, e.disk.orders[row.orderId := row])
  {
    hide ByEvent, SameIdentity, IsRequested;
  }

  lemma RestartRows(c: Config, e: State, d: Tables)
    requires Keyed(e.orders, e.registry, d.orders)
    ensures Restarted(c, e, d).orders == d.orders && Restarted(c, e, d).disk.orders == d.orders
  {
    hide Keyed;
    RestartKeyed(c, e, d);
  }

  lemma StepRows(c: Config, e: State, ev: Event)
    requires KeyedState(e)
    ensures RowsFrom(e, ev, Step(c, e, ev).orders) && RowsFrom(e, ev, Step(c, e, ev).disk.orders)
  {
    hide Keyed, RowsFrom, SubmitBegin, SubmitAck, OnFill, CancelAck, ConfirmAck, Restarted, CommittedDisk, OnlyOwnRow;
    NothingWritten(e, ev);
    match ev {
      case SubmitOrder(req, id) =>
        if id !in e.orders {
          SubmitRows(e, req, id, ev);
        }
      case SubmitCrash(req, id, committed) =>
        if id !in e.orders {
          var r := SubmitBegin(e, req, id).0;
          SubmitRows(e, req, id, ev);
          SubmitKeyed(e, req, id);
          RestartRows(c, r, r.disk);
          RestartRows(c, e, e.disk);
          RestartKeyed(c, r, r.disk);
          RestartedIs(c, e, r, r.disk);
        }
      case BrokerAck(id, ack) =>
        if id in e.orders {
          AckRows(e, id, ack);
        }
      case FillArrives(f) =>
        FillRows(c, e, f, ev);
      case FillCrash(f, commits) =>
        FillRows(c, e, f, ev);
        FillKeyed(c, e, f, commits);
        OwnRowKeyed(e, f, CommittedDisk(c, e, f, commits));
        RestartRows(c, e, CommittedDisk(c, e, f, commits));
      case CancelReply(id, ack) =>
        if id in e.orders {
          CancelRows(e, id, ack);
        }
      case ConfirmReply(id, verdict) =>
        if id in e.orders {
          ConfirmRows(e, id, verdict);
        }
      case MarkMoves(_, _) =>
      case Restarts =>
        RestartRows(c, e, e.disk);
    }
  }

  // ----- A key leads to one order for good -----

  ghost predicate IdentitiesKept(a: map<OrderId, OrderRow>, b: map<OrderId, OrderRow>) {
    forall id :: id in a ==> id in b && SameIdentity(b[id], a[id])
  }

  lemma StepKeepsIdentities(c: Config, e: State, ev: Event)
    requires KeyedState(e)
    ensures IdentitiesKept(e.orders, Step(c, e, ev).orders)
  {
    hide Step, ByEvent;
    StepRows(c, e, ev);
    forall id | id in e.orders ensures SameIdentity(ByEvent(ev, e.orders[id]), e.orders[id]) {
      ByEventKeeps(ev, e.orders[id]);
    }
  }

  lemma SameKeySameOrder(e: State, r: State, k: Key)
    requires KeyedState(e) && KeyedState(r) && IdentitiesKept(e.orders, r.orders) && k in e.registry && k in r.registry
    ensures r.registry[k].orderId == e.registry[k].orderId
  {
    assert r.orders[e.registry[k].orderId].clientId == Some(k);
  }

  // Whatever comes after, restarts and crashes included, every order keeps its identity and
  // every known key leads to the order it led to.
  lemma {:induction false} KeysKeepTheirOrders(c: Config, evs: seq<Event>, more: seq<Event>)
    ensures var e, r := Run(c, evs), Run(c, evs + more);
            && KeyedState(e) && KeyedState(r) && IdentitiesKept(e.orders, r.orders)
            && forall k :: k in e.registry ==> k in r.registry && r.registry[k].orderId == e.registry[k].orderId
  {
    hide Step, Keyed, KeyedState, IdentitiesKept;
    AtMostOnce(c, evs);
    if more == [] {
      assert evs + more == evs;
      SameIdentities(Run(c, evs).orders);
    } else {
      var before, ev := more[..|more| - 1], more[|more| - 1];
      assert (evs + more)[..|evs + more| - 1] == evs + before;
      KeysKeepTheirOrders(c, evs, before);
      var mid := Run(c, evs + before);
      StepKeyed(c, mid, ev);
      StepKeepsIdentities(c, mid, ev);
      IdentitiesCompose(Run(c, evs).orders, mid.orders, Run(c, evs + more).orders);
      forall k | k in Run(c, evs).registry
        ensures Run(c, evs + more).registry[k].orderId == Run(c, evs).registry[k].orderId
      {
        SameKeySameOrder(mid, Run(c, evs + more), k);
      }
    }
  }

  lemma SameIdentities(orders: map<OrderId, OrderRow>)
    ensures IdentitiesKept(orders, orders)
  {
  }

  lemma IdentitiesCompose(a: map<OrderId, OrderRow>, b: map<OrderId, OrderRow>, d: map<OrderId, OrderRow>)
    requires IdentitiesKept(a, b) && IdentitiesKept(b, d)
    ensures IdentitiesKept(a, d)
  {
  }

  // A submit claims its key for its order, whichever way it goes on from there.
  lemma DispatchClaims(e: State, req: Request, id: OrderId)
    requires id !in e.orders && SubmitBegin(e, req, id).1 == Dispatched(id)
    ensures var r := SubmitBegin(e, req, id).0; req.Key() in r.registry && r.registry[req.Key()].orderId == id
  {
    hide Available, OrderFits, WithOrder;
  }

  // A retry of an intent that was sent, at any later time, after any restarts and crashes,
  // sends nothing, changes no order and returns the order that was sent; only a sell that the
  // oversell guard refuses, which is asked first, raises instead.
  lemma RetryReturnsTheOrder(c: Config, evs: seq<Event>, req: Request, id: OrderId, more: seq<Event>, newId: OrderId)
    requires id !in Run(c, evs).orders && SubmitBegin(Run(c, evs), req, id).1 == Dispatched(id)
    requires newId !in Run(c, evs + [SubmitOrder(req, id)] + more).orders
    ensures var e := Run(c, evs + [SubmitOrder(req, id)] + more);
            var (r, outcome) := SubmitBegin(e, req, newId);
            && DispatchOf(e, SubmitOrder(req, newId)) == []
            && r.orders == e.orders && r.registry == e.registry && r.disk == e.disk
            && outcome == (if req.side.Sell? && req.qty > Available(e, req.symbol)
                           then Oversold(Available(e, req.symbol))
                           else Known(id))
            && id in e.orders && SameIdentity(e.orders[id], RequestedRow(req, id))
  {
    hide Available, KeyedState, Step, SubmitBegin, Run, Request.Key, IdentitiesKept, RequestedRow;
    var sent := evs + [SubmitOrder(req, id)];
    RunNext(c, evs, SubmitOrder(req, id));
    SubmitStepIs(c, Run(c, evs), req, id);
    DispatchClaims(Run(c, evs), req, id);
    KeysKeepTheirOrders(c, sent, more);
    DispatchedRow(Run(c, evs), req, id);
    KeptIdentity(Run(c, sent).orders, Run(c, sent + more).orders, id);
    RetryOf(Run(c, sent + more), req, newId);
  }

  lemma SubmitStepIs(c: Config, e: State, req: Request, id: OrderId)
    requires id !in e.orders
    ensures Step(c, e, SubmitOrder(req, id)) == SubmitBegin(e, req, id).0
  {
    hide SubmitBegin;
  }

  lemma KeptIdentity(a: map<OrderId, OrderRow>, b: map<OrderId, OrderRow>, id: OrderId)
    requires IdentitiesKept(a, b) && id in a
    ensures id in b && SameIdentity(b[id], a[id])
  {
  }

  // A submit of a known key sends nothing and changes nothing but the looked up position.
  lemma RetryOf(e: State, req: Request, newId: OrderId)
    requires req.Key() in e.registry
    ensures var (r, outcome) := SubmitBegin(e, req, newId);
            && DispatchOf(e, SubmitOrder(req, newId)) == []
            && r.orders == e.orders && r.registry == e.registry && r.disk == e.disk
            && outcome == if req.side.Sell? && req.qty > Available(e, req.symbol)
                          then Oversold(Available(e, req.symbol))
                          else Known(e.registry[req.Key()].orderId)
  {
    hide Available, Touched, Request.Key;
  }

  lemma DispatchedRow(e: State, req: Request, id: OrderId)
    requires id !in e.orders && SubmitBegin(e, req, id).1 == Dispatched(id)
    ensures req.qty > 0.0 && id in SubmitBegin(e, req, id).0.orders
    ensures SubmitBegin(e, req, id).0.orders[id] == RequestedRow(req, id)
  {
    hide Available, OrderFits, WithOrder;
  }

  // ----- Only the broker rejects -----

  ghost predicate RejectionsConfirmed(orders: map<OrderId, OrderRow>) {
    forall id :: id in orders && orders[id].status.Rejected? ==> orders[id].confirmed
  }

  lemma ByEventRejects(ev: Event, o: OrderRow)
    requires o.status.Rejected? ==> o.confirmed
    ensures ByEvent(ev, o).status.Rejected? ==> ByEvent(ev, o).confirmed
  {
    hide Mean;
  }

  // No run has an order that is rejected provisionally, in memory or on disk: the engine
  // rejects nothing itself, and a broker's rejection comes confirmed.
  lemma {:induction false} OnlyConfirmedRejections(c: Config, evs: seq<Event>)
    ensures RejectionsConfirmed(Run(c, evs).orders) && RejectionsConfirmed(Run(c, evs).disk.orders)
  {
    hide Step, Keyed, RowsFrom, RejectionsConfirmed;
    if evs == [] {
      NothingRejected();
    } else {
      var before, ev := evs[..|evs| - 1], evs[|evs| - 1];
      OnlyConfirmedRejections(c, before);
      AtMostOnce(c, before);
      StepRows(c, Run(c, before), ev);
      RowsReject(Run(c, before), ev, Run(c, evs).orders);
      RowsReject(Run(c, before), ev, Run(c, evs).disk.orders);
    }
  }

  lemma NothingRejected()
    ensures RejectionsConfirmed(START.orders) && RejectionsConfirmed(START.disk.orders)
  {
  }

  lemma RowsReject(e: State, ev: Event, after: map<OrderId, OrderRow>)
    requires RowsFrom(e, ev, after) && RejectionsConfirmed(e.orders) && RejectionsConfirmed(e.disk.orders)
    ensures RejectionsConfirmed(after)
  {
    hide ByEvent;
    forall id | id in e.orders
      ensures ByEvent(ev, e.orders[id]).status.Rejected? ==> ByEvent(ev, e.orders[id]).confirmed
    {
      ByEventRejects(ev, e.orders[id]);
    }
  }
}
