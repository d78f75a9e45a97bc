// What a confirmed status says in the closed system: the broker's last word, and, when
// confirmations wait for the stream, FILLED exactly of the orders that are full.

module QuietVerdicts {
  import opened Models
  import opened Money
  import opened Sums
  import opened Orders
  import opened EngineSpec
  import opened Views
  import opened Recovery
  import opened MockBroker
  import opened ClosedSystem
  import opened EndToEnd
  import opened SlicingRuns

  // A confirmed order has the status the broker still answers about it, and that is terminal.
  predicate Told(o: OrderRow, b: Broker) {
    o.status == Queried(b, o.brokerId).status && o.status.IsTerminal()
  }

  ghost predicate VerdictsTold(x: Sys) {
    forall id :: id in x.eng.orders && x.eng.orders[id].confirmed ==> Told(x.eng.orders[id], x.brk)
  }

  // Every confirmation of b is one of a, with the same status and broker id.
  ghost predicate NoneConfirmed(a: map<OrderId, OrderRow>, b: map<OrderId, OrderRow>) {
    forall id :: id in b && b[id].confirmed ==>
      id in a && a[id].confirmed && a[id].status == b[id].status && a[id].brokerId == b[id].brokerId
  }

  // The broker still answers the same about the confirmed orders.
  ghost predicate AnswersKept(orders: map<OrderId, OrderRow>, b: Broker, r: Broker) {
    forall id :: id in orders && orders[id].confirmed ==>
      Queried(r, orders[id].brokerId).status == Queried(b, orders[id].brokerId).status
  }

  lemma StillTold(x: Sys, y: Sys)
    requires VerdictsTold(x) && NoneConfirmed(x.eng.orders, y.eng.orders) && AnswersKept(x.eng.orders, x.brk, y.brk)
    ensures VerdictsTold(y)
  {
    hide Queried;
    forall id | id in y.eng.orders && y.eng.orders[id].confirmed ensures Told(y.eng.orders[id], y.brk) {
      assert Told(x.eng.orders[id], x.brk);
    }
  }

  lemma SameTold(orders: map<OrderId, OrderRow>, b: Broker, r: Broker)
    requires r.acks == b.acks
    ensures NoneConfirmed(orders, orders) && AnswersKept(orders, b, r)
  {
  }

  // ----- The steps -----

  lemma SubmitTold(p: Setup, x: Sys, req: Request, id: OrderId)
    requires SysInv(p, x) && VerdictsTold(x)
    ensures VerdictsTold(SubmitStep(p, x, req, id))
  {
    hide Agrees, Streams, Linked, SubmitBegin, Answered, SubmitAck, Queried, VerdictsTold, AnswersKept, NoneConfirmed;
    SameTold(x.eng.orders, x.brk, x.brk);
    if id !in x.eng.orders {
      SubmitShape(x.eng, req, id);
      SubmitAgrees(p.config, x.eng, req, id);
      var (e, outcome) := SubmitBegin(x.eng, req, id);
      if outcome.Dispatched? {
        DispatchTold(p, x, e, req, id);
      } else {
        StillTold(x, SubmitStep(p, x, req, id));
      }
    }
  }

  lemma DispatchTold(p: Setup, x: Sys, e: State, req: Request, id: OrderId)
    requires SysInv(p, x) && VerdictsTold(x) && IsDispatched(x.eng, e, req, id)
    ensures var (b, reply) := Answered(p.mock, x.brk, e.orders[id]);
            VerdictsTold(Emitting(x, b).(eng := if reply.Acknowledged? then SubmitAck(e, id, reply.ack) else e))
  {
    hide Agrees, Streams, Linked, Answered, SubmitAck, Queried, VerdictsTold, AnswersKept, NoneConfirmed, Accepted;
    var o := e.orders[id];
    AnswerShape(p.mock, x.brk, o);
    var (b, reply) := Answered(p.mock, x.brk, o);
    var y := Emitting(x, b).(eng := if reply.Acknowledged? then SubmitAck(e, id, reply.ack) else e);
    if reply.Acknowledged? {
      AckStatus(x.brk, o, b, reply.ack);
      AckEffect(e, id, reply.ack);
      NewIsUnconfirmed(x.eng.orders, id, NamedRow(o, reply.ack.brokerId));
      assert y.eng.orders == x.eng.orders[id := NamedRow(o, reply.ack.brokerId)];
      NewAckTold(x.eng.orders, x.brk, o, b, reply.ack, x.emitted);
    } else {
      NewIsUnconfirmed(x.eng.orders, id, o);
      SameTold(x.eng.orders, x.brk, b);
    }
    StillTold(x, y);
  }

  lemma NewIsUnconfirmed(orders: map<OrderId, OrderRow>, id: OrderId, row: OrderRow)
    requires !row.confirmed
    ensures NoneConfirmed(orders, orders[id := row])
  {
  }

  lemma NewAckTold(orders: map<OrderId, OrderRow>, b: Broker, o: OrderRow, r: Broker, ack: Ack, fs: seq<Fill>)
    requires Linked(orders, b, fs) && Accepted(b, o, r, ack)
    ensures AnswersKept(orders, b, r)
  {
    hide Sum, Worth, AckTells, DripTells, SlicedLater, FilledAtOnce;
    forall id | id in orders ensures Queried(r, orders[id].brokerId) == Queried(b, orders[id].brokerId) {
      LinkOf(orders, b, fs, id);
    }
  }

  // A slice changes the ack of its own order, which is not confirmed while it can come.
  lemma TurnTold(p: Setup, x: Sys, bid: BrokerId)
    requires SysInv(p, x) && AllQuiet(x) && bid in x.brk.drips && x.brk.drips[bid].base.Some?
    ensures AnswersKept(x.eng.orders, x.brk, DripSlice(p.mock, x.brk, bid))
  {
    hide Agrees, Streams, SliceQty, Quantize, BrokerBook.AccountStep, Sum, Worth, OrderLinked;
    var r := DripSlice(p.mock, x.brk, bid);
    assert forall i :: i != bid ==> (i in r.acks <==> i in x.brk.acks) && (i in r.acks ==> r.acks[i] == x.brk.acks[i]);
    forall id | id in x.eng.orders && x.eng.orders[id].confirmed ensures x.eng.orders[id].brokerId != Some(bid) {
      assert Quiet(x, id);
    }
  }

  lemma DrainTold(p: Setup, x: Sys)
    requires SysInv(p, x) && x.brk.queue != []
    ensures NoneConfirmed(x.eng.orders, OnFill(p.config, x.eng, x.brk.queue[0]).0.orders)
  {
    hide Agrees, Linked, Streams, OnFill, Filling, IsApplied;
    var f := x.brk.queue[0];
    StreamsFacts(x);
    DrainExactly(p, x);
    Delivered(p, x, |x.kept|);
    if !x.eng.orders[f.orderId].confirmed {
      HeadHasRoom(p, x);
      HeadIsNew(p, x);
      OnFillApplies(p.config, x.eng, f);
      TakenRow(p.config, x.eng, f);
      AppliedEffect(p.config, x.eng, f, OnFill(p.config, x.eng, f).0);
    }
  }

  lemma CancelTold(p: Setup, x: Sys, id: OrderId)
    requires SysInv(p, x) && VerdictsTold(x) && id in x.eng.orders
    ensures VerdictsTold(CancelStep(x, id))
  {
    hide Agrees, Streams, CancelAck, OrderLinked;
    var o := x.eng.orders[id];
    var (b, ack) := CancelAnswer(x.brk, o.brokerId);
    LinkOf(x.eng.orders, x.brk, x.emitted, id);
    CancelEffect(p.config, x.eng, id, ack);
    forall i | i in x.eng.orders && x.eng.orders[i].confirmed
      ensures Queried(b, x.eng.orders[i].brokerId).status == Queried(x.brk, x.eng.orders[i].brokerId).status
    {
      assert Told(x.eng.orders[i], x.brk);
    }
    assert o.confirmed ==> Told(o, x.brk);
    StillTold(x, CancelStep(x, id));
  }

  lemma ConfirmTold(p: Setup, x: Sys, id: OrderId)
    requires SysInv(p, x) && VerdictsTold(x) && id in x.eng.orders
    ensures VerdictsTold(ConfirmStep(x, id))
  {
    hide Agrees, Streams, Linked, ConfirmAck;
    var o := x.eng.orders[id];
    var status := Queried(x.brk, o.brokerId).status;
    LinkOf(x.eng.orders, x.brk, x.emitted, id);
    ConfirmEffect(p.config, x.eng, id, status);
    ConfirmingKeepsOrder(o, status);
    var y := ConfirmStep(x, id);
    forall i | i in y.eng.orders && y.eng.orders[i].confirmed ensures Told(y.eng.orders[i], y.brk) {
      assert x.eng.orders[i].confirmed ==> Told(x.eng.orders[i], x.brk);
    }
  }

  lemma StepTold(p: Setup, x: Sys, ev: SysEvent)
    requires SysInv(p, x) && AllQuiet(x) && VerdictsTold(x)
    ensures VerdictsTold(SysStep(p, x, ev))
  {
    hide Agrees, Streams, Linked, SubmitStep, CancelStep, ConfirmStep, OnFill, Load, DripSlice, KnownClients;
    hide VerdictsTold, NoneConfirmed, AnswersKept, AllQuiet;
    var y := SysStep(p, x, ev);
    SameTold(x.eng.orders, x.brk, x.brk);
    match ev {
      case Submits(req, id) => SubmitTold(p, x, req, id);
      case DripStarts(bid) =>
        SameTold(x.eng.orders, x.brk, y.brk);
        StillTold(x, y);
      case DripTurns(bid) =>
        if bid in x.brk.drips && x.brk.drips[bid].base.Some? {
          TurnTold(p, x, bid);
        }
        StillTold(x, y);
      case Drains =>
        SameTold(x.eng.orders, x.brk, y.brk);
        if x.brk.queue != [] {
          DrainTold(p, x);
        }
        StillTold(x, y);
      case Redelivers(i) =>
        if i < |x.kept| {
          RedeliveryKeeps(p, x, i);
        }
        StillTold(x, y);
      case Cancels(id) =>
        if id in x.eng.orders {
          CancelTold(p, x, id);
        } else {
          NoSuchOrder(x, id);
        }
      case Confirms(id) =>
        if id in x.eng.orders {
          ConfirmTold(p, x, id);
        } else {
          NoSuchOrder(x, id);
        }
      case EngineRestarts =>
        ReloadKeeps(p, x);
        AgreesFacts(p.config, x.eng);
        LoadIs(p.config, x.eng.disk);
        StillTold(x, y);
      case _ =>
        SameTold(x.eng.orders, x.brk, y.brk);
        StillTold(x, y);
    }
  }

  lemma NoSuchOrder(x: Sys, id: OrderId)
    requires id !in x.eng.orders
    ensures CancelStep(x, id) == x && ConfirmStep(x, id) == x
  {
  }

  lemma {:induction false} RunTold(p: Setup, x: Sys, evs: seq<SysEvent>)
    requires SysInv(p, x) && AllQuiet(x) && VerdictsTold(x) && QuietConfirms(p, x, evs)
    ensures VerdictsTold(SysRun(p, x, evs))
  {
    hide SysInv, AllQuiet, VerdictsTold, SysStep, ConfirmsWhenQuiet;
    if evs != [] {
      var before := evs[..|evs| - 1];
      RunTold(p, x, before);
      NothingIsDropped(p, x, before);
      StepTold(p, SysRun(p, x, before), evs[|evs| - 1]);
    }
  }

  // ----- What a confirmation says -----

  // Over every run whose confirmations wait until nothing of their order is left to come: a
  // confirmed order has the status the broker answers, and is FILLED if and only if its
  // record is full.
  lemma ConfirmedIsFilledExactly(p: Setup, transients: nat, prices: map<Symbol, real>, evs: seq<SysEvent>, id: OrderId)
    requires QuietConfirms(p, Begin(transients, prices), evs)
    requires var y := SysRun(p, Begin(transients, prices), evs); id in y.eng.orders && y.eng.orders[id].confirmed
    ensures var y := SysRun(p, Begin(transients, prices), evs);
            var o := y.eng.orders[id];
            && o.status == Queried(y.brk, o.brokerId).status && o.status in {Filled, Cancelled, Rejected}
            && (o.status == Filled <==> o.filled == o.qty)
            && (o.status == Rejected <==> o.brokerId == None)
  {
    hide SysInv, AllQuiet, VerdictsTold, SysRun, QuietConfirms;
    var x := Begin(transients, prices);
    BeginsWell(p, transients, prices);
    BeginsQuiet(transients, prices);
    NothingIsDropped(p, x, evs);
    RunTold(p, x, evs);
    FullWhenQuiet(p, SysRun(p, x, evs), id);
  }

  lemma BeginsQuiet(transients: nat, prices: map<Symbol, real>)
    ensures AllQuiet(Begin(transients, prices)) && VerdictsTold(Begin(transients, prices))
  {
  }

  lemma FullWhenQuiet(p: Setup, y: Sys, id: OrderId)
    requires SysInv(p, y) && AllQuiet(y) && VerdictsTold(y) && id in y.eng.orders && y.eng.orders[id].confirmed
    ensures var o := y.eng.orders[id];
            && o.status == Queried(y.brk, o.brokerId).status && o.status in {Filled, Cancelled, Rejected}
            && (o.status == Filled <==> o.filled == o.qty)
            && (o.status == Rejected <==> o.brokerId == None)
  {
    hide Linked, Streams, Sum, Worth, Pick, Agrees;
    var o := y.eng.orders[id];
    assert Told(o, y.brk) && Quiet(y, id);
    LinkOf(y.eng.orders, y.brk, y.emitted, id);
    LedgerIsSent(y, id);
    FilledIsLedger(p.config, y.eng, id);
    if o.brokerId.None? {
      NoFillsNoSum(y.emitted, id);
    }
  }

  // With nothing dropped and nothing of the order queued the ledger has all that was sent of it.
  lemma LedgerIsSent(y: Sys, id: OrderId)
    requires Streams(y) && AllQuiet(y) && Quiet(y, id)
    ensures Sum(y.eng.disk.fills, QtyFor(id)) == Sum(y.emitted, QtyFor(id))
  {
    hide Sum, Stamped, BrokerBook.AccountRun;
    PickAll(y.emitted, y.kept);
    assert y.emitted == y.emitted[..|y.kept|] + y.brk.queue;
    SumConcat(y.emitted[..|y.kept|], y.brk.queue, QtyFor(id));
    NoFillsNoSum(y.brk.queue, id);
  }
}
