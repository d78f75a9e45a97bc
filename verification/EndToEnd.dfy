// What the closed system's invariant gives: where broker and engine differ, when they do
// not, and what the reconciler then reports.

module EndToEnd {
  import opened Models
  import opened Money
  import opened Sums
  import opened Ledger
  import opened Orders
  import opened Positions
  import opened Settings
  import opened Pnl
  import opened Store
  import opened EngineSpec
  import opened Views
  import opened Recovery
  import BrokerBook
  import opened MockBroker
  import opened Slicing
  import opened ClosedSystem

  // ----- The gap is what is in flight, and what was dropped -----

  // In every reachable state, for every symbol, the broker's quantity less the engine's is
  // the net signed quantity still queued plus that of the fills the engine was handed and
  // did not apply.
  lemma GapIsInFlight(p: Setup, x: Sys, s: Symbol)
    requires SysInv(p, x)
    ensures BrokerBook.At(x.brk.account, s).qty - Held(x.eng, s) == Net(x.brk.queue, s) + Net(Dropped(x), s)
  {
    hide Sum, Linked, Agrees, Held, BrokerBook.AccountRun, BrokerBook.At, Stamped, Pick;
    OneQuantity(p.config, x.eng, s);
    BrokerBook.BrokerQuantity(x.emitted, s);
    NetOfDelivered(x.emitted, x.kept, s);
  }

  // The net of everything sent: applied, dropped, and still waiting.
  lemma NetOfDelivered(fs: seq<Fill>, kept: seq<bool>, s: Symbol)
    requires |kept| <= |fs|
    ensures Net(fs, s) == Net(Pick(fs, kept, true), s) + Net(Pick(fs, kept, false), s) + Net(fs[|kept|..], s)
  {
    hide Sum, Pick;
    PickSum(fs, kept, NetOf(s));
    assert fs == fs[..|kept|] + fs[|kept|..];
    SumConcat(fs[..|kept|], fs[|kept|..], NetOf(s));
  }

  // ----- What is dropped -----

  // A step never takes back a delivery, an emission or a confirmation.
  ghost predicate Extends(x: Sys, y: Sys) {
    && x.emitted <= y.emitted && x.kept <= y.kept
    && forall id :: id in x.eng.orders && x.eng.orders[id].confirmed ==>
      id in y.eng.orders && y.eng.orders[id].confirmed
  }

  lemma OnFillExtends(c: Config, e: State, f: Fill)
    ensures forall id :: id in e.orders && e.orders[id].confirmed ==>
      id in OnFill(c, e, f).0.orders && OnFill(c, e, f).0.orders[id].confirmed
  {
    hide Mean, BookStep, PnlStep, OrderFits, FillFits, KnowsExec, WithOrder;
  }

  lemma SubmitExtends(p: Setup, x: Sys, req: Request, id: OrderId)
    requires SysInv(p, x)
    ensures Extends(x, SubmitStep(p, x, req, id))
  {
    hide Agrees, Streams, Linked, SubmitBegin, Answered, SubmitAck;
    if id !in x.eng.orders {
      SubmitAgrees(p.config, x.eng, req, id);
      SubmitShape(x.eng, req, id);
      var (e, outcome) := SubmitBegin(x.eng, req, id);
      if outcome.Dispatched? {
        AnswerShape(p.mock, x.brk, e.orders[id]);
        var (b, reply) := Answered(p.mock, x.brk, e.orders[id]);
        if reply.Acknowledged? {
          AckStatus(x.brk, e.orders[id], b, reply.ack);
          AckEffect(e, id, reply.ack);
        }
      }
    }
  }

  lemma StepExtends(p: Setup, x: Sys, ev: SysEvent)
    requires SysInv(p, x)
    ensures Extends(x, SysStep(p, x, ev))
  {
    hide Agrees, Streams, Linked, SubmitStep, CancelAck, ConfirmAck, OnFill, Load, DripSlice;
    hide KnownClients, Answered, CancelAnswer;
    match ev {
      case Submits(req, id) => SubmitExtends(p, x, req, id);
      case Drains =>
        if x.brk.queue != [] {
          OnFillExtends(p.config, x.eng, x.brk.queue[0]);
        }
      case Redelivers(i) =>
        if i < |x.kept| && i < |x.emitted| {
          OnFillExtends(p.config, x.eng, x.emitted[i]);
        }
      case Cancels(id) =>
        if id in x.eng.orders {
          LinkOf(x.eng.orders, x.brk, x.emitted, id);
          CancelEffect(p.config, x.eng, id, CancelAnswer(x.brk, x.eng.orders[id].brokerId).1);
        }
      case Confirms(id) =>
        if id in x.eng.orders {
          LinkOf(x.eng.orders, x.brk, x.emitted, id);
          ConfirmEffect(p.config, x.eng, id, Queried(x.brk, x.eng.orders[id].brokerId).status);
        }
      case EngineRestarts =>
        ReloadKeeps(p, x);
        AgreesFacts(p.config, x.eng);
        LoadIs(p.config, x.eng.disk);
      case _ =>
    }
  }

  lemma {:induction false} RunExtends(p: Setup, x: Sys, evs: seq<SysEvent>)
    requires SysInv(p, x)
    ensures SysInv(p, SysRun(p, x, evs)) && Extends(x, SysRun(p, x, evs))
  {
    hide SysInv, SysStep;
    EveryRun(p, x, evs);
    if evs != [] {
      RunExtends(p, x, evs[..|evs| - 1]);
      StepExtends(p, SysRun(p, x, evs[..|evs| - 1]), evs[|evs| - 1]);
    }
  }

  // A fill waiting in the stream whose order has been confirmed is dropped when its turn
  // comes, in every continuation, restarts and redeliveries included, and stays dropped.
  lemma {:induction false} ConfirmedFillIsDropped(p: Setup, x: Sys, evs: seq<SysEvent>, k: nat)
    requires SysInv(p, x) && |x.kept| <= k < |x.emitted|
    requires x.emitted[k].orderId in x.eng.orders && x.eng.orders[x.emitted[k].orderId].confirmed
    ensures SysInv(p, SysRun(p, x, evs)) && |x.emitted| <= |SysRun(p, x, evs).emitted|
    ensures |SysRun(p, x, evs).kept| > k ==> !SysRun(p, x, evs).kept[k]
  {
    hide SysInv, SysStep;
    RunExtends(p, x, evs);
    if evs != [] {
      var before, ev := evs[..|evs| - 1], evs[|evs| - 1];
      ConfirmedFillIsDropped(p, x, before, k);
      var y := SysRun(p, x, before);
      RunExtends(p, x, before);
      StepExtends(p, y, ev);
      if |y.kept| <= k < |SysStep(p, y, ev).kept| {
        OnlyDrainDelivers(p, y, ev, k);
      }
    }
  }

  // Only a drain delivers, one fill at a time, and what it delivers is kept exactly when
  // its order is not confirmed.
  lemma OnlyDrainDelivers(p: Setup, y: Sys, ev: SysEvent, k: nat)
    requires SysInv(p, y) && |y.kept| <= k < |SysStep(p, y, ev).kept|
    ensures k == |y.kept| && |y.kept| < |y.emitted| && ev == Drains
    ensures var f := y.emitted[k];
            f.orderId in y.eng.orders && SysStep(p, y, ev).kept == y.kept + [!y.eng.orders[f.orderId].confirmed]
  {
    hide Agrees, Linked, SubmitStep, OnFill, Load, DripSlice, Answered, CancelAck, ConfirmAck, CancelAnswer;
    if ev.Submits? {
      SubmitKeptSame(p, y, ev.req, ev.newId);
    } else if ev == Drains && y.brk.queue != [] {
      DrainExactly(p, y);
    }
  }

  lemma SubmitKeptSame(p: Setup, x: Sys, req: Request, id: OrderId)
    ensures SubmitStep(p, x, req, id).kept == x.kept
  {
    hide SubmitBegin, Answered, SubmitAck;
  }

  // ----- When nothing is dropped -----

  // Nothing of the order is waiting in the stream or still to be sent.
  ghost predicate Quiet(x: Sys, id: OrderId) {
    && (forall f :: f in x.brk.queue ==> f.orderId != id)
    && (forall bid :: bid in x.brk.drips ==> x.brk.drips[bid].order.orderId != id)
  }

  // A confirmation asked for only once the broker's terminal verdict has nothing of the
  // order left to come.
  ghost predicate ConfirmsWhenQuiet(x: Sys, ev: SysEvent) {
    ev.Confirms? && ev.confirmId in x.eng.orders
    && Queried(x.brk, x.eng.orders[ev.confirmId].brokerId).status.IsTerminal() ==>
      Quiet(x, ev.confirmId)
  }

  ghost predicate AllQuiet(x: Sys) {
    && |x.kept| <= |x.emitted| && Dropped(x) == []
    && forall id :: id in x.eng.orders && x.eng.orders[id].confirmed ==> Quiet(x, id)
  }

  lemma QuietDrain(p: Setup, x: Sys)
    requires SysInv(p, x) && AllQuiet(x) && x.brk.queue != []
    ensures AllQuiet(DrainStep(p, x))
  {
    hide Agrees, Linked, OnFill, Filling, Stamped, BrokerBook.AccountRun, IsApplied, Pick;
    DrainExactly(p, x);
    var f := x.brk.queue[0];
    assert f in x.brk.queue;
    assert !x.eng.orders[f.orderId].confirmed;
    QuietTaken(p, x);
    PickOneMore(x.emitted, x.kept, true, false);
    var y := DrainStep(p, x);
    forall id | id in y.eng.orders && y.eng.orders[id].confirmed ensures Quiet(y, id) {
      assert id in x.eng.orders && x.eng.orders[id].confirmed;
      assert Quiet(x, id);
    }
  }

  // Taking the next fill confirms nothing.
  lemma QuietTaken(p: Setup, x: Sys)
    requires SysInv(p, x) && x.brk.queue != [] && x.brk.queue[0].orderId in x.eng.orders
    requires !x.eng.orders[x.brk.queue[0].orderId].confirmed
    ensures var e := OnFill(p.config, x.eng, x.brk.queue[0]).0;
            forall id :: id in e.orders && e.orders[id].confirmed ==> id in x.eng.orders && x.eng.orders[id].confirmed
  {
    hide Agrees, Linked, Streams, OnFill, Filling;
    StreamsFacts(x);
    DrainExactly(p, x);
    Delivered(p, x, |x.kept|);
    HeadHasRoom(p, x);
    HeadIsNew(p, x);
    OnFillApplies(p.config, x.eng, x.brk.queue[0]);
    TakenRow(p.config, x.eng, x.brk.queue[0]);
  }

  // Emissions and new drips are of unconfirmed orders.
  lemma QuietDrip(p: Setup, x: Sys, bid: BrokerId)
    requires SysInv(p, x) && AllQuiet(x) && bid in x.brk.drips && x.brk.drips[bid].base.Some?
    ensures AllQuiet(Emitting(x, DripSlice(p.mock, x.brk, bid)))
  {
    hide Agrees, Linked, Quantize, SliceQty, BrokerBook.AccountStep;
    var b := DripSlice(p.mock, x.brk, bid);
    var y := Emitting(x, b);
    PickPrefix(x.emitted, NewFills(x.brk, b), x.kept, false);
    forall id | id in y.eng.orders && y.eng.orders[id].confirmed ensures Quiet(y, id) {
      assert Quiet(x, id);
    }
  }

  lemma QuietSubmit(p: Setup, x: Sys, req: Request, id: OrderId)
    requires SysInv(p, x) && AllQuiet(x)
    ensures AllQuiet(SubmitStep(p, x, req, id))
  {
    hide Agrees, Streams, Linked, SubmitBegin, AllQuiet;
    if id !in x.eng.orders {
      SubmitAgrees(p.config, x.eng, req, id);
      SubmitShape(x.eng, req, id);
      var (e, outcome) := SubmitBegin(x.eng, req, id);
      if outcome.Dispatched? {
        QuietDispatch(p, x, e, req, id);
      } else {
        QuietSame(x, SubmitStep(p, x, req, id));
      }
    }
  }

  lemma QuietDispatch(p: Setup, x: Sys, e: State, req: Request, id: OrderId)
    requires SysInv(p, x) && AllQuiet(x) && IsDispatched(x.eng, e, req, id)
    ensures var (b, reply) := Answered(p.mock, x.brk, e.orders[id]);
            AllQuiet(Emitting(x, b).(eng := if reply.Acknowledged? then SubmitAck(e, id, reply.ack) else e))
  {
    hide Agrees, Streams, Linked, Answered, SubmitAck, Quiet, Accepted;
    var o := e.orders[id];
    AnswerShape(p.mock, x.brk, o);
    var (b, reply) := Answered(p.mock, x.brk, o);
    var y := Emitting(x, b).(eng := if reply.Acknowledged? then SubmitAck(e, id, reply.ack) else e);
    PickPrefix(x.emitted, NewFills(x.brk, b), x.kept, false);
    if reply.Acknowledged? {
      AckStatus(x.brk, o, b, reply.ack);
      AckEffect(e, id, reply.ack);
      AcceptedIsOwn(x.brk, o, b, reply.ack);
    }
    QuietAnswer(x, y, b, id);
  }

  // Accepting an order sends and prepares nothing of any other.
  lemma AcceptedIsOwn(b: Broker, o: OrderRow, r: Broker, ack: Ack)
    requires Accepted(b, o, r, ack)
    ensures forall f :: f in r.queue ==> f in b.queue || f.orderId == o.orderId
    ensures forall bid :: bid in r.drips ==>
      (bid in b.drips && r.drips[bid] == b.drips[bid]) || r.drips[bid].order.orderId == o.orderId
  {
    hide BrokerBook.AccountStep;
  }

  lemma QuietAnswer(x: Sys, y: Sys, b: Broker, id: OrderId)
    requires AllQuiet(x) && y.brk == b && id !in x.eng.orders && y.kept == x.kept
    requires |y.kept| <= |y.emitted| && Dropped(y) == []
    requires forall i :: i in y.eng.orders && y.eng.orders[i].confirmed ==>
      i in x.eng.orders && x.eng.orders[i].confirmed
    requires forall f :: f in b.queue ==> f in x.brk.queue || f.orderId == id
    requires forall bid :: bid in b.drips ==>
      (bid in x.brk.drips && b.drips[bid] == x.brk.drips[bid]) || b.drips[bid].order.orderId == id
    ensures AllQuiet(y)
  {
    forall i | i in y.eng.orders && y.eng.orders[i].confirmed ensures Quiet(y, i) {
      assert Quiet(x, i);
    }
  }

  lemma QuietStep(p: Setup, x: Sys, ev: SysEvent)
    requires SysInv(p, x) && AllQuiet(x) && ConfirmsWhenQuiet(x, ev)
    ensures AllQuiet(SysStep(p, x, ev))
  {
    hide Agrees, Streams, Linked, SubmitStep, DrainStep, CancelAck, ConfirmAck, OnFill, Load, DripSlice, KnownClients;
    match ev {
      case Submits(req, id) => QuietSubmit(p, x, req, id);
      case Drains =>
        if x.brk.queue != [] {
          QuietDrain(p, x);
        } else {
          NothingToDrain(p, x);
        }
      case Redelivers(i) =>
        if i < |x.kept| {
          RedeliveryKeeps(p, x, i);
          QuietSame(x, SysStep(p, x, ev));
        }
      case DripStarts(bid) =>
        if bid in x.brk.drips && x.brk.drips[bid].base.None? {
          QuietSame(x, SysStep(p, x, ev));
        }
      case DripTurns(bid) =>
        if bid in x.brk.drips && x.brk.drips[bid].base.Some? {
          QuietDrip(p, x, bid);
        }
      case Cancels(id) =>
        if id in x.eng.orders {
          LinkOf(x.eng.orders, x.brk, x.emitted, id);
          CancelEffect(p.config, x.eng, id, CancelAnswer(x.brk, x.eng.orders[id].brokerId).1);
          QuietSame(x, SysStep(p, x, ev));
        }
      case Confirms(id) =>
        if id in x.eng.orders {
          LinkOf(x.eng.orders, x.brk, x.emitted, id);
          ConfirmEffect(p.config, x.eng, id, Queried(x.brk, x.eng.orders[id].brokerId).status);
          QuietConfirm(x, SysStep(p, x, ev), id);
        }
      case EngineRestarts =>
        ReloadKeeps(p, x);
        AgreesFacts(p.config, x.eng);
        LoadIs(p.config, x.eng.disk);
        QuietSame(x, SysStep(p, x, ev));
      case _ => QuietSame(x, SysStep(p, x, ev));
    }
  }

  lemma NothingToDrain(p: Setup, x: Sys)
    requires x.brk.queue == []
    ensures DrainStep(p, x) == x
  {
  }

  lemma QuietSame(x: Sys, y: Sys)
    requires AllQuiet(x) && y.brk.queue == x.brk.queue && y.emitted == x.emitted && y.kept == x.kept
    requires y.brk.drips.Keys == x.brk.drips.Keys
    requires forall bid :: bid in y.brk.drips ==> y.brk.drips[bid].order == x.brk.drips[bid].order
    requires forall i :: i in y.eng.orders && y.eng.orders[i].confirmed ==>
      i in x.eng.orders && x.eng.orders[i].confirmed
    ensures AllQuiet(y)
  {
    forall i | i in y.eng.orders && y.eng.orders[i].confirmed ensures Quiet(y, i) {
      assert Quiet(x, i);
    }
  }

  lemma QuietConfirm(x: Sys, y: Sys, id: OrderId)
    requires AllQuiet(x) && y.brk == x.brk && y.emitted == x.emitted && y.kept == x.kept && id in x.eng.orders
    requires id in y.eng.orders && y.eng.orders == x.eng.orders[id := y.eng.orders[id]]
    requires y.eng.orders[id].confirmed ==> x.eng.orders[id].confirmed || Quiet(x, id)
    ensures AllQuiet(y)
  {
    forall i | i in y.eng.orders && y.eng.orders[i].confirmed ensures Quiet(y, i) {
      assert i != id ==> x.eng.orders[i].confirmed;
      assert Quiet(x, i);
    }
  }

  ghost predicate QuietConfirms(p: Setup, x: Sys, evs: seq<SysEvent>) {
    evs == [] ||
    var before := evs[..|evs| - 1];
    QuietConfirms(p, x, before) && ConfirmsWhenQuiet(SysRun(p, x, before), evs[|evs| - 1])
  }

  // If confirmations are asked for only when nothing of the order is left to come, no run
  // drops a fill; so the broker's quantity less the engine's is what is queued, and the
  // ledger is what was sent and delivered, in order.
  lemma {:induction false} NothingIsDropped(p: Setup, x: Sys, evs: seq<SysEvent>)
    requires SysInv(p, x) && AllQuiet(x) && QuietConfirms(p, x, evs)
    ensures var y := SysRun(p, x, evs);
            && SysInv(p, y) && AllQuiet(y)
            && y.eng.disk.fills == y.emitted[..|y.kept|]
            && forall s: Symbol :: BrokerBook.At(y.brk.account, s).qty - Held(y.eng, s) == Net(y.brk.queue, s)
  {
    hide SysStep, Agrees, Linked;
    EveryRun(p, x, evs);
    if evs != [] {
      NothingIsDropped(p, x, evs[..|evs| - 1]);
      QuietStep(p, SysRun(p, x, evs[..|evs| - 1]), evs[|evs| - 1]);
    }
    var y := SysRun(p, x, evs);
    PickAll(y.emitted, y.kept);
    forall s: Symbol ensures BrokerBook.At(y.brk.account, s).qty - Held(y.eng, s) == Net(y.brk.queue, s) {
      GapIsInFlight(p, y, s);
    }
  }

  // ----- Drained and nothing dropped -----

  ghost predicate Drained(p: Setup, x: Sys) {
    SysInv(p, x) && x.brk.queue == [] && Dropped(x) == []
  }

  lemma DrainedLedger(p: Setup, x: Sys)
    requires Drained(p, x)
    ensures x.eng.disk.fills == x.emitted
  {
    hide Agrees, Linked;
    PickAll(x.emitted, x.kept);
    assert |x.emitted[|x.kept|..]| == 0;
    assert x.emitted[..|x.kept|] == x.emitted;
  }

  // The broker's last ack of an order says what the engine's order record says.
  lemma AcksMatchOrders(p: Setup, x: Sys, id: OrderId)
    requires Drained(p, x) && id in x.eng.orders && x.eng.orders[id].brokerId.Some?
    ensures var o := x.eng.orders[id];
            && o.brokerId.value in x.brk.acks
            && x.brk.acks[o.brokerId.value].filled == o.filled
            && (match x.brk.acks[o.brokerId.value].status
                case Filled => o.filled == o.qty
                case PartiallyFilled => 0.0 < o.filled < o.qty
                case Working => o.filled == 0.0
                case other => other == Cancelled && o.filled < o.qty)
            && (o.filled > 0.0 ==> x.brk.acks[o.brokerId.value].avgPrice == o.avgPrice)
  {
    hide Sum, Worth, Linked;
    DrainedLedger(p, x);
    LinkOf(x.eng.orders, x.brk, x.emitted, id);
    var o := x.eng.orders[id];
    assert OrderAgrees(o, x.emitted);
    if o.filled > 0.0 {
      SameWorthSamePrice(o.avgPrice, x.brk.acks[o.brokerId.value].avgPrice, o.filled);
    }
  }

  lemma SameWorthSamePrice(a: real, b: real, qty: real)
    requires qty > 0.0 && Worth(a, qty) == Worth(b, qty)
    ensures a == b
  {
    assert (a - b) * qty == 0.0;
    SignOfProduct(a - b, qty);
  }
}
