// Slicing in the closed system: between two slices of an order anything may happen, other
// orders' slices, submits, drains, cancels, confirmations, price moves and restarts.

module SlicingRuns {
  import opened Models
  import opened Money
  import opened Sums
  import opened Orders
  import opened OrderTheory
  import opened EngineSpec
  import opened Views
  import opened Recovery
  import opened MockBroker
  import opened Slicing
  import opened ClosedSystem
  import opened EndToEnd

  // ----- What was sent of one order -----

  function FillsOf(fs: seq<Fill>, id: OrderId): seq<Fill> {
    if fs == [] then []
    else
      var f := fs[|fs| - 1];
      FillsOf(fs[..|fs| - 1], id) + if f.orderId == id then [f] else []
  }

  lemma FillsOfOneMore(fs: seq<Fill>, f: Fill, id: OrderId)
    ensures FillsOf(fs + [f], id) == FillsOf(fs, id) + if f.orderId == id then [f] else []
  {
    assert (fs + [f])[..|fs|] == fs;
  }

  lemma {:induction false} SumsOf(fs: seq<Fill>, id: OrderId)
    ensures Sum(FillsOf(fs, id), Qty()) == Sum(fs, QtyFor(id)) && Sum(FillsOf(fs, id), Spent()) == Sum(fs, SpentFor(id))
  {
    hide Worth;
    if fs != [] {
      var before, f := fs[..|fs| - 1], fs[|fs| - 1];
      SumsOf(before, id);
      if f.orderId == id {
        SumOneMore(FillsOf(before, id), f, Qty());
        SumOneMore(FillsOf(before, id), f, Spent());
      } else {
        assert FillsOf(fs, id) == FillsOf(before, id);
      }
    }
  }

  lemma {:induction false} NoneOf(fs: seq<Fill>, id: OrderId)
    requires forall f :: f in fs ==> f.orderId != id
    ensures FillsOf(fs, id) == []
  {
    if fs != [] {
      NoneOf(fs[..|fs| - 1], id);
    }
  }

  // ----- The state of an order's slicing -----

  // The order's fills are its slices in turn, each a cent above the one before.
  ghost predicate Ladder(row: OrderRow, base: real, mine: seq<Fill>) {
    forall j :: 0 <= j < |mine| ==> IsSlice(row, base, mine[j], j)
  }

  // The rounded slice is positive, and so is every price.
  predicate Sendable(c: MockConfig, row: OrderRow, base: real) {
    SliceQty(c, row.qty) > 0.0 && LimitOr(row, base) >= 0.0
  }

  ghost predicate SlicedRow(c: MockConfig, row: OrderRow, bid: BrokerId, drips: map<BrokerId, Drip>,
                            bases: map<BrokerId, real>, fs: seq<Fill>) {
    var mine := FillsOf(fs, row.orderId);
    if bid in drips then
      && var d := drips[bid];
      && d.order.qty == row.qty && d.order.limitPrice == row.limitPrice && d.i == |mine| < c.slices
      && (d.base.None? ==> mine == [])
      && (d.base.Some? ==> bid in bases && bases[bid] == d.base.value && Ladder(row, bases[bid], mine))
      && (mine != [] ==> Sendable(c, row, bases[bid])) && Even(c, row.qty, mine)
    else
      && bid in bases && |mine| <= c.slices && Ladder(row, bases[bid], mine) && EvenButLast(c, row.qty, mine)
      && if Sendable(c, row, bases[bid]) then Sum(mine, Qty()) == row.qty else mine == []
  }

  ghost predicate Sliced(c: MockConfig, orders: map<OrderId, OrderRow>, drips: map<BrokerId, Drip>,
                         bases: map<BrokerId, real>, fs: seq<Fill>) {
    forall id :: id in orders && orders[id].brokerId.Some? ==>
      SlicedRow(c, orders[id], orders[id].brokerId.value, drips, bases, fs)
  }

  ghost predicate SlicedState(p: Setup, x: Sys) {
    Sliced(p.mock, x.eng.orders, x.brk.drips, x.bases, x.emitted)
  }

  // ----- Steps of the engine alone -----

  ghost predicate SameOrders(a: map<OrderId, OrderRow>, b: map<OrderId, OrderRow>) {
    forall id :: id in b && b[id].brokerId.Some? ==>
      id in a && SameIdentity(b[id], a[id]) && b[id].brokerId == a[id].brokerId
  }

  lemma EngineKeepsSliced(c: MockConfig, a: map<OrderId, OrderRow>, b: map<OrderId, OrderRow>,
                          drips: map<BrokerId, Drip>, bases: map<BrokerId, real>, fs: seq<Fill>)
    requires Sliced(c, a, drips, bases, fs) && SameOrders(a, b)
    ensures Sliced(c, b, drips, bases, fs)
  {
    hide SliceQty, Sum;
    forall id | id in b && b[id].brokerId.Some? ensures SlicedRow(c, b[id], b[id].brokerId.value, drips, bases, fs) {
      assert SlicedRow(c, a[id], a[id].brokerId.value, drips, bases, fs);
    }
  }

  lemma RowKeepsOrders(orders: map<OrderId, OrderRow>, id: OrderId, row: OrderRow)
    requires id in orders && SameIdentity(row, orders[id]) && row.brokerId == orders[id].brokerId
    ensures SameOrders(orders, orders[id := row])
  {
  }

  lemma DrainKeepsOrders(p: Setup, x: Sys)
    requires SysInv(p, x)
    ensures SameOrders(x.eng.orders, DrainStep(p, x).eng.orders)
  {
    hide Agrees, Linked, Streams, OnFill, Filling;
    if x.brk.queue != [] {
      var f := x.brk.queue[0];
      StreamsFacts(x);
      DrainExactly(p, x);
      if !x.eng.orders[f.orderId].confirmed {
        Delivered(p, x, |x.kept|);
        HeadHasRoom(p, x);
        HeadIsNew(p, x);
        OnFillApplies(p.config, x.eng, f);
        TakenRow(p.config, x.eng, f);
        RowKeepsOrders(x.eng.orders, f.orderId, Filling(x.eng.orders[f.orderId], f).row);
      }
    }
  }

  lemma ConfirmingKeepsOrder(o: OrderRow, status: OrderStatus)
    ensures SameIdentity(Confirming(o, status), o) && Confirming(o, status).brokerId == o.brokerId
  {
  }

  lemma CancelKeepsOrders(p: Setup, x: Sys, id: OrderId)
    requires SysInv(p, x)
    ensures var y := CancelStep(x, id);
            SameOrders(x.eng.orders, y.eng.orders) && y.brk.drips == x.brk.drips && y.bases == x.bases
              && y.emitted == x.emitted
  {
    hide Agrees, Streams, Linked, CancelAck, OrderLinked;
    if id in x.eng.orders {
      LinkOf(x.eng.orders, x.brk, x.emitted, id);
      CancelEffect(p.config, x.eng, id, CancelAnswer(x.brk, x.eng.orders[id].brokerId).1);
    }
  }

  lemma ConfirmKeepsOrders(p: Setup, x: Sys, id: OrderId)
    requires SysInv(p, x)
    ensures var y := ConfirmStep(x, id);
            SameOrders(x.eng.orders, y.eng.orders) && y.brk == x.brk && y.bases == x.bases && y.emitted == x.emitted
  {
    hide Agrees, Streams, Linked, ConfirmAck, Confirming, OrderLinked;
    if id in x.eng.orders {
      var status := Queried(x.brk, x.eng.orders[id].brokerId).status;
      LinkOf(x.eng.orders, x.brk, x.emitted, id);
      ConfirmEffect(p.config, x.eng, id, status);
      ConfirmingKeepsOrder(x.eng.orders[id], status);
      RowKeepsOrders(x.eng.orders, id, Confirming(x.eng.orders[id], status));
    }
  }

  // What the events that leave broker drips and stream alone do to the orders.
  lemma QuietOrders(p: Setup, x: Sys, ev: SysEvent)
    requires SysInv(p, x) && !ev.Submits? && !ev.DripStarts? && !ev.DripTurns?
    ensures var y := SysStep(p, x, ev);
            SameOrders(x.eng.orders, y.eng.orders) && y.brk.drips == x.brk.drips && y.bases == x.bases
              && y.emitted == x.emitted
  {
    hide Agrees, Streams, Linked, OnFill, CancelStep, ConfirmStep, Load;
    match ev {
      case Drains => DrainKeepsOrders(p, x);
      case Redelivers(i) =>
        if i < |x.kept| {
          RedeliveryKeeps(p, x, i);
        }
      case Cancels(id) => CancelKeepsOrders(p, x, id);
      case Confirms(id) => ConfirmKeepsOrders(p, x, id);
      case EngineRestarts =>
        ReloadKeeps(p, x);
        AgreesFacts(p.config, x.eng);
        LoadIs(p.config, x.eng.disk);
      case _ =>
    }
  }

  // ----- A drip starts -----

  lemma StartKeepsSliced(c: MockConfig, orders: map<OrderId, OrderRow>, b: Broker, bases: map<BrokerId, real>,
                         fs: seq<Fill>, bid: BrokerId)
    requires Linked(orders, b, fs) && Sliced(c, orders, b.drips, bases, fs) && bid in b.drips && b.drips[bid].base.None?
    ensures var r := DripStarted(b, bid); Sliced(c, orders, r.drips, bases[bid := r.drips[bid].base.value], fs)
  {
    hide SliceQty, Sum, OrderLinked, PriceFor, LimitOr;
    var r := DripStarted(b, bid);
    forall id | id in orders && orders[id].brokerId.Some?
      ensures SlicedRow(c, orders[id], orders[id].brokerId.value, r.drips, bases[bid := r.drips[bid].base.value], fs)
    {
      assert SlicedRow(c, orders[id], orders[id].brokerId.value, b.drips, bases, fs);
    }
  }

  // ----- A drip turns -----

  // The turn of an order's own drip: it sends the next slice, the last one included, or ends
  // because nothing of the order can ever be sent.
  lemma OwnTurn(c: MockConfig, row: OrderRow, b: Broker, bases: map<BrokerId, real>, fs: seq<Fill>, bid: BrokerId)
    requires c.slices >= 2 && bid in b.drips && b.drips[bid].base.Some?
    requires row.brokerId == Some(bid) && DripTells(b.drips[bid], row, fs) && SlicedRow(c, row, bid, b.drips, bases, fs)
    ensures var r := DripSlice(c, b, bid);
            |b.queue| <= |r.queue| && SlicedRow(c, row, bid, r.drips, bases, fs + NewFills(b, r))
  {
    hide SliceQty, Sum, Worth, Quantize, DripSlice;
    var d := b.drips[bid];
    var r := DripSlice(c, b, bid);
    SliceIsPositive(c, row.qty, d, NextQty(c, d));
    if NextQty(c, d) > 0.0 && NextPrice(d) >= 0.0 {
      OwnSend(c, row, b, bases, fs, bid);
    } else {
      SliceEnds(c, b, bid);
      assert fs + NewFills(b, r) == fs;
      CentsNotNegative(d.i);
    }
  }

  lemma CentsNotNegative(i: nat)
    ensures i as real * CENTS >= 0.0
  {
  }

  // A turn that cannot send ends the drip and sends nothing.
  lemma SliceEnds(c: MockConfig, b: Broker, bid: BrokerId)
    requires bid in b.drips && b.drips[bid].base.Some?
    requires NextQty(c, b.drips[bid]) <= 0.0 || NextPrice(b.drips[bid]) < 0.0
    ensures var r := DripSlice(c, b, bid);
            r.drips == b.drips - {bid} && r.queue == b.queue && NewFills(b, r) == []
  {
    hide NextQty, NextPrice, BrokerBook.AccountStep;
  }

  lemma OwnSend(c: MockConfig, row: OrderRow, b: Broker, bases: map<BrokerId, real>, fs: seq<Fill>, bid: BrokerId)
    requires c.slices >= 2 && bid in b.drips && b.drips[bid].base.Some?
    requires row.brokerId == Some(bid) && DripTells(b.drips[bid], row, fs) && SlicedRow(c, row, bid, b.drips, bases, fs)
    requires NextQty(c, b.drips[bid]) > 0.0 && NextPrice(b.drips[bid]) >= 0.0
    ensures var r := DripSlice(c, b, bid);
            |b.queue| <= |r.queue| && SlicedRow(c, row, bid, r.drips, bases, fs + NewFills(b, r))
  {
    hide SliceQty, Sum, Worth, Quantize, DripSlice;
    var d := b.drips[bid];
    var mine, f := FillsOf(fs, row.orderId), Executed(c, d.order, NextQty(c, d), NextPrice(d), b.counter + 1);
    var r := DripSlice(c, b, bid);
    SliceSent(c, b, bid);
    assert NewFills(b, r) == [f];
    FillsOfOneMore(fs, f, row.orderId);
    SumsOf(fs, row.orderId);
    SumOneMore(mine, f, Qty());
    SliceIsPositive(c, row.qty, d, NextQty(c, d));
    CentsNotNegative(d.i);
    LadderOneMore(row, bases[bid], mine, f);
  }

  lemma LadderOneMore(row: OrderRow, base: real, mine: seq<Fill>, f: Fill)
    requires Ladder(row, base, mine) && IsSlice(row, base, f, |mine|)
    ensures Ladder(row, base, mine + [f])
  {
    hide IsSlice;
  }

  // Another order's row does not notice.
  lemma OtherTurn(c: MockConfig, row: OrderRow, b: Broker, bases: map<BrokerId, real>, fs: seq<Fill>, bid: BrokerId)
    requires bid in b.drips && b.drips[bid].base.Some? && row.brokerId.Some? && row.brokerId != Some(bid)
    requires b.drips[bid].order.orderId != row.orderId && SlicedRow(c, row, row.brokerId.value, b.drips, bases, fs)
    ensures var r := DripSlice(c, b, bid);
            |b.queue| <= |r.queue| && SlicedRow(c, row, row.brokerId.value, r.drips, bases, fs + NewFills(b, r))
  {
    hide SliceQty, Sum, Worth, Quantize, NextQty, NextPrice, BrokerBook.AccountStep;
    var d, r := b.drips[bid], DripSlice(c, b, bid);
    if d.i >= c.slices || NextQty(c, d) <= 0.0 || NextPrice(d) < 0.0 {
      assert fs + NewFills(b, r) == fs;
    } else {
      var f := Executed(c, d.order, NextQty(c, d), NextPrice(d), b.counter + 1);
      assert NewFills(b, r) == [f];
      FillsOfOneMore(fs, f, row.orderId);
      assert FillsOf(fs + [f], row.orderId) == FillsOf(fs, row.orderId);
    }
  }

  lemma TurnKeepsSliced(c: MockConfig, orders: map<OrderId, OrderRow>, b: Broker, bases: map<BrokerId, real>,
                        fs: seq<Fill>, bid: BrokerId)
    requires c.slices >= 2 && Linked(orders, b, fs) && Sliced(c, orders, b.drips, bases, fs) && bid in b.drips
    requires b.drips[bid].base.Some?
    ensures var r := DripSlice(c, b, bid); Sliced(c, orders, r.drips, bases, fs + NewFills(b, r))
  {
    hide SlicedRow, DripSlice, DripTells, AckTells, NewFills;
    var r := DripSlice(c, b, bid);
    var own := b.drips[bid].order.orderId;
    forall id | id in orders && orders[id].brokerId.Some?
      ensures SlicedRow(c, orders[id], orders[id].brokerId.value, r.drips, bases, fs + NewFills(b, r))
    {
      assert orders[id].orderId == id && OrderLinked(orders[id], b.acks, b.drips, fs);
      if id == own {
        OwnTurn(c, orders[id], b, bases, fs, bid);
      } else {
        OtherTurn(c, orders[id], b, bases, fs, bid);
      }
    }
  }

  // ----- A submit -----

  // With two slices or more an accepted order gets a drip and nothing is sent yet.
  lemma AnswerSliced(c: MockConfig, b: Broker, o: OrderRow)
    requires c.slices >= 2 && o.clientId.Some? && o.clientId.value !in b.byClient
    ensures var (r, reply) := Answered(c, b, o);
            && r.queue == b.queue
            && if reply.Acknowledged?
               then reply.ack == Ack(b.counter + 1, Working, 0.0, 0.0)
                 && r.drips == b.drips[b.counter + 1 := Drip(o, None, o.qty, 0.0, 0.0, 0)]
               else r.drips == b.drips
  {
  }

  lemma SubmitKeepsSliced(p: Setup, x: Sys, req: Request, id: OrderId)
    requires p.mock.slices >= 2 && SysInv(p, x) && SlicedState(p, x)
    ensures SlicedState(p, SubmitStep(p, x, req, id))
  {
    hide Agrees, Streams, Linked, SubmitBegin, SubmitAck, Answered, Sliced;
    if id !in x.eng.orders {
      SubmitShape(x.eng, req, id);
      SubmitAgrees(p.config, x.eng, req, id);
      var (e, outcome) := SubmitBegin(x.eng, req, id);
      if !outcome.Dispatched? {
        SameIsSame(x.eng.orders);
        EngineKeepsSliced(p.mock, x.eng.orders, e.orders, x.brk.drips, x.bases, x.emitted);
      } else {
        var o := e.orders[id];
        AnswerSliced(p.mock, x.brk, o);
        var (b, reply) := Answered(p.mock, x.brk, o);
        assert x.emitted + NewFills(x.brk, b) == x.emitted;
        if reply.Acknowledged? {
          AckEffect(e, id, reply.ack);
          assert e.orders[id := NamedRow(o, reply.ack.brokerId)] == x.eng.orders[id := NamedRow(o, reply.ack.brokerId)];
          AcceptedKeepsSliced(p.mock, x.eng.orders, x.brk, x.bases, x.emitted, o);
        } else {
          UnnamedKeepsOrders(x.eng.orders, id, o);
          EngineKeepsSliced(p.mock, x.eng.orders, e.orders, x.brk.drips, x.bases, x.emitted);
        }
      }
    }
  }

  lemma SameIsSame(orders: map<OrderId, OrderRow>)
    ensures SameOrders(orders, orders)
  {
  }

  lemma UnnamedKeepsOrders(orders: map<OrderId, OrderRow>, id: OrderId, o: OrderRow)
    requires id !in orders && o.brokerId.None?
    ensures SameOrders(orders, orders[id := o])
  {
  }

  lemma AcceptedKeepsSliced(c: MockConfig, orders: map<OrderId, OrderRow>, b: Broker, bases: map<BrokerId, real>,
                            fs: seq<Fill>, o: OrderRow)
    requires c.slices >= 2 && Linked(orders, b, fs) && Sliced(c, orders, b.drips, bases, fs) && o.orderId !in orders
    ensures var bid := b.counter + 1;
            Sliced(c, orders[o.orderId := NamedRow(o, bid)], b.drips[bid := Drip(o, None, o.qty, 0.0, 0.0, 0)], bases,
                   fs)
  {
    hide SliceQty, Sum, AckTells, DripTells;
    var bid := b.counter + 1;
    var after, drips := orders[o.orderId := NamedRow(o, bid)], b.drips[bid := Drip(o, None, o.qty, 0.0, 0.0, 0)];
    forall f | f in fs ensures f.orderId != o.orderId {
      assert Matches(orders, f);
    }
    NoneOf(fs, o.orderId);
    forall id | id in after && after[id].brokerId.Some?
      ensures SlicedRow(c, after[id], after[id].brokerId.value, drips, bases, fs)
    {
      if id != o.orderId {
        assert OrderLinked(orders[id], b.acks, b.drips, fs);
        assert SlicedRow(c, orders[id], orders[id].brokerId.value, b.drips, bases, fs);
      }
    }
  }

  // ----- Every run -----

  lemma StepKeepsSliced(p: Setup, x: Sys, ev: SysEvent)
    requires p.mock.slices >= 2 && SysInv(p, x) && SlicedState(p, x)
    ensures SlicedState(p, SysStep(p, x, ev))
  {
    hide Agrees, Streams, Linked, Sliced, SubmitStep, DripSlice, DripStarted;
    match ev {
      case Submits(req, id) => SubmitKeepsSliced(p, x, req, id);
      case DripStarts(bid) =>
        if bid in x.brk.drips && x.brk.drips[bid].base.None? {
          StartKeepsSliced(p.mock, x.eng.orders, x.brk, x.bases, x.emitted, bid);
        }
      case DripTurns(bid) =>
        if bid in x.brk.drips && x.brk.drips[bid].base.Some? {
          TurnKeepsSliced(p.mock, x.eng.orders, x.brk, x.bases, x.emitted, bid);
        }
      case _ =>
        QuietOrders(p, x, ev);
        EngineKeepsSliced(p.mock, x.eng.orders, SysStep(p, x, ev).eng.orders, x.brk.drips, x.bases, x.emitted);
    }
  }

  lemma {:induction false} RunKeepsSliced(p: Setup, x: Sys, evs: seq<SysEvent>)
    requires p.mock.slices >= 2 && SysInv(p, x) && SlicedState(p, x)
    ensures SysInv(p, SysRun(p, x, evs)) && SlicedState(p, SysRun(p, x, evs))
  {
    hide SysInv, SlicedState, SysStep;
    EveryRun(p, x, evs);
    if evs != [] {
      RunKeepsSliced(p, x, evs[..|evs| - 1]);
      EveryRun(p, x, evs[..|evs| - 1]);
      StepKeepsSliced(p, SysRun(p, x, evs[..|evs| - 1]), evs[|evs| - 1]);
    }
  }

  // Over every run, whatever comes between its slices: an acknowledged order whose drip has
  // ended was sent in at most `slices` fills, a cent apart from the price its drip started
  // with, all but the last of the quantity's share rounded to the nearest ten-thousandth, that
  // add up to exactly its quantity, if and only if the quantity is more than half a
  // ten-thousandth per slice and that price is not negative; otherwise nothing was sent. The
  // broker's ack has the amount sent, at its average, and says FILLED when that is all.
  lemma EndedDripSentAll(p: Setup, transients: nat, prices: map<Symbol, real>, evs: seq<SysEvent>, id: OrderId)
    requires p.mock.slices >= 2
    requires var x := SysRun(p, Begin(transients, prices), evs);
             id in x.eng.orders && x.eng.orders[id].brokerId.Some? && x.eng.orders[id].brokerId.value !in x.brk.drips
    ensures var x := SysRun(p, Begin(transients, prices), evs);
            var o, bid := x.eng.orders[id], x.eng.orders[id].brokerId.value;
            var mine := FillsOf(x.emitted, id);
            && bid in x.bases && bid in x.brk.acks && |mine| <= p.mock.slices && Ladder(o, x.bases[bid], mine)
            && EvenButLast(p.mock, o.qty, mine)
            && IsNearest(o.qty / p.mock.slices as real, 0.0001, SliceQty(p.mock, o.qty))
            && (Sum(mine, Qty()) == o.qty <==>
                  o.qty > p.mock.slices as real * (TENTHS_OF_MILLS / 2.0) && LimitOr(o, x.bases[bid]) >= 0.0)
            && (Sum(mine, Qty()) != o.qty ==> mine == [])
            && (x.brk.acks[bid].status.Filled? <==> Sum(mine, Qty()) == o.qty)
            && x.brk.acks[bid].filled == Sum(mine, Qty())
            && Worth(x.brk.acks[bid].avgPrice, x.brk.acks[bid].filled) == Sum(mine, Spent())
  {
    hide SysRun, SliceQty, Sum, Worth, LimitOr, Agrees, Streams, Ladder;
    BeginsWell(p, transients, prices);
    BeginsSliced(p, transients, prices);
    RunKeepsSliced(p, Begin(transients, prices), evs);
    var x := SysRun(p, Begin(transients, prices), evs);
    LinkOf(x.eng.orders, x.brk, x.emitted, id);
    var o := x.eng.orders[id];
    assert SlicedRow(p.mock, o, o.brokerId.value, x.brk.drips, x.bases, x.emitted);
    SumsOf(x.emitted, id);
    SliceExactly(p.mock, o.qty);
    ShareIsNearest(p.mock, o.qty);
    NothingSent();
  }

  lemma BeginsSliced(p: Setup, transients: nat, prices: map<Symbol, real>)
    ensures SlicedState(p, Begin(transients, prices))
  {
  }

  // Once the stream is drained and if nothing of it was dropped, the engine's record of such
  // an order is full, at the average price of its slices.
  lemma DrainedSlicesFill(p: Setup, transients: nat, prices: map<Symbol, real>, evs: seq<SysEvent>, id: OrderId)
    requires p.mock.slices >= 2
    requires var x := SysRun(p, Begin(transients, prices), evs);
             && id in x.eng.orders && x.eng.orders[id].brokerId.Some? && x.eng.orders[id].brokerId.value !in x.brk.drips
             && Drained(p, x)
    ensures var x := SysRun(p, Begin(transients, prices), evs);
            var o, mine := x.eng.orders[id], FillsOf(x.emitted, id);
            && o.brokerId.value in x.bases
            && (o.filled == o.qty <==>
                  o.qty > p.mock.slices as real * (TENTHS_OF_MILLS / 2.0)
                    && LimitOr(o, x.bases[o.brokerId.value]) >= 0.0)
            && (o.filled != o.qty ==> o.filled == 0.0)
            && Worth(o.avgPrice, o.filled) == Sum(mine, Spent())
  {
    hide SysRun, Sum, Worth, LimitOr, Linked, Streams, Ladder;
    EndedDripSentAll(p, transients, prices, evs, id);
    var x := SysRun(p, Begin(transients, prices), evs);
    DrainedRow(p, x, id);
    SumsOf(x.emitted, id);
    NothingSent();
  }

  lemma DrainedRow(p: Setup, x: Sys, id: OrderId)
    requires Drained(p, x) && id in x.eng.orders
    ensures var o := x.eng.orders[id];
            o.filled == Sum(x.emitted, QtyFor(id)) && Worth(o.avgPrice, o.filled) == Sum(x.emitted, SpentFor(id))
  {
    hide Sum, Worth, Linked, Streams, Distinct;
    DrainedLedger(p, x);
    assert OrderAgrees(x.eng.orders[id], x.emitted);
  }
}
