// The oversell guard over whole runs: what it keeps, exactly when it fails, and the guard
// that would not fail.

module Oversell {
  import opened Models
  import opened Money
  import opened Sums
  import opened Ledger
  import opened Orders
  import opened Positions
  import opened Settings
  import opened Pnl
  import opened Store
  import opened Idempotency
  import opened EngineSpec
  import opened Views
  import opened Recovery
  import opened EngineRuns

  // ----- Reserves under one-row changes -----

  lemma ReserveAfterWrite(orders: map<OrderId, OrderRow>, row: OrderRow, s: Symbol, provisional: bool)
    requires row.orderId in orders
    ensures Reserve(orders[row.orderId := row], s, provisional)
         == Reserve(orders, s, provisional) - RowReserve(orders[row.orderId], s, provisional)
              + RowReserve(row, s, provisional)
  {
    hide RowReserve;
    var after := orders[row.orderId := row];
    assert after.Keys == orders.Keys;
    OverChanged(orders.Keys, ReserveOf(orders, s, provisional), ReserveOf(after, s, provisional), row.orderId);
  }

  lemma ReserveAfterAdd(orders: map<OrderId, OrderRow>, row: OrderRow, s: Symbol, provisional: bool)
    requires row.orderId !in orders
    ensures Reserve(orders[row.orderId := row], s, provisional)
         == Reserve(orders, s, provisional) + RowReserve(row, s, provisional)
  {
    hide RowReserve;
    var after := orders[row.orderId := row];
    assert after.Keys == orders.Keys + {row.orderId};
    OverAdded(orders.Keys, ReserveOf(after, s, provisional), row.orderId);
    OverSame(orders.Keys, ReserveOf(orders, s, provisional), ReserveOf(after, s, provisional));
  }

  // ----- What is kept -----

  // Amounts stay within the order, and a provisional FILLED order is full.
  ghost predicate Sized(orders: map<OrderId, OrderRow>) {
    forall id :: id in orders ==>
      && orders[id].orderId == id && orders[id].filled <= orders[id].qty
      && (orders[id].status.Filled? && !orders[id].confirmed ==> orders[id].filled == orders[id].qty)
  }

  // The position covers what its sell orders may still take.
  ghost predicate Covered(e: State, provisional: bool) {
    forall s: Symbol :: Held(e, s) >= Reserve(e.orders, s, provisional)
  }

  lemma ReserveNonNegative(orders: map<OrderId, OrderRow>, s: Symbol, provisional: bool)
    requires Sized(orders)
    ensures Reserve(orders, s, provisional) >= 0.0
  {
    OverNonNegative(orders.Keys, ReserveOf(orders, s, provisional));
  }

  // A restart would give the same orders and quantities back.
  ghost predicate SameOnReload(e: State) {
    e.disk.orders == e.orders && forall s: Symbol :: Held(e, s) == Net(e.disk.fills, s)
  }

  // No crash inside on_fill, no other restart that finds memory and disk apart, and fills are
  // of their order's symbol and side.
  ghost predicate Calm(e: State, ev: Event) {
    && !ev.FillCrash? && (ev.Restarts? || ev.SubmitCrash? ==> SameOnReload(e))
    && (ev.FillArrives? && ev.fill.orderId in e.orders ==> Matches(e.orders, ev.fill))
  }

  // A provisionally terminal sell order that the step makes live again: by a late fill or
  // by the broker's word that it is still open.
  predicate Revives(e: State, ev: Event) {
    match ev
    case FillArrives(f) =>
      && f.orderId in e.orders && !Seen(e, f)
      && var o := e.orders[f.orderId];
         o.side.Sell? && o.status.Cancelled? && !o.confirmed && o.filled + f.qty <= o.qty
    case ConfirmReply(id, verdict) =>
      && id in e.orders && verdict.IsOpen()
      && e.orders[id].side.Sell? && NeedsConfirmation(e.orders[id])
    case _ => false
  }

  function Revived(e: State, ev: Event): OrderRow
    requires Revives(e, ev)
  {
    if ev.FillArrives? then e.orders[ev.fill.orderId] else e.orders[ev.confirmId]
  }

  // The caller-checkable condition: what a revived order may still take is available.
  ghost predicate RevivesWithinAvailable(e: State, ev: Event) {
    Revives(e, ev) ==> Revived(e, ev).Remaining() <= Available(e, Revived(e, ev).symbol)
  }

  // ----- One row replaced, position unchanged -----

  lemma WriteCovers(e: State, row: OrderRow, r: State, provisional: bool)
    requires Sized(e.orders) && row.orderId in e.orders && r.orders == e.orders[row.orderId := row] && r.book == e.book
    requires row.filled <= row.qty && (row.status.Filled? && !row.confirmed ==> row.filled == row.qty)
    ensures Sized(r.orders)
    ensures (forall s: Symbol :: RowReserve(row, s, provisional) <= RowReserve(e.orders[row.orderId], s, provisional))
            && Covered(e, provisional)
            ==> Covered(r, provisional)
  {
    hide RowReserve;
    forall s: Symbol
      ensures Reserve(r.orders, s, provisional)
           == Reserve(e.orders, s, provisional) - RowReserve(e.orders[row.orderId], s, provisional)
                + RowReserve(row, s, provisional)
    {
      ReserveAfterWrite(e.orders, row, s, provisional);
    }
  }

  lemma HeldAfterFill(book: Book, f: Fill, s: Symbol)
    ensures Lookup(BookStep(book, f), s).basis.qty
         == Lookup(book, s).basis.qty + if f.symbol == s then f.SignedQty() else 0.0
  {
    hide Worth, Mean;
  }

  // ----- The steps -----

  lemma SubmitCovers(e: State, req: Request, id: OrderId, provisional: bool)
    requires Sized(e.orders) && id !in e.orders && Covered(e, provisional)
    requires provisional && req.side.Sell? && SubmitBegin(e, req, id).1.Dispatched? ==>
      req.qty <= Held(e, req.symbol) - Reserve(e.orders, req.symbol, true)
    ensures Sized(SubmitBegin(e, req, id).0.orders)
    ensures SubmitBegin(e, req, id).1 != Unstored ==> Covered(SubmitBegin(e, req, id).0, provisional)
  {
    hide Reserve, OrderFits, WrittenRow;
    var r := SubmitBegin(e, req, id);
    TouchedHeld(e, req.symbol);
    if r.1.Dispatched? {
      var row := RequestedRow(req, id);
      forall s: Symbol ensures Held(r.0, s) >= Reserve(r.0.orders, s, provisional) {
        ReserveAfterAdd(e.orders, row, s, provisional);
      }
    }
  }

  lemma TouchedHeld(e: State, t: Symbol)
    ensures forall s: Symbol :: Lookup(Touched(e.book, t), s) == Lookup(e.book, s)
  {
  }

  // An ack never makes an order reserve more.
  lemma AckReserves(o: OrderRow, ack: Ack, provisional: bool)
    requires o.filled <= o.qty && (o.status.Filled? && !o.confirmed ==> o.filled == o.qty)
    ensures var row := Acked(o, ack).row;
            && row.orderId == o.orderId && row.filled <= row.qty
            && (row.status.Filled? && !row.confirmed ==> row.filled == row.qty)
            && forall s: Symbol :: RowReserve(row, s, provisional) <= RowReserve(o, s, provisional)
  {
    hide Cancelling;
    var row := if o.status.New? then o.(status := Submitted, brokerId := Some(ack.brokerId))
               else if o.brokerId.None? then o.(brokerId := Some(ack.brokerId)) else o;
    assert Acked(o, ack).row == Cancelled(row, ack);
    CancelReserves(row, ack, provisional);
  }

  lemma AckIsAWrite(e: State, id: OrderId, ack: Ack)
    requires id in e.orders && e.orders[id].orderId == id
    ensures var r := SubmitAck(e, id, ack);
            r.orders == e.orders[id := Acked(e.orders[id], ack).row] && r.book == e.book
  {
    hide OrderFits, WrittenRow, WithOrder, Acked, Sent;
    AckedIsSameOrder(e.orders[id], ack);
  }

  lemma AckedIsSameOrder(o: OrderRow, ack: Ack)
    ensures Acked(o, ack).row.orderId == o.orderId
  {
  }

  lemma AckCovers(e: State, id: OrderId, ack: Ack, provisional: bool)
    requires Sized(e.orders) && id in e.orders
    ensures Sized(SubmitAck(e, id, ack).orders)
    ensures Covered(e, provisional) ==> Covered(SubmitAck(e, id, ack), provisional)
  {
    hide Reserve, RowReserve, SubmitAck, Acked, Covered;
    AckReserves(e.orders[id], ack, provisional);
    AckIsAWrite(e, id, ack);
    WriteCovers(e, Acked(e.orders[id], ack).row, SubmitAck(e, id, ack), provisional);
  }

  lemma CancelCovers(e: State, id: OrderId, ack: Ack, provisional: bool)
    requires Sized(e.orders) && id in e.orders
    ensures Sized(CancelAck(e, id, ack).orders)
    ensures Covered(e, provisional) ==> Covered(CancelAck(e, id, ack), provisional)
  {
    hide Reserve, RowReserve, CancelAck, Cancelled;
    CancelIsAWrite(e, id, ack);
    CancelReserves(e.orders[id], ack, provisional);
    WriteCovers(e, Cancelled(e.orders[id], ack), CancelAck(e, id, ack), provisional);
  }

  // The row a cancel's answer leaves.
  function Cancelled(o: OrderRow, ack: Ack): OrderRow {
    if ack.status.Cancelled? then Cancelling(o, None, false).row else o
  }

  lemma CancelIsAWrite(e: State, id: OrderId, ack: Ack)
    requires id in e.orders && e.orders[id].orderId == id
    ensures var r := CancelAck(e, id, ack);
            && r.orders == e.orders[id := Cancelled(e.orders[id], ack)]
            && r.book == e.book && r.seen == e.seen && r.registry == e.registry
  {
    hide OrderFits, WithOrder, Cancelling;
    CancelledIsSameOrder(e.orders[id]);
  }

  lemma CancelledIsSameOrder(o: OrderRow)
    ensures Cancelling(o, None, false).row.orderId == o.orderId
  {
  }

  lemma CancelReserves(o: OrderRow, ack: Ack, provisional: bool)
    requires o.filled <= o.qty && (o.status.Filled? && !o.confirmed ==> o.filled == o.qty)
    ensures var row := Cancelled(o, ack);
            && row.orderId == o.orderId && row.filled <= row.qty
            && (row.status.Filled? && !row.confirmed ==> row.filled == row.qty)
            && forall s: Symbol :: RowReserve(row, s, provisional) <= RowReserve(o, s, provisional)
  {
  }

  lemma ConfirmCovers(e: State, id: OrderId, verdict: OrderStatus, provisional: bool)
    requires Sized(e.orders) && id in e.orders && Covered(e, provisional)
    ensures Sized(ConfirmAck(e, id, verdict).orders)
    ensures provisional || !Revives(e, ConfirmReply(id, verdict)) ==> Covered(ConfirmAck(e, id, verdict), provisional)
    ensures !provisional && Revives(e, ConfirmReply(id, verdict)) ==>
      (Covered(ConfirmAck(e, id, verdict), false) <==> e.orders[id].Remaining() <= Available(e, e.orders[id].symbol))
  {
    hide Reserve, OrderFits, WrittenRow, RowReserve;
    var o := e.orders[id];
    var row := Confirming(o, verdict);
    var r := ConfirmAck(e, id, verdict);
    WriteCovers(e, row, r, provisional);
    ConfirmReserves(o, verdict, provisional);
    if !provisional && Revives(e, ConfirmReply(id, verdict)) {
      ReviveExactly(e, row, r);
    }
  }

  lemma ConfirmReserves(o: OrderRow, verdict: OrderStatus, provisional: bool)
    requires o.filled <= o.qty && (o.status.Filled? && !o.confirmed ==> o.filled == o.qty)
    ensures provisional || !(verdict.IsOpen() && o.side.Sell? && NeedsConfirmation(o)) ==>
      forall s: Symbol :: RowReserve(Confirming(o, verdict), s, provisional) <= RowReserve(o, s, provisional)
    ensures verdict.IsOpen() && o.side.Sell? && NeedsConfirmation(o) ==>
      forall s: Symbol :: && RowReserve(o, s, false) == 0.0
                          && RowReserve(Confirming(o, verdict), s, false)
                               == if s == o.symbol then o.Remaining() else 0.0
  {
  }

  // A row that starts reserving its whole remainder, the position unchanged.
  lemma ReviveExactly(e: State, row: OrderRow, r: State)
    requires row.orderId in e.orders && r.orders == e.orders[row.orderId := row] && r.book == e.book
    requires Covered(e, false)
    requires forall s: Symbol ::
      RowReserve(e.orders[row.orderId], s, false) == 0.0
      && RowReserve(row, s, false) == if s == row.symbol then row.Remaining() else 0.0
    ensures Covered(r, false) <==> row.Remaining() <= Available(e, row.symbol)
  {
    hide Reserve, RowReserve;
    forall s: Symbol
      ensures Reserve(r.orders, s, false)
           == Reserve(e.orders, s, false) + if s == row.symbol then row.Remaining() else 0.0
    {
      ReserveAfterWrite(e.orders, row, s, false);
    }
    assert Held(r, row.symbol) == Held(e, row.symbol);
  }

  // How a fill that reaches its order changes what the order reserves.
  lemma FillReserves(o: OrderRow, f: Fill, provisional: bool)
    requires o.orderId == f.orderId && o.symbol == f.symbol && o.side == f.side
    requires o.filled <= o.qty && (o.status.Filled? && !o.confirmed ==> o.filled == o.qty)
    ensures var r := Filling(o, f).row;
            && r.filled <= r.qty && (r.status.Filled? && !r.confirmed ==> r.filled == r.qty)
            && r.orderId == o.orderId
    ensures Filling(o, f).error.None? && (provisional || o.status.IsOpen() || o.side.Buy?) ==>
      forall s: Symbol :: RowReserve(Filling(o, f).row, s, provisional)
        == RowReserve(o, s, provisional) - if o.side.Sell? && s == o.symbol then f.qty else 0.0
    ensures Filling(o, f).error.Some? ==>
      forall s: Symbol :: RowReserve(Filling(o, f).row, s, provisional) <= RowReserve(o, s, provisional)
    ensures Filling(o, f).error.None? && o.side.Sell? && !o.status.IsOpen() ==>
      && o.status.Cancelled? && !o.confirmed && o.filled + f.qty <= o.qty
      && forall s: Symbol :: && RowReserve(o, s, false) == 0.0
                             && RowReserve(Filling(o, f).row, s, false)
                                  == if s == o.symbol then o.Remaining() - f.qty else 0.0
  {
    hide Mean;
  }

  // A fill's whole effect on the book and on the order rows.
  ghost predicate FillEffect(e: State, f: Fill, r: State) {
    || (r.orders == e.orders && r.book == e.book)
    || (f.orderId in e.orders && !Seen(e, f)
        && r.orders == e.orders[f.orderId := Filling(e.orders[f.orderId], f).row]
        && r.book == if Filling(e.orders[f.orderId], f).error.Some? then e.book else BookStep(e.book, f))
  }

  lemma OnFillEffect(c: Config, e: State, f: Fill)
    ensures FillEffect(e, f, OnFill(c, e, f).0)
    ensures f.orderId in e.orders && !Seen(e, f) ==>
      var r := OnFill(c, e, f).0;
      && r.orders == e.orders[f.orderId := Filling(e.orders[f.orderId], f).row]
      && r.book == if Filling(e.orders[f.orderId], f).error.Some? then e.book else BookStep(e.book, f)
  {
    hide Filling, BookStep, PnlStep, OrderFits, WrittenRow, FillFits, KnowsExec;
    BookStepHas(e.book, f);
  }

  lemma FillCovers(c: Config, e: State, f: Fill, provisional: bool)
    requires KeyedState(e) && Sized(e.orders) && Covered(e, provisional)
    requires f.orderId in e.orders ==> Matches(e.orders, f)
    ensures Sized(OnFill(c, e, f).0.orders)
    ensures provisional || !Revives(e, FillArrives(f)) ==> Covered(OnFill(c, e, f).0, provisional)
    ensures !provisional && Revives(e, FillArrives(f)) ==>
      (Covered(OnFill(c, e, f).0, false) <==> e.orders[f.orderId].Remaining() <= Available(e, f.symbol))
  {
    hide Keyed, Reserve, Filling, RowReserve, OnFill, BookStep;
    var r := OnFill(c, e, f).0;
    OnFillEffect(c, e, f);
    if f.orderId in e.orders && !Seen(e, f) {
      OwnRow(e, f.orderId);
      FillReserves(e.orders[f.orderId], f, provisional);
      TakenCovers(e, f, r, provisional);
      if Revives(e, FillArrives(f)) {
        RevivedFits(e.orders[f.orderId], f);
      }
    }
  }

  // A late fill that fits a provisionally cancelled order is taken.
  lemma RevivedFits(o: OrderRow, f: Fill)
    requires o.orderId == f.orderId && o.status.Cancelled? && !o.confirmed && o.filled + f.qty <= o.qty
    ensures Filling(o, f).error.None?
  {
    hide Mean;
  }

  lemma TakenCovers(e: State, f: Fill, r: State, provisional: bool)
    requires Sized(e.orders) && Covered(e, provisional) && f.orderId in e.orders && Matches(e.orders, f)
    requires r.orders == e.orders[f.orderId := Filling(e.orders[f.orderId], f).row]
    requires r.book == if Filling(e.orders[f.orderId], f).error.Some? then e.book else BookStep(e.book, f)
    ensures Sized(r.orders)
    ensures provisional || Filling(e.orders[f.orderId], f).error.Some?
            || e.orders[f.orderId].status.IsOpen() || f.side.Buy?
            ==> Covered(r, provisional)
    ensures !provisional && Filling(e.orders[f.orderId], f).error.None?
            && !e.orders[f.orderId].status.IsOpen() && f.side.Sell? ==>
      (Covered(r, false) <==> e.orders[f.orderId].Remaining() <= Available(e, f.symbol))
  {
    hide Reserve, Filling, RowReserve, BookStep;
    var o := e.orders[f.orderId];
    var row := Filling(o, f).row;
    FillReserves(o, f, provisional);
    forall s: Symbol
      ensures Reserve(r.orders, s, provisional)
           == Reserve(e.orders, s, provisional) - RowReserve(o, s, provisional) + RowReserve(row, s, provisional)
      ensures Held(r, s) == Held(e, s) + if Filling(o, f).error.None? && f.symbol == s then f.SignedQty() else 0.0
    {
      ReserveAfterWrite(e.orders, row, s, provisional);
      HeldAfterFill(e.book, f, s);
    }
    assert Held(e, f.symbol) >= Reserve(e.orders, f.symbol, provisional);
    assert Available(e, f.symbol) == Held(e, f.symbol) - Reserve(e.orders, f.symbol, false);
  }

  // ----- Restarts -----

  // What is held after a restart is the ledger's net quantity.
  lemma ReloadHolds(c: Config, e: State, d: Tables)
    requires Keyed(e.orders, e.registry, d.orders)
    ensures Restarted(c, e, d).orders == d.orders && Restarted(c, e, d).disk == d
    ensures forall s: Symbol :: Held(Restarted(c, e, d), s) == Net(d.fills, s)
  {
    hide Keyed, ByTs, AvgRun;
    RestartKeyed(c, e, d);
    ByTsSorts(d.fills);
    BookOfReplays(ByTs(d.fills));
    forall s: Symbol ensures Held(Restarted(c, e, d), s) == Net(d.fills, s) {
      AvgIdentity(ByTs(d.fills), s, 0.0);
      SumPermuted(ByTs(d.fills), d.fills, NetOf(s));
      assert Lookup(BookOf(ByTs(d.fills)), s) == PosRun(ByTs(d.fills), s);
    }
  }

  // Whatever a restart finds on disk: the position covers the sells exactly when the stored
  // ledger covers the stored orders.
  lemma RestartCoversExactly(c: Config, e: State, d: Tables, provisional: bool)
    requires Keyed(e.orders, e.registry, d.orders)
    ensures Covered(Restarted(c, e, d), provisional)
       <==> forall s: Symbol :: Net(d.fills, s) >= Reserve(d.orders, s, provisional)
  {
    hide Keyed, Restarted, Held, Net, Reserve;
    ReloadHolds(c, e, d);
  }

  // In agreeing states memory and disk are not apart, so any restart from one is calm.
  lemma AgreeingRestartIsCalm(c: Config, e: State)
    requires Agrees(c, e)
    ensures SameOnReload(e) && Calm(e, Restarts)
  {
    hide Agrees, Held, Net;
    SameOnDisk(c, e);
    forall s: Symbol ensures Held(e, s) == Net(e.disk.fills, s) {
      OneQuantity(c, e, s);
    }
  }

  lemma RestartKeepsCover(c: Config, e: State, r: State, provisional: bool)
    requires KeyedState(r) && SameOnReload(r)
    ensures Restarted(c, e, r.disk).orders == r.orders
    ensures Covered(r, provisional) <==> Covered(Restarted(c, e, r.disk), provisional)
  {
    hide Keyed, Restarted, Held, Net, Reserve;
    RestartedAlike(c, e, r);
    ReloadHolds(c, r, r.disk);
  }

  lemma RestartedAlike(c: Config, e: State, r: State)
    requires KeyedState(r)
    ensures Restarted(c, e, r.disk) == Restarted(c, r, r.disk)
  {
    hide Keyed;
    RestartKeyed(c, r, r.disk);
    RestartedIs(c, e, r, r.disk);
  }

  // A crash before the broker is called leaves the order stored or not made at all.
  lemma SubmitReloads(e: State, req: Request, id: OrderId)
    requires KeyedState(e) && SameOnReload(e) && id !in e.orders
    ensures KeyedState(SubmitBegin(e, req, id).0) && SameOnReload(SubmitBegin(e, req, id).0)
    ensures SubmitBegin(e, req, id).1 != Unstored
  {
    hide Keyed, SubmitBegin, RequestedRow, Net;
    SubmitKeyed(e, req, id);
    SubmitWrites(e, req, id);
    SubmitHolds(e, req, id);
  }

  lemma SubmitHolds(e: State, req: Request, id: OrderId)
    ensures var r := SubmitBegin(e, req, id).0;
            r.disk.fills == e.disk.fills && forall s: Symbol :: Held(r, s) == Held(e, s)
  {
    hide Available, OrderFits, WrittenRow, RequestedRow, Claimed;
    TouchedHeld(e, req.symbol);
  }

  lemma SubmitCrashCovers(c: Config, e: State, req: Request, id: OrderId, committed: bool, provisional: bool)
    requires KeyedState(e) && Sized(e.orders) && Covered(e, provisional) && SameOnReload(e) && id !in e.orders
    requires provisional && req.side.Sell? && SubmitBegin(e, req, id).1.Dispatched? ==>
      req.qty <= Held(e, req.symbol) - Reserve(e.orders, req.symbol, true)
    ensures var r := Step(c, e, SubmitCrash(req, id, committed)); Sized(r.orders) && Covered(r, provisional)
  {
    hide Keyed, SubmitBegin, Restarted, Held, Reserve, Covered, Sized, SameOnReload;
    SubmitReloads(e, req, id);
    SubmitCovers(e, req, id, provisional);
    RestartKeepsCover(c, e, e, provisional);
    RestartKeepsCover(c, e, SubmitBegin(e, req, id).0, provisional);
  }

  // ----- Over runs: exactly when the guard fails -----

  // From a covered state a calm step leaves the book covered exactly when whatever order it
  // revives may only take what is available.
  lemma StepCoversExactly(c: Config, e: State, ev: Event)
    requires KeyedState(e) && Sized(e.orders) && Covered(e, false) && Calm(e, ev)
    ensures Sized(Step(c, e, ev).orders)
    ensures Covered(Step(c, e, ev), false) <==> RevivesWithinAvailable(e, ev)
  {
    hide Keyed, Reserve, Filling, OnFill, SubmitBegin, SubmitAck, CancelAck, ConfirmAck, Covered, Matches, Sized;
    hide Restarted, SameOnReload;
    match ev {
      case SubmitOrder(req, id) =>
        if id !in e.orders {
          SubmitKeyed(e, req, id);
          SubmitCovers(e, req, id, false);
        }
      case BrokerAck(id, ack) =>
        if id in e.orders {
          AckCovers(e, id, ack, false);
        }
      case FillArrives(f) =>
        FillCovers(c, e, f, false);
        if f.orderId in e.orders {
          SameSymbol(e.orders, f);
        }
      case CancelReply(id, ack) =>
        if id in e.orders {
          CancelCovers(e, id, ack, false);
        }
      case ConfirmReply(id, verdict) =>
        if id in e.orders {
          ConfirmCovers(e, id, verdict, false);
        }
      case MarkMoves(_, _) =>
        MarksDoNotMatter(e, Step(c, e, ev), false);
      case SubmitCrash(req, id, committed) =>
        if id !in e.orders {
          SubmitCrashCovers(c, e, req, id, committed, false);
        }
      case Restarts =>
        RestartKeepsCover(c, e, e, false);
    }
  }

  lemma SameSymbol(orders: map<OrderId, OrderRow>, f: Fill)
    requires Matches(orders, f)
    ensures orders[f.orderId].symbol == f.symbol
  {
  }

  lemma MarksDoNotMatter(e: State, r: State, provisional: bool)
    requires r.orders == e.orders && r.book == e.book && Covered(e, provisional)
    ensures Covered(r, provisional)
  {
  }

  ghost predicate CalmRun(c: Config, evs: seq<Event>) {
    forall n :: 0 <= n < |evs| ==> Calm(Run(c, evs[..n]), evs[n])
  }

  // Over every calm run: the position covers the open sells, and is never short, all the way
  // if and only if every order revived on the way may only take what is then available.
  lemma {:induction false} OversellExactly(c: Config, evs: seq<Event>)
    requires CalmRun(c, evs)
    ensures Sized(Run(c, evs).orders)
    ensures AlwaysCovered(c, evs) <==> AlwaysWithinAvailable(c, evs)
  {
    hide Step, Covered, RevivesWithinAvailable, Sized, Calm, Keyed, CalmRun, AlwaysCovered, AlwaysWithinAvailable;
    if evs == [] {
      StartCovered();
      CoveredAtStart(c);
    } else {
      var n := |evs| - 1;
      var before, e := evs[..n], Run(c, evs[..n]);
      CalmRunBefore(c, evs);
      OversellExactly(c, before);
      AtMostOnce(c, before);
      StepSized(c, e, evs[n]);
      CoveredNow(c, before);
      CoveredOneMore(c, evs);
      if Covered(e, false) {
        StepCoversExactly(c, e, evs[n]);
      }
    }
  }

  // Then no position is ever short.
  lemma NeverShort(c: Config, evs: seq<Event>, n: nat, s: Symbol)
    requires CalmRun(c, evs) && AlwaysWithinAvailable(c, evs) && n <= |evs|
    ensures var e := Run(c, evs[..n]);
            Held(e, s) >= Reserve(e.orders, s, false) >= 0.0
  {
    hide Calm, Run, Sized, Reserve;
    forall k | 0 <= k < n ensures evs[..n][..k] == evs[..k] && evs[..n][k] == evs[k] {
    }
    OversellExactly(c, evs);
    OversellExactly(c, evs[..n]);
    ReserveNonNegative(Run(c, evs[..n]).orders, s, false);
  }

  // After every event of the run the position covers the open sells.
  ghost predicate AlwaysCovered(c: Config, evs: seq<Event>) {
    forall n :: 0 <= n <= |evs| ==> Covered(Run(c, evs[..n]), false)
  }

  // Whenever an event of the run revives a sell, what that sell may still take is available.
  ghost predicate AlwaysWithinAvailable(c: Config, evs: seq<Event>) {
    forall n :: 0 <= n < |evs| ==> RevivesWithinAvailable(Run(c, evs[..n]), evs[n])
  }

  lemma CoveredAtStart(c: Config)
    requires Covered(START, false)
    ensures AlwaysCovered(c, []) && AlwaysWithinAvailable(c, [])
  {
    hide Covered;
  }

  lemma CoveredNow(c: Config, evs: seq<Event>)
    ensures AlwaysCovered(c, evs) ==> Covered(Run(c, evs), false)
  {
    hide Covered, Run;
    assert evs[..|evs|] == evs;
  }

  lemma CalmRunBefore(c: Config, evs: seq<Event>)
    requires CalmRun(c, evs) && evs != []
    ensures CalmRun(c, evs[..|evs| - 1]) && Calm(Run(c, evs[..|evs| - 1]), evs[|evs| - 1])
  {
    hide Calm, Run;
    var before := evs[..|evs| - 1];
    forall k | 0 <= k < |before| ensures before[..k] == evs[..k] && before[k] == evs[k] {
    }
  }

  lemma CoveredOneMore(c: Config, evs: seq<Event>)
    requires evs != []
    ensures var before, last := evs[..|evs| - 1], evs[|evs| - 1];
            && (AlwaysCovered(c, evs) <==> AlwaysCovered(c, before) && Covered(Run(c, evs), false))
            && (AlwaysWithinAvailable(c, evs) <==>
                  AlwaysWithinAvailable(c, before) && RevivesWithinAvailable(Run(c, before), last))
  {
    hide Covered, RevivesWithinAvailable, Run;
    var before := evs[..|evs| - 1];
    assert evs[..|evs|] == evs;
    forall k | 0 <= k <= |before| ensures before[..k] == evs[..k] {
    }
  }

  lemma StartCovered()
    ensures Covered(START, false) && Covered(START, true) && Sized(START.orders)
  {
  }

  // Sizes are kept by every calm step, covered or not.
  lemma StepSized(c: Config, e: State, ev: Event)
    requires KeyedState(e) && Sized(e.orders) && Calm(e, ev)
    ensures Sized(Step(c, e, ev).orders)
  {
    hide Keyed, OnFill, SubmitBegin, SubmitAck, CancelAck, ConfirmAck, Matches, Sized, Covered;
    hide Restarted, SameOnReload;
    match ev {
      case SubmitOrder(req, id) =>
        if id !in e.orders {
          SubmitSized(e, req, id);
        }
      case BrokerAck(id, ack) =>
        if id in e.orders {
          AckCovers(e, id, ack, false);
        }
      case FillArrives(f) =>
        FillSized(c, e, f);
      case CancelReply(id, ack) =>
        if id in e.orders {
          CancelCovers(e, id, ack, false);
        }
      case ConfirmReply(id, verdict) =>
        if id in e.orders {
          ConfirmSized(e, id, verdict);
        }
      case MarkMoves(_, _) =>
      case SubmitCrash(req, id, committed) =>
        if id !in e.orders {
          SubmitSized(e, req, id);
          SubmitReloads(e, req, id);
          RestartKeepsCover(c, e, e, false);
          RestartKeepsCover(c, e, SubmitBegin(e, req, id).0, false);
        }
      case Restarts =>
        RestartKeepsCover(c, e, e, false);
    }
  }

  lemma SubmitSized(e: State, req: Request, id: OrderId)
    requires Sized(e.orders) && id !in e.orders
    ensures Sized(SubmitBegin(e, req, id).0.orders)
  {
    hide Available, OrderFits, WrittenRow, WithOrder, Touched, Claimed;
  }

  lemma FillSized(c: Config, e: State, f: Fill)
    requires KeyedState(e) && Sized(e.orders) && (f.orderId in e.orders ==> Matches(e.orders, f))
    ensures Sized(OnFill(c, e, f).0.orders)
  {
    hide Keyed, Filling, OnFill, BookStep;
    OnFillEffect(c, e, f);
    if f.orderId in e.orders {
      FillReserves(e.orders[f.orderId], f, false);
    }
  }

  lemma ConfirmSized(e: State, id: OrderId, verdict: OrderStatus)
    requires Sized(e.orders) && id in e.orders
    ensures Sized(ConfirmAck(e, id, verdict).orders)
  {
    hide OrderFits, WrittenRow, Covered;
    WriteCovers(e, Confirming(e.orders[id], verdict), ConfirmAck(e, id, verdict), false);
  }

  // ----- The guard that counts provisional orders -----

  // A sell goes out only within what is held less everything that may still be sold,
  // provisional orders included.
  ghost predicate GuardsWide(e: State, req: Request, id: OrderId) {
    req.side.Sell? && id !in e.orders && SubmitBegin(e, req, id).1.Dispatched? ==>
      req.qty <= Held(e, req.symbol) - Reserve(e.orders, req.symbol, true)
  }

  ghost predicate GuardedWide(e: State, ev: Event) {
    && (ev.SubmitOrder? ==> GuardsWide(e, ev.req, ev.newId))
    && (ev.SubmitCrash? ==> GuardsWide(e, ev.crashReq, ev.crashId))
  }

  lemma StepCoversWide(c: Config, e: State, ev: Event)
    requires KeyedState(e) && Sized(e.orders) && Covered(e, true) && Calm(e, ev) && GuardedWide(e, ev)
    ensures Sized(Step(c, e, ev).orders) && Covered(Step(c, e, ev), true)
  {
    hide Keyed, Reserve, Filling, OnFill, SubmitBegin, SubmitAck, CancelAck, ConfirmAck, Covered, Matches, Sized;
    hide Restarted, SameOnReload;
    match ev {
      case SubmitOrder(req, id) =>
        if id !in e.orders {
          SubmitKeyed(e, req, id);
          SubmitCovers(e, req, id, true);
        }
      case BrokerAck(id, ack) =>
        if id in e.orders {
          AckCovers(e, id, ack, true);
        }
      case FillArrives(f) =>
        FillCovers(c, e, f, true);
      case CancelReply(id, ack) =>
        if id in e.orders {
          CancelCovers(e, id, ack, true);
        }
      case ConfirmReply(id, verdict) =>
        if id in e.orders {
          ConfirmCovers(e, id, verdict, true);
        }
      case MarkMoves(_, _) =>
        MarksDoNotMatter(e, Step(c, e, ev), true);
      case SubmitCrash(req, id, committed) =>
        if id !in e.orders {
          SubmitCrashCovers(c, e, req, id, committed, true);
        }
      case Restarts =>
        RestartKeepsCover(c, e, e, true);
    }
  }

  // With that guard no calm run ever goes short, whatever fills and reopenings come.
  lemma {:induction false} WideGuardNeverOversells(c: Config, evs: seq<Event>)
    requires CalmRun(c, evs) && forall n :: 0 <= n < |evs| ==> GuardedWide(Run(c, evs[..n]), evs[n])
    ensures Sized(Run(c, evs).orders) && Covered(Run(c, evs), true)
    ensures forall s: Symbol :: Held(Run(c, evs), s) >= Reserve(Run(c, evs).orders, s, true) >= 0.0
  {
    hide Step, Covered, Sized, Calm, Keyed, GuardedWide;
    if evs == [] {
      StartCovered();
    } else {
      var n := |evs| - 1;
      var before := evs[..n];
      forall k | 0 <= k <= n ensures before[..k] == evs[..k] {
      }
      WideGuardNeverOversells(c, before);
      AtMostOnce(c, before);
      StepCoversWide(c, Run(c, before), evs[n]);
    }
    CoveredWide(Run(c, evs));
  }

  lemma CoveredWide(e: State)
    requires Sized(e.orders) && Covered(e, true)
    ensures forall s: Symbol :: Held(e, s) >= Reserve(e.orders, s, true) >= 0.0
  {
    forall s: Symbol ensures Reserve(e.orders, s, true) >= 0.0 {
      ReserveNonNegative(e.orders, s, true);
    }
  }
}
