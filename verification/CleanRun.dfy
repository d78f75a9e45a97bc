// A run that trades and reconciles clean, so that what the end-to-end theorem asks of a run
// can be met; and the same run with a confirmation before the drain, which loses the fill.

module CleanRun {
  import opened Models
  import opened Money
  import opened Sums
  import opened Ledger
  import opened Orders
  import opened Positions
  import opened Pnl
  import opened EngineSpec
  import opened EngineObject
  import opened Views
  import BrokerBook
  import opened MockBroker
  import opened ClosedSystem
  import opened EndToEnd
  import opened Reconciliation
  import opened R = Reconcile

  function MarketBuy(s: Symbol, qty: Size): Request {
    Request(s, Buy, qty, Market, None, "")
  }

  // Mark the symbol, buy, and drain the fill.
  function BuyRun(s: Symbol, qty: Size, price: real): seq<SysEvent> {
    [Marks(s, price), Submits(MarketBuy(s, qty), 1), Drains]
  }

  // The fill the broker makes of the first order.
  function FirstFill(p: Setup, s: Symbol, qty: Size, price: Amount): Fill {
    Execution(1, s, Buy, qty, price, Quantize(Worth(p.mock.feePerShare, qty), CENTS), 2, Some(Exec(2)), 2)
  }

  // An engine configured for AVERAGE, and a broker that fills at once, charges, and reports
  // its book as it is.
  ghost predicate Plain(p: Setup, s: Symbol, qty: Size, price: real) {
    && p.config.basis.AVERAGE? && Sensible(p.config.tolerances)
    && p.mock.slices <= 1 && p.mock.drift.None? && s !in p.mock.rejects
    && price >= 0.0 && Quantize(Worth(p.mock.feePerShare, qty), CENTS) > 0.0
  }

  lemma FilledAtOnceBySubmit(p: Setup, s: Symbol, qty: Size, price: real, x: Sys)
    requires Plain(p, s, qty, price) && x == SysStep(p, Begin(0, map[s := price]), Marks(s, price))
    ensures var y, f := SubmitStep(p, x, MarketBuy(s, qty), 1), FirstFill(p, s, qty, price);
            && y.brk.queue == [f] && y.emitted == [f] && y.kept == [] && y.brk.prices == map[s := price]
            && y.eng.marks == map[s := price] && y.eng.book == map[] && y.eng.entries == map[]
            && 1 in y.eng.orders && !y.eng.orders[1].confirmed && y.eng.orders[1].brokerId == Some(1)
            && y.eng.orders[1].filled == 0.0
            && 1 in y.brk.acks && y.brk.acks[1].status == Filled
  {
    hide Quantize, Worth, BrokerBook.AccountStep, Available;
    var (e, outcome) := SubmitBegin(x.eng, MarketBuy(s, qty), 1);
    assert outcome == Dispatched(1);
    var (b, reply) := Answered(p.mock, x.brk, e.orders[1]);
    assert b.queue == [FirstFill(p, s, qty, price)];
    assert reply == Acknowledged(Ack(1, Filled, qty, price));
    AckKeepsRest(e, 1, reply.ack);
  }

  lemma AckKeepsRest(e: State, id: OrderId, ack: Ack)
    requires id in e.orders && e.orders[id].orderId == id && !e.orders[id].confirmed
    requires !ack.status.Cancelled? && e.orders[id].status.New? && e.orders[id].brokerId.None?
    ensures var r := SubmitAck(e, id, ack);
            && r.marks == e.marks && r.book == e.book && r.entries == e.entries
            && id in r.orders && !r.orders[id].confirmed && r.orders[id].brokerId == Some(ack.brokerId)
            && r.orders[id].filled == e.orders[id].filled
  {
    AckKeepsViews(e, id, ack);
    hide SubmitAck;
    AckEffect(e, id, ack);
  }

  lemma AckKeepsViews(e: State, id: OrderId, ack: Ack)
    requires id in e.orders
    ensures var r := SubmitAck(e, id, ack);
            r.marks == e.marks && r.book == e.book && r.entries == e.entries
  {
    hide Acked;
  }

  lemma Draining(p: Setup, y: Sys, f: Fill)
    requires SysInv(p, y) && y.brk.queue == [f] && y.emitted == [f] && y.kept == []
    requires y.eng.book == map[] && y.eng.entries == map[]
    requires f.orderId in y.eng.orders && !y.eng.orders[f.orderId].confirmed
    ensures var x := DrainStep(p, y);
            && x.brk.queue == [] && x.emitted == [f] && x.brk.prices == y.brk.prices && x.eng.marks == y.eng.marks
            && x.eng.book.Keys == {f.symbol} && x.eng.entries.Keys == {f.symbol}
            && x.brk.account == y.brk.account
  {
    hide Agrees, Streams, Linked, Filling;
    DrainExactly(p, y);
    HeadIsNew(p, y);
    HeadFits(p, y);
    OnFillApplies(p.config, y.eng, f);
  }

  lemma HeadFits(p: Setup, y: Sys)
    requires SysInv(p, y) && |y.kept| < |y.emitted|
    requires var f := y.emitted[|y.kept|]; f.orderId in y.eng.orders && !y.eng.orders[f.orderId].confirmed
    ensures Fits(y.eng, y.emitted[|y.kept|])
  {
    hide Agrees, Streams, Linked;
    HeadHasRoom(p, y);
    Delivered(p, y, |y.kept|);
  }

  // The state the run ends in.
  lemma BuyRunEnds(p: Setup, s: Symbol, qty: Size, price: real)
    requires Plain(p, s, qty, price)
    ensures var x, f := SysRun(p, Begin(0, map[s := price]), BuyRun(s, qty, price)), FirstFill(p, s, qty, price);
            && QuietConfirms(p, Begin(0, map[s := price]), BuyRun(s, qty, price))
            && x.brk.queue == [] && x.emitted == [f] && x.brk.prices == map[s := price]
            && x.eng.marks == map[s := price]
            && x.eng.book.Keys == {s} && x.eng.entries.Keys == {s}
            && x.brk.account == BrokerBook.AccountRun([f])
  {
    hide SysInv, SubmitStep, DrainStep, Quantize, Worth, BrokerBook.AccountRun;
    var x0, f := Begin(0, map[s := price]), FirstFill(p, s, qty, price);
    var evs := BuyRun(s, qty, price);
    var x1 := SysStep(p, x0, evs[0]);
    var x2 := SysStep(p, x1, evs[1]);
    assert evs[..2][..1] == [evs[0]] && evs[..2] == [evs[0], evs[1]] && [evs[0]][..0] == [];
    assert SysRun(p, x0, [evs[0]]) == x1;
    assert SysRun(p, x0, evs[..2]) == x2;
    BeginsWell(p, 0, map[s := price]);
    EveryRun(p, x0, evs[..2]);
    FilledAtOnceBySubmit(p, s, qty, price, x1);
    Draining(p, x2, f);
    StreamAccount(p, x2);
    NoConfirms(p, x0, evs);
  }

  lemma {:induction false} NoConfirms(p: Setup, x: Sys, evs: seq<SysEvent>)
    requires forall i :: 0 <= i < |evs| ==> !evs[i].Confirms?
    ensures QuietConfirms(p, x, evs)
  {
    hide SysStep, SysRun;
    if evs != [] {
      NoConfirms(p, x, evs[..|evs| - 1]);
    }
  }

  lemma StreamAccount(p: Setup, x: Sys)
    requires SysInv(p, x)
    ensures x.brk.account == BrokerBook.AccountRun(x.emitted)
  {
    hide Agrees, Linked;
  }

  // What the reconciler is given in a state with one traded symbol.
  lemma OneSymbolCompares(p: Setup, x: Sys, s: Symbol)
    requires x.eng.book.Keys == {s} && x.eng.entries.Keys == {s} && x.brk.account.positions.Keys == {s}
    requires RowFor(p.mock, x.brk, s).qty != 0.0 && p.mock.drift.None?
    ensures exists rows, lines, snap :: Compares(p, x, rows, lines, snap, [s])
  {
    hide RowFor, LineOf, Over, PositionRows, Reports, IsSnapshot, InputsOf;
    var rows := [RowAt(x.eng.book, s)];
    var lines := [LineOf(x.eng.marks, s, x.eng.entries[s])];
    var snap := Snapshot(x.brk.account.realized - x.brk.account.fees, Over({s}, UnrealizedFor(p.mock, x.brk)),
                         x.brk.account.fees, [RowFor(p.mock, x.brk, s)]);
    OneRow(x.eng.book, s);
    OneLine(x.eng.marks, x.eng.entries, s);
    OneSnapshot(p.mock, x.brk, s, snap);
    RowIsFor(p.mock, x.brk, s);
    OneIndexed(rows, lines, snap, s);
    assert Compares(p, x, rows, lines, snap, [s]);
  }

  lemma OneRow(book: Book, s: Symbol)
    requires book.Keys == {s}
    ensures PositionRows([RowAt(book, s)], book)
  {
  }

  lemma OneLine(marks: map<Symbol, real>, entries: Entries, s: Symbol)
    requires entries.Keys == {s}
    ensures Reports([LineOf(marks, s, entries[s])], marks, entries)
  {
    hide LineOf;
    LineIsFor(marks, s, entries[s]);
  }

  lemma OneSnapshot(c: MockConfig, b: Broker, s: Symbol, snap: Snapshot)
    requires b.account.positions.Keys == {s} && RowFor(c, b, s).qty != 0.0 && c.drift.None?
    requires snap
         == Snapshot(b.account.realized - b.account.fees, Over({s}, UnrealizedFor(c, b)), b.account.fees,
                     [RowFor(c, b, s)])
    ensures IsSnapshot(snap, c, b)
  {
    hide RowFor, Over;
    assert Reported(c, b) == {s};
    RowIsFor(c, b, s);
  }

  lemma OneIndexed(rows: seq<EngineRow>, lines: seq<PnlLine>, snap: Snapshot, s: Symbol)
    requires |rows| == |snap.rows| == 1 && rows[0].symbol == snap.rows[0].symbol == s
    ensures Lists([s], InputsOf(rows, lines, snap).engine.Keys + InputsOf(rows, lines, snap).broker.Keys)
  {
    assert rows[..0] == [] && snap.rows[..0] == [];
    assert IndexEngine(rows[..0]) == map[] && IndexBroker(snap.rows[..0]) == map[];
    assert IndexEngine(rows) == map[s := rows[0]];
    assert IndexBroker(snap.rows) == map[s := snap.rows[0]];
    assert (set x | x in [s]) == {s};
  }

  lemma RowIsFor(c: MockConfig, b: Broker, s: Symbol)
    ensures RowFor(c, b, s).symbol == s
  {
  }

  // Any plain setup, symbol, quantity and price: the run meets every hypothesis of
  // EveryDrainedRunIsClean, having traded.
  lemma BuyRunReconciles(p: Setup, s: Symbol, qty: Size, price: real)
    requires Plain(p, s, qty, price)
    ensures var x0, evs := Begin(0, map[s := price]), BuyRun(s, qty, price);
            var x := SysRun(p, x0, evs);
            && QuietConfirms(p, x0, evs)
            && x.brk.queue == [] && BrokerBook.NeverFlips(x.emitted) && SameMarks(x)
            && x.emitted != [] && (forall f :: f in x.emitted ==> f.fee > 0.0)
            && exists rows, lines, snap ::
                 Compares(p, x, rows, lines, snap, [s])
                   && Reconciled(InputsOf(rows, lines, snap), [s], p.config.tolerances).breaks == []
  {
    hide SysRun, QuietConfirms, Compares, Reconciled, InputsOf, Quantize, Worth, RowFor;
    var x0, evs, f := Begin(0, map[s := price]), BuyRun(s, qty, price), FirstFill(p, s, qty, price);
    BuyRunEnds(p, s, qty, price);
    var x := SysRun(p, x0, evs);
    OneFill(p, x, f);
    OneSymbolCompares(p, x, s);
    var rows, lines, snap :| Compares(p, x, rows, lines, snap, [s]);
    EveryDrainedRunIsClean(p, 0, map[s := price], evs, rows, lines, snap, [s]);
  }

  lemma OneFill(p: Setup, x: Sys, f: Fill)
    requires x.brk.account == BrokerBook.AccountRun([f]) && p.mock.drift.None?
    ensures x.brk.account.positions.Keys == Symbols([f]) == {f.symbol}
    ensures BrokerBook.NeverFlips([f]) && RowFor(p.mock, x.brk, f.symbol).qty != 0.0
  {
    hide Worth;
    BrokerBook.BrokerQuantity([f], f.symbol);
    assert [f][..0] == [];
  }

  // ----- Confirmed before the drain -----

  function HastyRun(s: Symbol, qty: Size, price: real): seq<SysEvent> {
    [Marks(s, price), Submits(MarketBuy(s, qty), 1), Confirms(1), Drains]
  }

  lemma Confirmed(p: Setup, y: Sys)
    requires SysInv(p, y) && 1 in y.eng.orders && y.eng.orders[1].brokerId == Some(1) && 1 in y.brk.acks
    requires y.brk.acks[1].status == Filled
    ensures var z := SysStep(p, y, Confirms(1));
            && z.brk == y.brk && z.emitted == y.emitted && z.kept == y.kept && z.eng.book == y.eng.book
            && 1 in z.eng.orders && z.eng.orders[1].confirmed && z.eng.orders[1].status == Filled
            && z.eng.orders[1].filled == y.eng.orders[1].filled
  {
    hide Agrees, Streams, Linked, Stored;
    LinkOf(y.eng.orders, y.brk, y.emitted, 1);
    StoredEffect(y.eng, Confirming(y.eng.orders[1], Filled));
  }

  lemma DropsIt(p: Setup, z: Sys, f: Fill)
    requires SysInv(p, z) && z.brk.queue == [f] && z.emitted == [f] && z.kept == [] && z.eng.book == map[]
    requires f.orderId in z.eng.orders && z.eng.orders[f.orderId].confirmed
    ensures var w := DrainStep(p, z);
            && w.brk.queue == [] && w.brk.account == z.brk.account && w.emitted == [f] && w.kept == [false]
            && w.eng.book == map[] && w.eng.orders == z.eng.orders
  {
    hide Agrees, Streams, Linked, OnFill;
    DrainExactly(p, z);
  }

  // A buy that is filled at once, confirmed and then drained, nothing else happening: the
  // fill is dropped; the broker holds the quantity, the engine a FILLED order with nothing
  // filled and a flat position.
  lemma HastyConfirmLosesTheFill(p: Setup, s: Symbol, qty: Size, price: real)
    requires Plain(p, s, qty, price)
    ensures var x := SysRun(p, Begin(0, map[s := price]), HastyRun(s, qty, price));
            && x.brk.queue == [] && x.kept == [false] && x.emitted == [FirstFill(p, s, qty, price)]
            && BrokerBook.At(x.brk.account, s).qty == qty && Held(x.eng, s) == 0.0
            && 1 in x.eng.orders && x.eng.orders[1].status == Filled && x.eng.orders[1].confirmed
            && x.eng.orders[1].filled == 0.0
  {
    hide SysInv, SubmitStep, DrainStep, Quantize, Worth, BrokerBook.AccountRun, BrokerBook.At;
    var x0, f := Begin(0, map[s := price]), FirstFill(p, s, qty, price);
    var evs := HastyRun(s, qty, price);
    var x1 := SysStep(p, x0, evs[0]);
    var x2 := SysStep(p, x1, evs[1]);
    var x3 := SysStep(p, x2, evs[2]);
    FourEvents(p, x0, evs);
    BeginsWell(p, 0, map[s := price]);
    EveryRun(p, x0, evs[..2]);
    EveryRun(p, x0, evs[..3]);
    FilledAtOnceBySubmit(p, s, qty, price, x1);
    Confirmed(p, x2);
    DropsIt(p, x3, f);
    StreamAccount(p, x3);
    BrokerBook.BrokerQuantity([f], s);
    NetOfOne(f);
  }

  lemma NetOfOne(f: Fill)
    ensures Net([f], f.symbol) == f.SignedQty()
  {
    SumOneMore([], f, NetOf(f.symbol));
    assert [] + [f] == [f];
  }

  lemma FourEvents(p: Setup, x: Sys, evs: seq<SysEvent>)
    requires |evs| == 4
    ensures SysRun(p, x, evs[..2]) == SysStep(p, SysStep(p, x, evs[0]), evs[1])
    ensures SysRun(p, x, evs[..3]) == SysStep(p, SysRun(p, x, evs[..2]), evs[2])
    ensures SysRun(p, x, evs) == SysStep(p, SysRun(p, x, evs[..3]), evs[3])
  {
    hide SysStep;
    assert evs[..1][..0] == [] && evs[..2][..1] == evs[..1] && evs[..3][..2] == evs[..2];
    assert SysRun(p, x, evs[..1]) == SysStep(p, x, evs[0]);
  }
}
