// The engine's redundant views: what it means that they agree, and which steps keep it so.

module Views {
  import opened Models
  import opened Money
  import opened Sums
  import opened CostBasis
  import opened Ledger
  import opened Orders
  import opened Positions
  import opened Settings
  import opened Pnl
  import opened Store
  import opened Idempotency
  import opened EngineSpec

  // ----- Keys and orders -----

  predicate SameIdentity(a: OrderRow, b: OrderRow) {
    && a.orderId == b.orderId && a.symbol == b.symbol && a.side == b.side && a.qty == b.qty
    && a.orderType == b.orderType && a.limitPrice == b.limitPrice && a.clientId == b.clientId
  }

  // One key, one order: every order has its key claimed, every claim leads back to the one
  // order that carries the key, and the disk identifies the same orders.
  ghost predicate Keyed(orders: map<OrderId, OrderRow>, registry: Registry, disk: map<OrderId, OrderRow>) {
    && (forall id :: id in orders ==>
          && orders[id].orderId == id && orders[id].clientId.Some?
          && orders[id].clientId.value in registry && registry[orders[id].clientId.value].orderId == id)
    && (forall k :: k in registry ==>
          registry[k].orderId in orders && orders[registry[k].orderId].clientId == Some(k))
    && disk.Keys == orders.Keys
    && (forall id :: id in orders ==> SameIdentity(disk[id], orders[id]))
  }

  lemma KeyedIsUnique(orders: map<OrderId, OrderRow>, registry: Registry, disk: map<OrderId, OrderRow>)
    requires Keyed(orders, registry, disk)
    ensures UniqueClients(orders) && UniqueClients(disk)
  {
    forall i, j | i in orders && j in orders && i != j
      ensures orders[i].clientId != orders[j].clientId && disk[i].clientId != disk[j].clientId
    {
      assert SameIdentity(disk[i], orders[i]) && SameIdentity(disk[j], orders[j]);
    }
  }

  lemma KeyedRowFits(orders: map<OrderId, OrderRow>, registry: Registry, t: Tables, row: OrderRow)
    requires Keyed(orders, registry, t.orders)
    requires row.orderId in orders && SameIdentity(row, orders[row.orderId])
    ensures OrderFits(t, row) && SameIdentity(WrittenRow(t, row), row)
    ensures WrittenRow(t, row) == row
  {
    KeyedIsUnique(orders, registry, t.orders);
    assert SameIdentity(t.orders[row.orderId], orders[row.orderId]);
  }

  lemma KeyedAfterWrite(orders: map<OrderId, OrderRow>, registry: Registry, disk: map<OrderId, OrderRow>, row: OrderRow,
                        stored: OrderRow)
    requires Keyed(orders, registry, disk)
    requires row.orderId in orders && SameIdentity(row, orders[row.orderId]) && SameIdentity(stored, row)
    ensures Keyed(orders[row.orderId := row], registry, disk)
    ensures Keyed(orders[row.orderId := row], registry, disk[row.orderId := stored])
  {
  }

  // ----- Agreement -----

  function QtyFor(id: OrderId): Fill -> real {
    (f: Fill) => if f.orderId == id then f.qty else 0.0
  }

  function FeeFor(id: OrderId): Fill -> real {
    (f: Fill) => if f.orderId == id then f.fee else 0.0
  }

  function SpentFor(id: OrderId): Fill -> real {
    (f: Fill) => if f.orderId == id then Worth(f.price, f.qty) else 0.0
  }

  // The order's amounts are the sums over the ledger's fills of that order.
  ghost predicate OrderAgrees(row: OrderRow, fs: seq<Fill>) {
    && row.filled == Sum(fs, QtyFor(row.orderId))
    && row.fees == Sum(fs, FeeFor(row.orderId))
    && Worth(row.avgPrice, row.filled) == Sum(fs, SpentFor(row.orderId))
    && row.filled <= row.qty
    && (row.status.Filled? && !row.confirmed ==> row.filled == row.qty)
  }

  predicate Matches(orders: map<OrderId, OrderRow>, f: Fill) {
    f.orderId in orders && orders[f.orderId].symbol == f.symbol && orders[f.orderId].side == f.side
  }

  // The ledger's unique columns; any number of fills may carry no execution id at all.
  ghost predicate Distinct(fs: seq<Fill>) {
    forall i, j :: 0 <= i < j < |fs| ==> fs[i].fillId != fs[j].fillId && (fs[i].exec.Some? ==> fs[i].exec != fs[j].exec)
  }

  // Every view is a function of one ledger, the stored one.
  ghost predicate Agrees(c: Config, e: State) {
    var fs := e.disk.fills;
    && Keyed(e.orders, e.registry, e.disk.orders)
    && e.disk.orders == e.orders
    && Replays(e.book, fs)
    && Books(c, e.entries, fs)
    && (forall id :: id in e.orders ==> OrderAgrees(e.orders[id], fs))
    && (forall f :: f in fs ==> Matches(e.orders, f))
    && Distinct(fs)
    && ExecsOf(fs) <= e.seen
  }

  // The stored positions: one for every traded symbol, and it is the book's. Nothing ever
  // reads them back, so they are no part of agreement.
  ghost predicate PositionsStored(e: State) {
    && e.disk.positions.Keys == Symbols(e.disk.fills)
    && forall s :: s in e.disk.positions ==> e.disk.positions[s] == Lookup(e.book, s)
  }

  lemma StartAgrees(c: Config)
    ensures Agrees(c, START) && PositionsStored(START)
  {
  }

  lemma BooksReplay(c: Config, e: State, s: Symbol)
    requires Agrees(c, e)
    ensures Lookup(e.book, s) == PosRun(e.disk.fills, s)
  {
    hide Keyed, Books, OrderAgrees, Distinct, PosRun;
  }

  // In agreeing states over one ledger and one positions table, both or neither.
  lemma SameTablesStored(c: Config, a: State, b: State)
    requires Agrees(c, a) && Agrees(c, b) && a.disk.fills == b.disk.fills && a.disk.positions == b.disk.positions
    ensures PositionsStored(a) <==> PositionsStored(b)
  {
    hide Agrees, Lookup, PosRun;
    forall s: Symbol ensures Lookup(a.book, s) == Lookup(b.book, s) {
      BooksReplay(c, a, s);
      BooksReplay(c, b, s);
    }
  }

  // An applied fill stores its symbol's position.
  lemma AppliedStores(c: Config, e: State, f: Fill, r: State)
    requires PositionsStored(e) && IsApplied(c, e, f, r)
    ensures PositionsStored(r)
  {
    hide PosStep, Filling, PnlStep;
    assert Symbols(e.disk.fills + [f]) == Symbols(e.disk.fills) + {f.symbol};
  }

  // A ledger one fill ahead of the positions table: that symbol's position is missing or
  // stale, and no other.
  lemma AheadIsStale(e: State, f: Fill, r: State)
    requires PositionsStored(e) && Replays(e.book, e.disk.fills) && Replays(r.book, r.disk.fills)
    requires r.disk.fills == e.disk.fills + [f] && r.disk.positions == e.disk.positions
    ensures !PositionsStored(r)
    ensures forall s :: s in r.disk.positions && s != f.symbol ==> r.disk.positions[s] == Lookup(r.book, s)
  {
    hide Lookup, PosRun;
    forall s: Symbol
      ensures s != f.symbol ==> Lookup(r.book, s) == Lookup(e.book, s)
      ensures s == f.symbol ==> Lookup(r.book, s) != Lookup(e.book, s)
    {
      assert Lookup(e.book, s) == PosRun(e.disk.fills, s) && Lookup(r.book, s) == PosRun(r.disk.fills, s);
      OneFillMoves(e.disk.fills, f, s);
    }
    assert f in r.disk.fills;
    assert f.symbol in Symbols(r.disk.fills);
    if f.symbol in e.disk.positions {
      assert e.disk.positions[f.symbol] == Lookup(e.book, f.symbol);
    }
  }

  lemma OneFillMoves(fs: seq<Fill>, f: Fill, s: Symbol)
    ensures if s == f.symbol then PosRun(fs + [f], s).basis.qty == PosRun(fs, s).basis.qty + f.SignedQty()
            else PosRun(fs + [f], s) == PosRun(fs, s)
  {
    hide Mean, PieceGain;
    PosRunOneMore(fs, f, s);
  }

  // ----- What agreement gives a reader -----

  function SideSign(side: Side): int {
    if side.Buy? then 1 else -1
  }

  function SignedFilled(orders: map<OrderId, OrderRow>, s: Symbol): OrderId -> real {
    (id: OrderId) =>
      if id in orders && orders[id].symbol == s
      then Signed(SideSign(orders[id].side), orders[id].filled)
      else 0.0
  }

  function SignedTaken(orders: map<OrderId, OrderRow>, fs: seq<Fill>, s: Symbol): OrderId -> real {
    (id: OrderId) =>
      if id in orders && orders[id].symbol == s
      then Signed(SideSign(orders[id].side), Sum(fs, QtyFor(id)))
      else 0.0
  }

  // Summing the ledger by symbol is summing its orders' shares.
  lemma {:induction false} NetByOrder(orders: map<OrderId, OrderRow>, fs: seq<Fill>, s: Symbol)
    requires forall f :: f in fs ==> Matches(orders, f)
    ensures Net(fs, s) == Over(orders.Keys, SignedTaken(orders, fs, s))
  {
    if fs == [] {
      OverZero(orders.Keys, SignedTaken(orders, fs, s));
    } else {
      var before, f := fs[..|fs| - 1], fs[|fs| - 1];
      assert Matches(orders, f);
      NetByOrder(orders, before, s);
      OverChanged(orders.Keys, SignedTaken(orders, before, s), SignedTaken(orders, fs, s), f.orderId);
    }
  }

  lemma OverZero(keys: set<OrderId>, g: OrderId -> real)
    requires forall k :: k in keys ==> g(k) == 0.0
    ensures Over(keys, g) == 0.0
  {
    OverIgnoresZeros({}, keys, g);
  }

  // In an agreeing state, for every symbol: position book, cost basis, stored ledger and
  // order records give one and the same net quantity; and under AVERAGE the book's basis is
  // the P&L engine's.
  lemma OneQuantity(c: Config, e: State, s: Symbol)
    requires Agrees(c, e)
    ensures Held(e, s) == Net(e.disk.fills, s)
    ensures EntryOf(c, e.entries, s).basis.Qty() == Net(e.disk.fills, s)
    ensures Over(e.orders.Keys, SignedFilled(e.orders, s)) == Net(e.disk.fills, s)
    ensures c.basis.AVERAGE? ==> EntryOf(c, e.entries, s).basis == Blended(Lookup(e.book, s).basis)
  {
    hide Worth, Mean, Sum, AvgRun, FifoRun, Symbols, Distinct, EntryOf, Lookup, Net, Fifo.Valid;
    hide CostBasisTheory.MarkedPnl;
    var fs := e.disk.fills;
    AvgIdentity(fs, s, 0.0);
    FifoIdentity(fs, s, 0.0);
    assert Lookup(e.book, s) == PosRun(fs, s);
    assert EntryOf(c, e.entries, s) == EntryRun(c, fs, s);
    assert EntryRun(c, fs, s).basis == BasisRun(c.basis, fs, s);
    OrdersNet(e.orders, fs, s);
  }

  lemma OrdersNet(orders: map<OrderId, OrderRow>, fs: seq<Fill>, s: Symbol)
    requires forall id :: id in orders ==> orders[id].orderId == id && OrderAgrees(orders[id], fs)
    requires forall f :: f in fs ==> Matches(orders, f)
    ensures Over(orders.Keys, SignedFilled(orders, s)) == Net(fs, s)
  {
    hide Worth, Sum, Over, Net;
    NetByOrder(orders, fs, s);
    OverSame(orders.Keys, SignedFilled(orders, s), SignedTaken(orders, fs, s));
  }

  // ----- on_fill: when the views stay together -----

  // What on_fill does not check of a fill it takes: the symbol and side are its order's, the
  // fill id is unused, and a blank execution id, which is not looked up among the seen ones
  // but is unique in the ledger, is not there yet.
  predicate Whole(e: State, f: Fill) {
    Matches(e.orders, f) && !UsedId(e.disk, f) && (f.exec == Some(Blank) ==> !KnowsExec(e.disk, f.exec))
  }

  predicate UsedId(t: Tables, f: Fill) {
    exists i :: 0 <= i < |t.fills| && t.fills[i].fillId == f.fillId
  }

  // The fill would be taken: its order is known, live at the broker as far as the engine
  // knows, not confirmed, and has room.
  predicate Fits(e: State, f: Fill) {
    && f.orderId in e.orders
    && var o := e.orders[f.orderId];
       !o.confirmed && !o.status.New? && !o.status.Rejected? && o.filled + f.qty <= o.qty
  }

  // An execution id that is not blank is in the ledger only if it was seen.
  lemma OnlyBlankRepeats(c: Config, e: State, f: Fill)
    requires Agrees(c, e) && !Seen(e, f) && KnowsExec(e.disk, f.exec)
    ensures f.exec == Some(Blank)
  {
    hide Keyed, Replays, Books, OrderAgrees, Distinct;
    var i :| 0 <= i < |e.disk.fills| && e.disk.fills[i].exec == f.exec;
    assert e.disk.fills[i] in e.disk.fills;
    assert f.HasExec() ==> f.exec.value in ExecsOf(e.disk.fills);
  }

  lemma NewToTheLedger(c: Config, e: State, f: Fill)
    requires Agrees(c, e) && Whole(e, f) && !Seen(e, f)
    ensures !KnowsExec(e.disk, f.exec)
    ensures forall g :: g in e.disk.fills ==> g.fillId != f.fillId && (f.exec.Some? ==> g.exec != f.exec)
  {
    hide Agrees, Matches;
    if KnowsExec(e.disk, f.exec) {
      OnlyBlankRepeats(c, e, f);
    }
  }

  // The order row a fitting fill leaves.
  lemma FittingFill(e: State, f: Fill)
    requires Fits(e, f) && e.orders[f.orderId].orderId == f.orderId
    requires var o := e.orders[f.orderId]; o.status.Filled? && !o.confirmed ==> o.filled == o.qty
    ensures var r := Filling(e.orders[f.orderId], f);
            && r.error.None?
            && r.row.filled == e.orders[f.orderId].filled + f.qty
            && r.row.status == (if r.row.filled == r.row.qty then Filled else PartiallyFilled)
            && SameIdentity(r.row, e.orders[f.orderId]) && !r.row.confirmed
  {
    hide Mean;
  }

  lemma FillKeepsOrder(o: OrderRow, fs: seq<Fill>, f: Fill)
    requires OrderAgrees(o, fs) && o.orderId == f.orderId && Filling(o, f).error.None?
    ensures OrderAgrees(Filling(o, f).row, fs + [f])
  {
    hide Worth, Mean;
    SumOneMore(fs, f, QtyFor(o.orderId));
    SumOneMore(fs, f, FeeFor(o.orderId));
    SumOneMore(fs, f, SpentFor(o.orderId));
    MeanKeepsCost(o.avgPrice, o.filled, f.price, f.qty);
  }

  lemma OtherOrderKept(o: OrderRow, fs: seq<Fill>, f: Fill)
    requires OrderAgrees(o, fs) && o.orderId != f.orderId
    ensures OrderAgrees(o, fs + [f])
  {
    hide Worth;
    SumOneMore(fs, f, QtyFor(o.orderId));
    SumOneMore(fs, f, FeeFor(o.orderId));
    SumOneMore(fs, f, SpentFor(o.orderId));
  }

  // What an applied fill leaves behind.
  ghost predicate IsApplied(c: Config, e: State, f: Fill, r: State) {
    && f.orderId in e.orders
    && r.orders == e.orders[f.orderId := Filling(e.orders[f.orderId], f).row]
    && r.seen == Noted(e, f).seen
    && r.book == BookStep(e.book, f)
    && r.entries == PnlStep(c, e.entries, f)
    && r.registry == e.registry && r.marks == e.marks
    && r.disk.orders == r.orders
    && r.disk.fills == e.disk.fills + [f]
    && f.symbol in r.book && r.disk.positions == e.disk.positions[f.symbol := r.book[f.symbol]]
  }

  lemma OnFillApplies(c: Config, e: State, f: Fill)
    requires Agrees(c, e) && Whole(e, f) && !Seen(e, f) && Fits(e, f)
    ensures OnFill(c, e, f).1 == Applied
    ensures IsApplied(c, e, f, OnFill(c, e, f).0)
  {
    hide Mean, BookStep, PnlStep, Replays, Books, OrderAgrees, Filling;
    var o := e.orders[f.orderId];
    assert o.status.Filled? && !o.confirmed ==> o.filled == o.qty by {
      if o.status.Filled? && !o.confirmed {
        FilledIsFull(o, e.disk.fills);
      }
    }
    FittingFill(e, f);
    NewToTheLedger(c, e, f);
    var row := Filling(o, f).row;
    BookStepHas(e.book, f);
    KeyedRowFits(e.orders, e.registry, e.disk, row);
    var ledger := WithFill(e.disk, f);
    assert OrderFits(ledger, row) && WrittenRow(ledger, row) == row;
  }

  lemma FilledIsFull(o: OrderRow, fs: seq<Fill>)
    requires OrderAgrees(o, fs) && o.status.Filled? && !o.confirmed
    ensures o.filled == o.qty
  {
  }

  lemma BookStepHas(book: Book, f: Fill)
    ensures f.symbol in BookStep(book, f)
  {
  }

  lemma AppliedAgrees(c: Config, e: State, f: Fill, r: State)
    requires Agrees(c, e) && Whole(e, f) && !Seen(e, f) && Fits(e, f) && IsApplied(c, e, f, r)
    ensures Agrees(c, r)
  {
    hide BookStep, PnlStep, Replays, Books, OrderAgrees, Filling, Keyed, Distinct;
    var o, fs := e.orders[f.orderId], e.disk.fills;
    OrderNamed(c, e, f.orderId);
    if o.status.Filled? && !o.confirmed {
      FilledIsFull(o, fs);
    }
    FittingFill(e, f);
    var row := Filling(o, f).row;
    KeyedAfterWrite(e.orders, e.registry, e.disk.orders, row, row);
    BookStepReplays(e.book, fs, f);
    PnlStepBooks(c, e.entries, fs, f);
    FillKeepsOrder(o, fs, f);
    forall id | id in r.orders ensures OrderAgrees(r.orders[id], fs + [f]) {
      if id != f.orderId {
        OrderNamed(c, e, id);
        OtherOrderKept(e.orders[id], fs, f);
      }
    }
    NewToTheLedger(c, e, f);
    DistinctOneMore(fs, f);
    MatchesKept(e.orders, row, fs, f);
    ExecsOneMore(fs, f);
  }

  lemma OrderNamed(c: Config, e: State, id: OrderId)
    requires Agrees(c, e) && id in e.orders
    ensures e.orders[id].orderId == id
  {
    hide Replays, Books, Distinct, OrderAgrees;
  }

  lemma ExecsOneMore(fs: seq<Fill>, f: Fill)
    ensures ExecsOf(fs + [f]) == if f.HasExec() then ExecsOf(fs) + {f.exec.value} else ExecsOf(fs)
  {
  }

  lemma DistinctOneMore(fs: seq<Fill>, f: Fill)
    requires Distinct(fs) && forall g :: g in fs ==> g.fillId != f.fillId && (f.exec.Some? ==> g.exec != f.exec)
    ensures Distinct(fs + [f])
  {
  }

  lemma MatchesKept(orders: map<OrderId, OrderRow>, row: OrderRow, fs: seq<Fill>, f: Fill)
    requires row.orderId in orders && SameIdentity(row, orders[row.orderId])
    requires forall g :: g in fs ==> Matches(orders, g)
    requires Matches(orders, f)
    ensures forall g :: g in fs + [f] ==> Matches(orders[row.orderId := row], g)
  {
    assert forall g :: g in fs + [f] ==> g in fs || g == f;
  }

  // A fill that changes its order but then raises: it has room, but its order is still
  // unacknowledged or provisionally rejected.
  predicate HalfApplies(e: State, f: Fill) {
    && f.orderId in e.orders
    && var o := e.orders[f.orderId];
       !o.confirmed && (o.status.New? || o.status.Rejected?) && o.filled + f.qty <= o.qty
  }

  // The fill is applied: it fits, and either its execution is taken for recorded or the
  // ledger's constraints let it in.
  predicate Takes(e: State, f: Fill) {
    !Seen(e, f) && Fits(e, f) && (KnowsExec(e.disk, f.exec) || !UsedId(e.disk, f))
  }

  // on_fill keeps the views together, whatever fill it is given, exactly when the fill is a
  // duplicate, or does not half apply and, if it fits, is whole.
  lemma OnFillAgreesExactly(c: Config, e: State, f: Fill)
    requires Agrees(c, e)
    ensures Agrees(c, OnFill(c, e, f).0) <==> Seen(e, f) || (!HalfApplies(e, f) && (Fits(e, f) ==> Whole(e, f)))
    ensures OnFill(c, e, f).1 == if Seen(e, f) then Duplicate else if Takes(e, f) then Applied else Raised
  {
    hide Agrees, OnFill, Whole, Fits, HalfApplies;
    if Seen(e, f) {
      RepeatIsNothing(c, e, f);
    } else if Fits(e, f) {
      FitsIsNotHalf(e, f);
      FitsTakes(c, e, f);
      if Whole(e, f) {
        OnFillApplies(c, e, f);
        AppliedAgrees(c, e, f, OnFill(c, e, f).0);
      } else {
        NotWhole(c, e, f);
      }
    } else if HalfApplies(e, f) {
      HalfApplied(c, e, f);
    } else {
      Untouched(c, e, f);
    }
  }

  lemma RepeatIsNothing(c: Config, e: State, f: Fill)
    requires Seen(e, f)
    ensures OnFill(c, e, f) == (e, Duplicate)
  {
  }

  lemma FitsIsNotHalf(e: State, f: Fill)
    requires Fits(e, f)
    ensures !HalfApplies(e, f)
  {
  }

  // A fill that fits changes its order, both views and, unless its execution is taken for
  // recorded or its id is used, the ledger.
  lemma FitsTakes(c: Config, e: State, f: Fill)
    requires Agrees(c, e) && !Seen(e, f) && Fits(e, f)
    ensures var (r, outcome) := OnFill(c, e, f);
            && outcome == (if Takes(e, f) then Applied else Raised)
            && r.orders == e.orders[f.orderId := Filling(e.orders[f.orderId], f).row]
            && r.book == BookStep(e.book, f)
            && r.disk.fills
                 == (if KnowsExec(e.disk, f.exec) || UsedId(e.disk, f) then e.disk.fills else e.disk.fills + [f])
    ensures var row := Filling(e.orders[f.orderId], f).row;
            row.filled == e.orders[f.orderId].filled + f.qty && row.orderId == f.orderId
              && row.symbol == e.orders[f.orderId].symbol
            && row.side == e.orders[f.orderId].side
  {
    hide Mean, BookStep, PnlStep, Replays, Books, OrderAgrees, Filling;
    var o := e.orders[f.orderId];
    OrderNamed(c, e, f.orderId);
    FullIfFilled(c, e, f.orderId);
    FittingFill(e, f);
    var row := Filling(o, f).row;
    BookStepHas(e.book, f);
    KeyedRowFits(e.orders, e.registry, e.disk, row);
    var ledger := WithFill(e.disk, f);
    assert OrderFits(ledger, row);
  }

  lemma FullIfFilled(c: Config, e: State, id: OrderId)
    requires Agrees(c, e) && id in e.orders
    ensures e.orders[id].status.Filled? && !e.orders[id].confirmed ==> e.orders[id].filled == e.orders[id].qty
  {
    hide Keyed, Replays, Books, Distinct;
  }

  // A fitting fill that is not whole parts the views: its order counts it and the ledger
  // does not, or the ledger has it under another symbol or side than its order's.
  lemma NotWhole(c: Config, e: State, f: Fill)
    requires Agrees(c, e) && !Seen(e, f) && Fits(e, f) && !Whole(e, f)
    ensures !Agrees(c, OnFill(c, e, f).0)
  {
    hide Agrees, OnFill, Filling;
    var r := OnFill(c, e, f).0;
    FitsTakes(c, e, f);
    FilledIsLedger(c, e, f.orderId);
    if Agrees(c, r) {
      FilledIsLedger(c, r, f.orderId);
      if r.disk.fills == e.disk.fills + [f] {
        assert f in r.disk.fills;
        LedgerMatches(c, r, f);
      }
    }
  }

  lemma LedgerMatches(c: Config, e: State, f: Fill)
    requires Agrees(c, e) && f in e.disk.fills
    ensures Matches(e.orders, f)
  {
    hide Keyed, Replays, Books, OrderAgrees, Distinct;
  }

  lemma HalfApplied(c: Config, e: State, f: Fill)
    requires Agrees(c, e) && !Seen(e, f) && HalfApplies(e, f)
    ensures OnFill(c, e, f).1 == Raised && !Agrees(c, OnFill(c, e, f).0)
  {
    hide Agrees;
    var r := OnFill(c, e, f).0;
    FilledIsLedger(c, e, f.orderId);
    HalfFilling(e.orders[f.orderId], f);
    assert r.disk == e.disk;
    if Agrees(c, r) {
      FilledIsLedger(c, r, f.orderId);
    }
  }

  lemma HalfFilling(o: OrderRow, f: Fill)
    requires !o.confirmed && (o.status.New? || o.status.Rejected?) && o.filled + f.qty <= o.qty
    requires o.orderId == f.orderId
    ensures var r := Filling(o, f);
            r.error.Some? && r.row.filled == o.filled + f.qty && r.row.orderId == o.orderId
  {
    hide Mean;
  }

  lemma FilledIsLedger(c: Config, e: State, id: OrderId)
    requires Agrees(c, e) && id in e.orders
    ensures e.orders[id].orderId == id && e.orders[id].filled == Sum(e.disk.fills, QtyFor(id))
  {
    hide Replays, Books, Distinct;
  }

  lemma Untouched(c: Config, e: State, f: Fill)
    requires Agrees(c, e) && !Seen(e, f) && !Fits(e, f) && !HalfApplies(e, f)
    ensures OnFill(c, e, f) == (Noted(e, f), Raised) && Agrees(c, Noted(e, f))
  {
    hide Mean, BookStep, PnlStep, Replays, Books;
    if f.orderId in e.orders {
      var o := e.orders[f.orderId];
      assert OrderAgrees(o, e.disk.fills);
      assert Filling(o, f) == Outcome(o, Filling(o, f).error) && Filling(o, f).error.Some?;
      assert e.orders[f.orderId := o] == e.orders;
    }
  }
}
