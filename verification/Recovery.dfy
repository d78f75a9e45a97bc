// The other steps, restart, replayed streams and crashes.

module Recovery {
  import opened Models
  import opened Money
  import opened Sums
  import opened CostBasisTheory
  import opened Ledger
  import opened Orders
  import opened Positions
  import opened Settings
  import opened Pnl
  import opened Store
  import opened Idempotency
  import opened EngineSpec
  import opened Views

  // ----- submit, ack, cancel and confirm keep the views together -----

  // Writing back one order whose fill amounts did not change.
  ghost predicate SameAmounts(row: OrderRow, o: OrderRow) {
    && SameIdentity(row, o)
    && row.filled == o.filled && row.fees == o.fees && row.avgPrice == o.avgPrice
    && (row.status.Filled? && !row.confirmed ==> row.filled == row.qty)
  }

  lemma StoredAgrees(c: Config, e: State, row: OrderRow)
    requires Agrees(c, e) && row.orderId in e.orders && SameAmounts(row, e.orders[row.orderId])
    ensures var r := Stored(e, row);
            && Agrees(c, r)
            && r == e.(orders := e.orders[row.orderId := row], disk := r.disk)
            && r.disk == e.disk.(orders := r.orders)
  {
    hide Worth, Sum, Replays, Books;
    KeyedRowFits(e.orders, e.registry, e.disk, row);
    KeyedAfterWrite(e.orders, e.registry, e.disk.orders, row, row);
    forall f | f in e.disk.fills ensures Matches(e.orders[row.orderId := row], f) {
      assert Matches(e.orders, f);
    }
  }

  lemma SubmitAgrees(c: Config, e: State, req: Request, id: OrderId)
    requires Agrees(c, e) && id !in e.orders
    ensures Agrees(c, SubmitBegin(e, req, id).0)
    ensures SubmitBegin(e, req, id).0.disk.fills == e.disk.fills
    ensures !SubmitBegin(e, req, id).1.Unstored?
  {
    hide Agrees, Available, Constructible, RequestedRow, Request.Key, Claimed, OrderFits, WithOrder, Touched;
    var looked := if req.side.Sell? then e.(book := Touched(e.book, req.symbol)) else e;
    TouchedAgrees(c, e, req.symbol);
    if req.Key() !in e.registry && Constructible(req.qty, req.orderType, req.limitPrice) {
      ConstructibleIsSized(req);
      NewOrderAgrees(c, looked, req, id);
      LedgerKept(e.disk, RequestedRow(req, id));
    }
  }

  lemma ConstructibleIsSized(req: Request)
    requires Constructible(req.qty, req.orderType, req.limitPrice)
    ensures req.qty > 0.0
  {
  }

  lemma LedgerKept(t: Tables, row: OrderRow)
    ensures WithOrder(t, row).fills == t.fills
  {
  }

  lemma TouchedAgrees(c: Config, e: State, s: Symbol)
    requires Agrees(c, e)
    ensures Agrees(c, e.(book := Touched(e.book, s)))
  {
    hide Keyed, Replays, Books, OrderAgrees, Distinct, Touched;
    TouchedReplays(e.book, e.disk.fills, s);
  }

  lemma TouchedReplays(book: Book, fs: seq<Fill>, s: Symbol)
    requires Replays(book, fs)
    ensures Replays(Touched(book, s), fs)
  {
    forall t: Symbol ensures Lookup(Touched(book, s), t) == PosRun(fs, t) {
      assert Lookup(book, t) == PosRun(fs, t);
    }
  }

  lemma NewOrderAgrees(c: Config, e: State, req: Request, id: OrderId)
    requires Agrees(c, e) && id !in e.orders && req.Key() !in e.registry
    requires Constructible(req.qty, req.orderType, req.limitPrice)
    ensures var row := RequestedRow(req, id);
            && OrderFits(e.disk, row)
            && Agrees(c, e.(orders := e.orders[id := row], registry := Claimed(e.registry, req.Key(), id),
                            disk := WithOrder(e.disk, row)))
  {
    hide Worth, Replays, Books;
    var row := RequestedRow(req, id);
    var fs := e.disk.fills;
    assert forall f :: f in fs ==> f.orderId != id;
    NoFillsNoSum(fs, id);
    WorthOfZero(0.0);
    assert OrderAgrees(row, fs);
    forall f | f in fs ensures Matches(e.orders[id := row], f) {
      assert Matches(e.orders, f);
    }
    NewOrderKeyed(e.orders, e.registry, e.disk.orders, row);
  }

  lemma NewOrderKeyed(orders: map<OrderId, OrderRow>, registry: Registry, disk: map<OrderId, OrderRow>, row: OrderRow)
    requires Keyed(orders, registry, disk)
    requires row.orderId !in orders && row.clientId.Some? && row.clientId.value !in registry
    ensures forall i :: i in disk ==> disk[i].clientId != row.clientId
    ensures Keyed(orders[row.orderId := row], Claimed(registry, row.clientId.value, row.orderId),
                  disk[row.orderId := row])
  {
    UnknownKeyIsNew(orders, registry, disk, row);
    ClaimedKeyed(orders, registry, disk, row);
  }

  lemma UnknownKeyIsNew(orders: map<OrderId, OrderRow>, registry: Registry, disk: map<OrderId, OrderRow>, row: OrderRow)
    requires Keyed(orders, registry, disk) && row.clientId.Some? && row.clientId.value !in registry
    ensures forall i :: i in disk ==> disk[i].clientId != row.clientId
  {
    forall i | i in disk ensures disk[i].clientId != row.clientId {
      assert SameIdentity(disk[i], orders[i]);
    }
  }

  lemma ClaimedKeyed(orders: map<OrderId, OrderRow>, registry: Registry, disk: map<OrderId, OrderRow>, row: OrderRow)
    requires Keyed(orders, registry, disk)
    requires row.orderId !in orders && row.clientId.Some? && row.clientId.value !in registry
    ensures Keyed(orders[row.orderId := row], Claimed(registry, row.clientId.value, row.orderId),
                  disk[row.orderId := row])
  {
    SameAsItselfIdentified(row);
    hide SameIdentity;
  }

  lemma SameAsItselfIdentified(row: OrderRow)
    ensures SameIdentity(row, row)
  {
  }

  lemma {:induction false} NoFillsNoSum(fs: seq<Fill>, id: OrderId)
    requires forall f :: f in fs ==> f.orderId != id
    ensures Sum(fs, QtyFor(id)) == 0.0 && Sum(fs, FeeFor(id)) == 0.0 && Sum(fs, SpentFor(id)) == 0.0
  {
    if fs != [] {
      NoFillsNoSum(fs[..|fs| - 1], id);
    }
  }

  // An ack that does not raise keeps agreement.
  lemma AckAgrees(c: Config, e: State, id: OrderId, ack: Ack)
    requires Agrees(c, e) && id in e.orders && Acked(e.orders[id], ack).error.None?
    ensures Agrees(c, SubmitAck(e, id, ack))
  {
    hide Worth, Sum, Replays, Books;
    var row := Acked(e.orders[id], ack).row;
    assert OrderAgrees(e.orders[id], e.disk.fills);
    assert SameAmounts(row, e.orders[id]);
    SentAgrees(c, e, row.clientId.value);
    StoredAgrees(c, e.(registry := Sent(e.registry, row.clientId.value)), row);
  }

  // What an ack leaves on its order: the broker's id, if it had none or was new; SUBMITTED if
  // it was new and the ack reports no cancel, CANCELLED on our own word if it does, unless the
  // order cannot be cancelled; and nothing else.
  lemma AckLeaves(o: OrderRow, ack: Ack)
    ensures var r := Acked(o, ack);
            && r.row == o.(status := r.row.status, brokerId := r.row.brokerId)
            && r.row.brokerId == (if o.brokerId == None || o.status == New then Some(ack.brokerId) else o.brokerId)
            && r.row.status == (if ack.status == Cancelled && o.status !in {Filled, Rejected} then Cancelled
                                else if o.status == New then Submitted
                                else o.status)
  {
  }

  // The ack raises: it reports a cancel, and the order is already FILLED or REJECTED.
  predicate AckRefused(o: OrderRow, ack: Ack) {
    ack.status.Cancelled? && ((o.status.Filled? && !o.confirmed) || o.status.Rejected?)
  }

  // An ack parts memory from disk exactly when it raises having been the first to name the
  // order's broker id, which is then not stored.
  lemma AckAgreesExactly(c: Config, e: State, id: OrderId, ack: Ack)
    requires Agrees(c, e) && id in e.orders
    ensures Agrees(c, SubmitAck(e, id, ack)) <==> !AckRefused(e.orders[id], ack) || e.orders[id].brokerId.Some?
    ensures Acked(e.orders[id], ack).error.Some? <==> AckRefused(e.orders[id], ack)
  {
    hide Agrees;
    var o := e.orders[id];
    AckRaises(o, ack);
    if Acked(o, ack).error.None? {
      AckAgrees(c, e, id, ack);
    } else if o.brokerId.Some? {
      assert e.orders[id := o] == e.orders;
    } else {
      SameOnDisk(c, e);
      if Agrees(c, SubmitAck(e, id, ack)) {
        SameOnDisk(c, SubmitAck(e, id, ack));
      }
    }
  }

  lemma AckRaises(o: OrderRow, ack: Ack)
    ensures Acked(o, ack).error.Some? <==> AckRefused(o, ack)
    ensures Acked(o, ack).error.Some? ==>
      Acked(o, ack).row == if o.brokerId.None? then o.(brokerId := Some(ack.brokerId)) else o
  {
  }

  lemma SameOnDisk(c: Config, e: State)
    requires Agrees(c, e)
    ensures e.disk.orders == e.orders
  {
  }

  lemma SentAgrees(c: Config, e: State, key: Key)
    requires Agrees(c, e)
    ensures Agrees(c, e.(registry := Sent(e.registry, key)))
  {
    hide Worth, Sum, Replays, Books, OrderAgrees;
  }

  // Cancelling changes no amounts and, when it raises, nothing at all.
  lemma CancelAgrees(c: Config, e: State, id: OrderId, ack: Ack)
    requires Agrees(c, e) && id in e.orders
    ensures Agrees(c, CancelAck(e, id, ack))
  {
    hide Worth, Sum, Replays, Books;
    var o := e.orders[id];
    assert OrderAgrees(o, e.disk.fills);
    var r := if ack.status.Cancelled? then Cancelling(o, None, false) else Outcome(o, None);
    if r.error.Some? {
      assert r.row == o && e.orders[id := o] == e.orders;
    } else {
      StoredAgrees(c, e, r.row);
    }
  }

  lemma ConfirmAgrees(c: Config, e: State, id: OrderId, status: OrderStatus)
    requires Agrees(c, e) && id in e.orders
    ensures Agrees(c, ConfirmAck(e, id, status))
  {
    hide Worth, Sum, Replays, Books;
    assert OrderAgrees(e.orders[id], e.disk.fills);
    StoredAgrees(c, e, Confirming(e.orders[id], status));
  }

  // ----- Restart -----

  lemma {:induction false} BookOfReplays(fs: seq<Fill>)
    ensures Replays(BookOf(fs), fs)
  {
    if fs != [] {
      BookOfReplays(fs[..|fs| - 1]);
      BookStepReplays(BookOf(fs[..|fs| - 1]), fs[..|fs| - 1], fs[|fs| - 1]);
      assert fs[..|fs| - 1] + [fs[|fs| - 1]] == fs;
    }
  }

  lemma {:induction false} EntriesOfBooks(c: Config, fs: seq<Fill>)
    ensures Books(c, EntriesOf(c, fs), fs)
  {
    if fs != [] {
      EntriesOfBooks(c, fs[..|fs| - 1]);
      PnlStepBooks(c, EntriesOf(c, fs[..|fs| - 1]), fs[..|fs| - 1], fs[|fs| - 1]);
      assert fs[..|fs| - 1] + [fs[|fs| - 1]] == fs;
    }
  }

  lemma ClaimsKeyed(orders: map<OrderId, OrderRow>, registry: Registry, disk: map<OrderId, OrderRow>)
    requires Keyed(orders, registry, disk)
    ensures UniqueClients(disk) && Keyed(disk, ClaimsOf(disk), disk)
    ensures ClaimsOf(disk).Keys == registry.Keys
  {
    KeyedIsUnique(orders, registry, disk);
    forall id | id in disk ensures disk[id].orderId == id && disk[id].clientId.Some? {
      assert SameIdentity(disk[id], orders[id]);
    }
    ClaimsOfKeyed(disk);
    ClaimedKeys(orders, registry, disk, ClaimsOf(disk));
  }

  // Two registries that lead to the same orders have the same keys.
  lemma ClaimedKeys(orders: map<OrderId, OrderRow>, registry: Registry, disk: map<OrderId, OrderRow>, claims: Registry)
    requires Keyed(orders, registry, disk) && Keyed(disk, claims, disk)
    ensures claims.Keys == registry.Keys
  {
    hide Keyed;
    forall k | k in claims ensures k in registry {
      KeyToOrder(disk, claims, disk, k);
      OrderToKey(orders, registry, disk, claims[k].orderId);
    }
    forall k | k in registry ensures k in claims {
      KeyToOrder(orders, registry, disk, k);
      OrderToKey(disk, claims, disk, registry[k].orderId);
    }
  }

  lemma KeyToOrder(orders: map<OrderId, OrderRow>, registry: Registry, disk: map<OrderId, OrderRow>, k: Key)
    requires Keyed(orders, registry, disk) && k in registry
    ensures registry[k].orderId in orders && registry[k].orderId in disk
    ensures disk[registry[k].orderId].clientId == Some(k)
  {
    assert SameIdentity(disk[registry[k].orderId], orders[registry[k].orderId]);
  }

  lemma OrderToKey(orders: map<OrderId, OrderRow>, registry: Registry, disk: map<OrderId, OrderRow>, id: OrderId)
    requires Keyed(orders, registry, disk) && id in disk
    ensures disk[id].clientId.Some? && disk[id].clientId.value in registry
    ensures registry[disk[id].clientId.value].orderId == id
  {
    assert SameIdentity(disk[id], orders[id]);
  }

  lemma ClaimsOfKeyed(disk: map<OrderId, OrderRow>)
    requires UniqueClients(disk) && forall id :: id in disk ==> disk[id].orderId == id && disk[id].clientId.Some?
    ensures Keyed(disk, ClaimsOf(disk), disk)
  {
    hide ClaimsOf, UniqueClients;
  }

  // The engine that load() builds over a ledger written in timestamp order has the views
  // the lost one had: the same orders, ledger, P&L entries and, for every symbol, the same
  // position; and exactly the ledger's executions are known.
  ghost predicate SameViews(c: Config, a: State, b: State) {
    && a.orders == b.orders && a.disk.fills == b.disk.fills && a.entries == b.entries
    && forall s: Symbol :: Lookup(a.book, s) == Lookup(b.book, s)
  }

  lemma LoadAgrees(c: Config, e: State)
    requires Agrees(c, e) && InTsOrder(e.disk.fills)
    ensures UniqueClients(e.disk.orders)
    ensures var r := Load(c, e.disk);
            && Agrees(c, r) && SameViews(c, e, r)
            && r.disk == e.disk && r.seen == ExecsOf(e.disk.fills)
  {
    hide Worth, Sum, OrderAgrees, PosRun, EntryRun;
    var fs := e.disk.fills;
    ByTsOfSorted(fs);
    ClaimsKeyed(e.orders, e.registry, e.disk.orders);
    BookOfReplays(fs);
    EntriesOfBooks(c, fs);
    assert EntriesOf(c, fs) == e.entries by {
      SameEntries(c, EntriesOf(c, fs), e.entries, fs);
    }
    forall s: Symbol ensures Lookup(e.book, s) == Lookup(BookOf(fs), s) {
      assert Lookup(e.book, s) == PosRun(fs, s) && Lookup(BookOf(fs), s) == PosRun(fs, s);
    }
  }

  lemma SameEntries(c: Config, a: Entries, b: Entries, fs: seq<Fill>)
    requires Books(c, a, fs) && Books(c, b, fs)
    ensures a == b
  {
    hide EntryRun;
    forall s | s in a ensures a[s] == b[s] {
      assert EntryOf(c, a, s) == EntryRun(c, fs, s) && EntryOf(c, b, s) == EntryRun(c, fs, s);
    }
  }

  // Loaded out of arrival order, the ledger still gives every symbol its net quantity and,
  // at every mark, its total P&L.
  lemma LoadKeepsTotals(c: Config, e: State, s: Symbol, mark: real)
    requires Agrees(c, e)
    ensures UniqueClients(e.disk.orders)
    ensures var r := Load(c, e.disk);
            && Held(r, s) == Held(e, s)
            && var p, q := Lookup(e.book, s).basis, Lookup(r.book, s).basis;
               MarkedPnl(p.realized, p.avg, p.qty, mark) == MarkedPnl(q.realized, q.avg, q.qty, mark)
    ensures var r := Load(c, e.disk);
            var a, b := EntryOf(c, e.entries, s).basis, EntryOf(c, r.entries, s).basis;
            && a.Qty() == b.Qty()
            && MarkedPnl(a.Realized(), a.AvgCost(), a.Qty(), mark)
                 == MarkedPnl(b.Realized(), b.AvgCost(), b.Qty(), mark)
  {
    hide Worth, Mean, Sum, AvgRun, FifoRun, Symbols, Distinct, EntryOf, Lookup, MarkedPnl, OrderAgrees, Keyed;
    var fs := e.disk.fills;
    var gs := ByTs(fs);
    ByTsSorts(fs);
    KeyedIsUnique(e.orders, e.registry, e.disk.orders);
    ReplayOrder(fs, gs, s, mark);
    BookOfReplays(gs);
    EntriesOfBooks(c, gs);
    assert Lookup(e.book, s) == PosRun(fs, s) && Lookup(BookOf(gs), s) == PosRun(gs, s);
    assert EntryOf(c, e.entries, s) == EntryRun(c, fs, s);
    assert EntryOf(c, EntriesOf(c, gs), s) == EntryRun(c, gs, s);
  }

  // ----- Exactly once, under replay and restart -----

  datatype Item = Delivery(fill: Fill) | Restart

  // What the engine is put through: deliveries, and restarts between them.
  ghost function Through(c: Config, e: State, items: seq<Item>): State {
    if items == [] then e
    else
      var before := Through(c, e, items[..|items| - 1]);
      match items[|items| - 1]
      case Delivery(f) => OnFill(c, before, f).0
      case Restart => if UniqueClients(before.disk.orders) then Load(c, before.disk) else before
  }

  // The stream with restarts, and executions already known or repeated, left out.
  function FirstOccurrences(known: set<ExecId>, items: seq<Item>): seq<Fill> {
    if items == [] then []
    else
      var before := FirstOccurrences(known, items[..|items| - 1]);
      match items[|items| - 1]
      case Restart => before
      case Delivery(f) => if f.HasExec() && f.exec.value in known + ExecsOf(before) then before else before + [f]
  }

  function Deliveries(fs: seq<Fill>): seq<Item> {
    if fs == [] then [] else Deliveries(fs[..|fs| - 1]) + [Delivery(fs[|fs| - 1])]
  }

  lemma ThroughOneMore(c: Config, e: State, items: seq<Item>, item: Item)
    ensures Through(c, e, items + [item])
         == match item
            case Delivery(f) => OnFill(c, Through(c, e, items), f).0
            case Restart =>
              if UniqueClients(Through(c, e, items).disk.orders) then Load(c, Through(c, e, items).disk)
              else Through(c, e, items)
  {
    assert (items + [item])[..|items|] == items;
  }

  // The fills of the plain stream that fit when they are met.
  ghost function Taken(c: Config, e: State, fs: seq<Fill>): seq<Fill> {
    if fs == [] then []
    else
      var before, f := fs[..|fs| - 1], fs[|fs| - 1];
      Taken(c, e, before) + if Fits(Through(c, e, Deliveries(before)), f) then [f] else []
  }

  // No fill of the stream half applies when it is met, and those that fit are whole and not
  // stamped before anything in the ledger. Any may overfill, come after a confirmation, or
  // be of no known order.
  ghost predicate CleanStream(c: Config, e: State, fs: seq<Fill>) {
    fs == [] ||
    var before, f := fs[..|fs| - 1], fs[|fs| - 1];
    var r := Through(c, e, Deliveries(before));
    && CleanStream(c, e, before)
    && !HalfApplies(r, f)
    && (Fits(r, f) ==> Whole(r, f) && forall g :: g in r.disk.fills ==> g.ts <= f.ts)
  }

  predicate SameExecution(a: Item, b: Item) {
    a.Delivery? && b.Delivery? && a.fill.HasExec() && a.fill.exec == b.fill.exec
  }

  // One execution id, one fill.
  ghost predicate Consistent(items: seq<Item>) {
    forall i, j :: 0 <= i < |items| && 0 <= j < |items| && SameExecution(items[i], items[j]) ==> items[i] == items[j]
  }

  // The fill raises and changes nothing but the seen executions, now and ever after.
  predicate Unfit(e: State, f: Fill) {
    f.orderId !in e.orders || e.orders[f.orderId].confirmed
      || e.orders[f.orderId].filled + f.qty > e.orders[f.orderId].qty
  }

  // What replays and restarts leave in common with the plain stream.
  ghost predicate Equivalent(c: Config, a: State, b: State) {
    Agrees(c, a) && Agrees(c, b) && SameViews(c, a, b) && InTsOrder(a.disk.fills)
  }

  // Every fill of the stream is in the ledger or unfit for good.
  ghost predicate Settled(e: State, firsts: seq<Fill>) {
    forall f :: f in firsts ==> f in e.disk.fills || Unfit(e, f)
  }

  // What an engine has seen lies between the ledger's executions and the stream's.
  ghost predicate SeenWithin(a: State, known: set<ExecId>, firsts: seq<Fill>) {
    ExecsOf(a.disk.fills) <= a.seen <= known + ExecsOf(firsts)
  }

  // For any delivered stream with repeated executions, fills that do not fit, and restarts
  // anywhere between deliveries, the engine ends with the orders, ledger, positions and P&L
  // that the stream of first occurrences gives: every one that fit is in the ledger once, in
  // order, and no other ever will be.
  lemma {:induction false} ExactlyOnce(c: Config, e: State, items: seq<Item>)
    requires Agrees(c, e) && InTsOrder(e.disk.fills) && e.seen == ExecsOf(e.disk.fills)
    requires Consistent(items) && CleanStream(c, e, FirstOccurrences(e.seen, items))
    ensures var firsts := FirstOccurrences(e.seen, items);
            var a, plain := Through(c, e, items), Through(c, e, Deliveries(firsts));
            && Equivalent(c, a, plain) && plain.disk.fills == e.disk.fills + Taken(c, e, firsts)
            && Settled(plain, firsts) && SeenWithin(a, e.seen, firsts) && SeenWithin(plain, e.seen, firsts)
  {
    hide Agrees, SameViews, OnFill, Load, Fits, Whole, HalfApplies, ExecsOf, Settled, SeenWithin;
    hide Consistent, Equivalent;
    hide FirstOccurrences, Taken, Deliveries, CleanStream, Through;
    if items == [] {
      SameAsItself(c, e);
      NothingDelivered(c, e);
    } else {
      var before, item := items[..|items| - 1], items[|items| - 1];
      var firsts := FirstOccurrences(e.seen, before);
      var a, b := Through(c, e, before), Through(c, e, Deliveries(firsts));
      ConsistentBefore(items);
      assert items == before + [item];
      ThroughOneMore(c, e, before, item);
      FirstsOneMore(e.seen, before, item);
      match item {
        case Restart =>
          ExactlyOnce(c, e, before);
          RestartKeeps(c, a, b, e.seen, firsts);
        case Delivery(f) =>
          if f.HasExec() && f.exec.value in e.seen + ExecsOf(firsts) {
            ExactlyOnce(c, e, before);
            RepeatedIsKnown(c, e, items);
            RepeatKeeps(c, a, b, e, firsts, f);
          } else {
            StreamOneMore(c, e, firsts, f);
            ExactlyOnce(c, e, before);
            FirstKeeps(c, a, b, e.seen, firsts, f);
            assert e.disk.fills + (Taken(c, e, firsts) + [f]) == e.disk.fills + Taken(c, e, firsts) + [f];
            assert e.disk.fills + (Taken(c, e, firsts) + []) == e.disk.fills + Taken(c, e, firsts) + [];
          }
      }
    }
  }

  lemma NothingDelivered(c: Config, e: State)
    ensures FirstOccurrences(e.seen, []) == [] && Deliveries([]) == [] && Taken(c, e, []) == []
    ensures Through(c, e, []) == e
    ensures e.disk.fills + [] == e.disk.fills
  {
  }

  lemma FirstsOneMore(known: set<ExecId>, items: seq<Item>, item: Item)
    ensures var before := FirstOccurrences(known, items);
            FirstOccurrences(known, items + [item])
              == match item
                 case Restart => before
                 case Delivery(f) =>
                   if f.HasExec() && f.exec.value in known + ExecsOf(before) then before else before + [f]
  {
    assert (items + [item])[..|items|] == items;
  }

  // One more fill of the plain stream.
  lemma StreamOneMore(c: Config, e: State, fs: seq<Fill>, f: Fill)
    ensures var r := Through(c, e, Deliveries(fs));
            && Through(c, e, Deliveries(fs + [f])) == OnFill(c, r, f).0
            && Taken(c, e, fs + [f]) == Taken(c, e, fs) + (if Fits(r, f) then [f] else [])
            && (CleanStream(c, e, fs + [f]) <==>
                  CleanStream(c, e, fs) && !HalfApplies(r, f)
                  && (Fits(r, f) ==> Whole(r, f) && forall g :: g in r.disk.fills ==> g.ts <= f.ts))
  {
    hide OnFill, Fits, Whole, HalfApplies, Through;
    assert (fs + [f])[..|fs|] == fs;
    ThroughOneMore(c, e, Deliveries(fs), Delivery(f));
  }

  lemma ConsistentBefore(items: seq<Item>)
    requires Consistent(items) && items != []
    ensures Consistent(items[..|items| - 1])
  {
  }

  // The first occurrences come from the stream.
  lemma {:induction false} FirstsAreDelivered(known: set<ExecId>, items: seq<Item>)
    ensures forall f :: f in FirstOccurrences(known, items) ==> Delivery(f) in items
  {
    if items != [] {
      FirstsAreDelivered(known, items[..|items| - 1]);
      assert items == items[..|items| - 1] + [items[|items| - 1]];
    }
  }

  // A repeated execution is one of the ledger the stream began with, or the very fill of its
  // first occurrence.
  lemma RepeatedIsKnown(c: Config, e: State, items: seq<Item>)
    requires items != [] && Consistent(items) && items[|items| - 1].Delivery?
    requires var f, firsts := items[|items| - 1].fill, FirstOccurrences(e.seen, items[..|items| - 1]);
             f.HasExec() && f.exec.value in e.seen + ExecsOf(firsts)
    ensures var f, firsts := items[|items| - 1].fill, FirstOccurrences(e.seen, items[..|items| - 1]);
            f.exec.value in e.seen || f in firsts
  {
    var n := |items| - 1;
    var f, firsts := items[n].fill, FirstOccurrences(e.seen, items[..n]);
    if f.exec.value !in e.seen {
      var g :| g in firsts && g.HasExec() && g.exec.value == f.exec.value;
      FirstsAreDelivered(e.seen, items[..n]);
      var i :| 0 <= i < n && items[..n][i] == Delivery(g);
      assert items[i] == Delivery(g) && g.exec == f.exec;
    }
  }

  lemma SameAsItself(c: Config, e: State)
    requires Agrees(c, e) && InTsOrder(e.disk.fills) && e.seen == ExecsOf(e.disk.fills)
    ensures Equivalent(c, e, e) && Settled(e, []) && SeenWithin(e, e.seen, [])
  {
    hide Agrees;
  }

  lemma RestartKeeps(c: Config, a: State, b: State, known: set<ExecId>, firsts: seq<Fill>)
    requires Equivalent(c, a, b) && SeenWithin(a, known, firsts)
    ensures UniqueClients(a.disk.orders) && Equivalent(c, Load(c, a.disk), b)
    ensures SeenWithin(Load(c, a.disk), known, firsts)
  {
    hide Agrees, Load, ExecsOf;
    LoadAgrees(c, a);
  }

  // Delivered again, an execution is not seen only after a restart forgot that it raised;
  // then it raises again.
  lemma RepeatKeeps(c: Config, a: State, b: State, e: State, firsts: seq<Fill>, f: Fill)
    requires Equivalent(c, a, b) && Settled(b, firsts) && SeenWithin(a, e.seen, firsts)
    requires f.HasExec() && f.exec.value in e.seen + ExecsOf(firsts) && (f.exec.value in e.seen || f in firsts)
    requires e.seen == ExecsOf(e.disk.fills) && forall g :: g in e.disk.fills ==> g in b.disk.fills
    ensures Equivalent(c, OnFill(c, a, f).0, b) && SeenWithin(OnFill(c, a, f).0, e.seen, firsts)
  {
    hide Agrees, OnFill, Fits, HalfApplies, Unfit;
    if Seen(a, f) {
      RepeatIsNothing(c, a, f);
    } else {
      NotInLedger(a, f);
      assert f.exec.value !in e.seen;
      SameFitness(a, b, f);
      UnfitRaises(c, a, f);
      NotedViews(c, a, b, f);
    }
  }

  lemma NotInLedger(a: State, f: Fill)
    requires f.HasExec() && !Seen(a, f) && ExecsOf(a.disk.fills) <= a.seen
    ensures f.exec.value !in ExecsOf(a.disk.fills) && f !in a.disk.fills
  {
  }

  lemma SameFitness(a: State, b: State, f: Fill)
    requires a.orders == b.orders
    ensures Unfit(a, f) == Unfit(b, f) && Fits(a, f) == Fits(b, f) && HalfApplies(a, f) == HalfApplies(b, f)
  {
  }

  lemma UnfitIsNeither(e: State, f: Fill)
    ensures Unfit(e, f) <==> !Fits(e, f) && !HalfApplies(e, f)
  {
  }

  lemma UnfitRaises(c: Config, e: State, f: Fill)
    requires Agrees(c, e) && !Seen(e, f) && Unfit(e, f)
    ensures OnFill(c, e, f) == (Noted(e, f), Raised) && Agrees(c, Noted(e, f))
  {
    hide Agrees, OnFill, Unfit, Fits, HalfApplies, Noted;
    UnfitIsNeither(e, f);
    Untouched(c, e, f);
  }

  lemma NotedViews(c: Config, a: State, b: State, f: Fill)
    requires SameViews(c, a, b)
    ensures SameViews(c, Noted(a, f), b) && SameViews(c, Noted(a, f), Noted(b, f))
    ensures Noted(a, f).disk == a.disk && Noted(a, f).orders == a.orders
  {
  }

  // A first occurrence does to both engines the same.
  lemma FirstKeeps(c: Config, a: State, b: State, known: set<ExecId>, firsts: seq<Fill>, f: Fill)
    requires Equivalent(c, a, b) && Settled(b, firsts) && SeenWithin(a, known, firsts) && SeenWithin(b, known, firsts)
    requires f.HasExec() ==> f.exec.value !in known + ExecsOf(firsts)
    requires !HalfApplies(b, f) && (Fits(b, f) ==> Whole(b, f) && forall g :: g in b.disk.fills ==> g.ts <= f.ts)
    ensures var x, y := OnFill(c, a, f).0, OnFill(c, b, f).0;
            && Equivalent(c, x, y) && y.disk.fills == b.disk.fills + (if Fits(b, f) then [f] else [])
            && Settled(y, firsts + [f]) && SeenWithin(x, known, firsts + [f]) && SeenWithin(y, known, firsts + [f])
  {
    hide Agrees, SameViews, OnFill, Unfit, Fits, HalfApplies, Whole, ExecsOf;
    assert a.orders == b.orders && a.disk.fills == b.disk.fills by {
      SameParts(c, a, b);
    }
    SameFitness(a, b, f);
    ExecsOneMore(firsts, f);
    if Fits(b, f) {
      SameWhole(a, b, f);
      TakenKeeps(c, a, b, f);
      SettledAfter(c, b, firsts, f);
      SeenAfter(c, a, b, known, firsts, f);
    } else {
      UnfitIsNeither(b, f);
      UnfitRaises(c, a, f);
      UnfitRaises(c, b, f);
      NotedViews(c, a, b, f);
      NotedViews(c, b, a, f) by { SameBack(c, a, b); }
      SettledStill(b, firsts, f);
    }
  }

  lemma SameParts(c: Config, a: State, b: State)
    requires SameViews(c, a, b)
    ensures a.orders == b.orders && a.disk.fills == b.disk.fills
  {
  }

  lemma SameBack(c: Config, a: State, b: State)
    requires SameViews(c, a, b)
    ensures SameViews(c, b, a)
  {
  }

  lemma SameWhole(a: State, b: State, f: Fill)
    requires a.orders == b.orders && a.disk.fills == b.disk.fills
    ensures Whole(a, f) == Whole(b, f)
  {
  }

  lemma SettledStill(b: State, firsts: seq<Fill>, f: Fill)
    requires Settled(b, firsts) && Unfit(b, f)
    ensures Settled(Noted(b, f), firsts + [f])
  {
  }

  lemma SettledAfter(c: Config, b: State, firsts: seq<Fill>, f: Fill)
    requires Agrees(c, b) && Settled(b, firsts) && Whole(b, f) && !Seen(b, f) && Fits(b, f)
    ensures Settled(OnFill(c, b, f).0, firsts + [f])
  {
    hide Agrees, OnFill, Whole, Filling;
    var y := OnFill(c, b, f).0;
    OnFillApplies(c, b, f);
    FitsTakes(c, b, f);
    var row := Filling(b.orders[f.orderId], f).row;
    RowStaysUnfit(c, b, f);
    forall g | g in firsts + [f] ensures g in y.disk.fills || Unfit(y, g) {
      assert g in firsts || g == f;
      assert g in b.disk.fills ==> g in y.disk.fills;
    }
  }

  lemma RowStaysUnfit(c: Config, b: State, f: Fill)
    requires f.orderId in b.orders
    ensures var o, row := b.orders[f.orderId], Filling(b.orders[f.orderId], f).row;
            row.qty == o.qty && row.filled >= o.filled && row.confirmed == o.confirmed
  {
    hide Mean;
  }

  lemma SeenAfter(c: Config, a: State, b: State, known: set<ExecId>, firsts: seq<Fill>, f: Fill)
    requires Agrees(c, a) && Agrees(c, b) && Whole(a, f) && Whole(b, f) && !Seen(a, f) && !Seen(b, f) && Fits(a, f)
    requires Fits(b, f)
    requires SeenWithin(a, known, firsts) && SeenWithin(b, known, firsts)
    ensures SeenWithin(OnFill(c, a, f).0, known, firsts + [f]) && SeenWithin(OnFill(c, b, f).0, known, firsts + [f])
  {
    hide Agrees, OnFill, Whole, Fits, Filling, BookStep, PnlStep, ExecsOf;
    OnFillApplies(c, a, f);
    OnFillApplies(c, b, f);
    ExecsOneMore(firsts, f);
    ExecsOneMore(a.disk.fills, f);
    ExecsOneMore(b.disk.fills, f);
  }

  lemma TakenKeeps(c: Config, a: State, b: State, f: Fill)
    requires Equivalent(c, a, b) && Whole(a, f) && Whole(b, f) && !Seen(a, f) && !Seen(b, f) && Fits(a, f) && Fits(b, f)
    requires forall g :: g in b.disk.fills ==> g.ts <= f.ts
    ensures Equivalent(c, OnFill(c, a, f).0, OnFill(c, b, f).0)
    ensures OnFill(c, b, f).0.disk.fills == b.disk.fills + [f]
  {
    hide OnFill, Filling, PnlStep, Agrees, BookStep, Fits, Whole;
    OnFillApplies(c, a, f);
    OnFillApplies(c, b, f);
    AppliedAgrees(c, a, f, OnFill(c, a, f).0);
    AppliedAgrees(c, b, f, OnFill(c, b, f).0);
    var fs := a.disk.fills;
    forall s: Symbol ensures Lookup(BookStep(a.book, f), s) == Lookup(BookStep(b.book, f), s) {
      LookupAfter(a.book, f, s);
      LookupAfter(b.book, f, s);
    }
    forall i, j | 0 <= i < j < |fs + [f]| ensures (fs + [f])[i].ts <= (fs + [f])[j].ts {
      assert j == |fs| ==> fs[i] in b.disk.fills;
    }
  }

  lemma LookupAfter(book: Book, f: Fill, s: Symbol)
    ensures Lookup(BookStep(book, f), s) == if s == f.symbol then PosStep(Lookup(book, s), f) else Lookup(book, s)
  {
  }
}
