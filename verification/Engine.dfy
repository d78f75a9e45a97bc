// The engine object (app/engine.py): the order objects, the seen executions, and the four
// components it drives. Each method is the region of a coroutine between two awaits.

module EngineObject {
  import opened Models
  import opened Sums
  import opened Orders
  import opened Positions
  import opened Settings
  import opened Pnl
  import opened Store
  import opened Idempotency
  import opened EngineSpec
  import opened Recovery
  import opened Reconcile

  // ----- What the engine hands to the reconciler -----

  function RowAt(book: Book, s: Symbol): EngineRow {
    EngineRow(s, Positions.Lookup(book, s).basis.qty, Positions.Lookup(book, s).basis.avg)
  }

  // list(self._positions.all()): one row for every position, in some order.
  ghost predicate PositionRows(rows: seq<EngineRow>, book: Book) {
    && (set r | r in rows :: r.symbol) == book.Keys
    && forall i :: 0 <= i < |rows| ==> rows[i] == RowAt(book, rows[i].symbol)
  }

  // Every row is stored under its own id.
  ghost predicate FiledById(orders: map<OrderId, OrderRow>) {
    forall id :: id in orders ==> orders[id].orderId == id
  }

  lemma NothingReserved(none: set<OrderId>, share: OrderId -> real)
    requires none == {}
    ensures Over(none, share) == 0.0
  {
  }

  lemma NothingClaimed(disk: map<OrderId, OrderRow>)
    ensures disk - disk.Keys == map[] && UniqueClients(map[]) && ClaimsOf(map[]) == map[]
  {
  }

  // One more stored order claims its key.
  lemma OneMoreClaim(disk: map<OrderId, OrderRow>, todo: set<OrderId>, id: OrderId)
    requires UniqueClients(disk) && id in todo && todo <= disk.Keys
    ensures var before, after, key := disk - todo, disk - (todo - {id}), disk[id].clientId;
            && UniqueClients(before) && UniqueClients(after) && after == before[id := disk[id]]
            && (key.Some? ==> key.value !in ClaimsOf(before))
            && ClaimsOf(after)
                 == if key.Some? then Sent(Claimed(ClaimsOf(before), key.value, id), key.value) else ClaimsOf(before)
  {
    hide ClaimsOf;
    var before := disk - todo;
    assert disk - (todo - {id}) == before[id := disk[id]];
    ClaimsOfOneMore(before, id, disk[id]);
  }

  lemma ClaimsOfOneMore(before: map<OrderId, OrderRow>, id: OrderId, row: OrderRow)
    requires id !in before && UniqueClients(before) && UniqueClients(before[id := row])
    ensures row.clientId.Some? ==> row.clientId.value !in ClaimsOf(before)
    ensures ClaimsOf(before[id := row])
         == if row.clientId.Some? then Sent(Claimed(ClaimsOf(before), row.clientId.value, id), row.clientId.value)
            else ClaimsOf(before)
  {
    hide ClaimsOf;
    var claims, after := ClaimsOf(before), before[id := row];
    forall k | k in claims ensures Some(k) != row.clientId {
      assert after[claims[k].orderId] == before[claims[k].orderId] && after[id] == row;
    }
  }

  lemma NoExecs()
    ensures ExecsOf([]) == {}
  {
  }

  lemma ExecsOneMore(fs: seq<Fill>)
    requires fs != []
    ensures var before, f := ExecsOf(fs[..|fs| - 1]), fs[|fs| - 1];
            ExecsOf(fs) == if f.HasExec() then before + {f.exec.value} else before
  {
    assert fs == fs[..|fs| - 1] + [fs[|fs| - 1]];
  }

  lemma OneMoreListed(listed: seq<EngineRow>, row: EngineRow)
    ensures (set r | r in listed + [row] :: r.symbol) == (set r | r in listed :: r.symbol) + {row.symbol}
  {
    assert forall r :: r in listed + [row] <==> r in listed || r == row;
  }

  lemma RowNames(o: Order)
    ensures o.Row().orderId == o.orderId && o.Row().clientId == o.clientId
  {
  }

  lemma StepHasSymbol(book: Book, f: Fill)
    ensures f.symbol in BookStep(book, f)
  {
  }

  class Engine {
    const config: Config
    const book: PositionBook
    const pnl: PnlEngine
    const idem: IdempotencyRegistry
    const store: Store
    const reconciler: Reconciler
    var orders: map<OrderId, Order>
    var seen: set<ExecId>
    ghost var rows: map<OrderId, OrderRow>   // what the order objects hold

    ghost predicate Valid()
      reads this, pnl, store, orders.Values
    {
      && rows.Keys == orders.Keys
      && (forall id :: id in orders ==> orders[id].orderId == id && orders[id].Row() == rows[id])
      && pnl.Valid() && pnl.config == config
      && store.txn.None?
      && reconciler.tolerances == config.tolerances
    }

    ghost function View(): (v: State)
      requires Valid()
      reads this, book, pnl, idem, store, orders.Values
      ensures v.orders.Keys == orders.Keys && (forall id :: id in orders ==> v.orders[id].orderId == id)
    {
      State(rows, seen, book.positions, pnl.entries, idem.byKey, store.disk, pnl.marks)
    }

    constructor (config: Config, store: Store)
      requires store.txn.None?
      ensures Valid() && this.config == config && this.store == store
      ensures View() == START.(disk := store.disk)
      ensures fresh(book) && fresh(pnl) && fresh(idem)
    {
      this.config, this.store := config, store;
      orders, seen := map[], {};
      rows := map[];
      book := new PositionBook();
      pnl := new PnlEngine(config);
      idem := new IdempotencyRegistry();
      reconciler := new Reconciler(config.tolerances);
    }

    // ----- The oversell guard -----

    method ReservedSells(s: Symbol) returns (total: real)
      requires Valid()
      ensures total == Reserve(rows, s, false)
    {
      hide Over, ReserveOf;
      ghost var share := ReserveOf(rows, s, false);
      total := 0.0;
      var todo := orders.Keys;
      while todo != {}
        invariant todo <= orders.Keys
        invariant total + Over(todo, share) == Over(orders.Keys, share)
        decreases |todo|
      {
        var id :| id in todo;
        OverPick(todo, share, id);
        var kept := Share(id, s);
        total := total + kept;
        todo := todo - {id};
      }
      NothingReserved(todo, share);
    }

    // What one order adds to the reserved sells.
    method Share(id: OrderId, s: Symbol) returns (share: real)
      requires Valid() && id in orders
      ensures share == ReserveOf(rows, s, false)(id)
    {
      var o := orders[id];
      share := if o.symbol == s && o.side == Sell && o.status.IsOpen() then o.qty - o.filled else 0.0;
      assert rows[id] == o.Row();
    }

    // ----- submit -----

    method SubmitBegin(req: Request, id: OrderId) returns (outcome: SubmitOutcome)
      requires Valid()
      modifies this`orders, this`rows, book, idem, store
      ensures Valid() && (View(), outcome) == EngineSpec.SubmitBegin(old(View()), req, id)
      ensures fresh(orders.Values - old(orders.Values))
    {
      hide Available, Touched, Request.Key, Claimed, OrderFits, WithOrder, Constructible, RequestedRow;
      var oversold := Guard(req);
      if oversold.Some? {
        return Oversold(oversold.value);
      }
      var existing := idem.Get(req.Key());
      if existing.Some? {
        return Known(existing.value.orderId);
      }
      if !Constructible(req.qty, req.orderType, req.limitPrice) {
        return Refused;
      }
      ConstructibleIsSized(req);
      var stored := Hold(req, id);
      outcome := if stored then Dispatched(id) else Unstored;
    }

    // The guard, which looks the position up and so creates it.
    method Guard(req: Request) returns (oversold: Option<real>)
      requires Valid()
      modifies book
      ensures Valid()
      ensures View()
           == if req.side.Sell? then old(View()).(book := Touched(old(View()).book, req.symbol)) else old(View())
      ensures oversold == if req.side.Sell? && req.qty > Available(old(View()), req.symbol)
                          then Some(Available(old(View()), req.symbol)) else None
    {
      hide Reserve;
      if req.side != Sell {
        return None;
      }
      var held := book.Get(req.symbol);
      var reserved := ReservedSells(req.symbol);
      var available := held.basis.qty - reserved;
      oversold := if req.qty > available then Some(available) else None;
    }

    // Reserve the key, then persist: both before the broker is called.
    method Hold(req: Request, id: OrderId) returns (stored: bool)
      requires Valid() && req.Key() !in idem.byKey && Constructible(req.qty, req.orderType, req.limitPrice)
      modifies this`orders, this`rows, idem, store
      ensures Valid() && fresh(orders.Values - old(orders.Values))
      ensures stored == OrderFits(old(store.disk), RequestedRow(req, id))
      ensures View() == old(View()).(registry := Claimed(old(idem.byKey), req.Key(), id),
                                     orders := old(rows)[id := RequestedRow(req, id)],
                                     disk := if stored then WithOrder(old(store.disk), RequestedRow(req, id))
                                             else old(store.disk))
    {
      hide OrderFits, WithOrder, Request.Key, Constructible, RequestedRow, Order.Row, PnlEngine.Valid, Claimed;
      var order := Create(req, id);
      RowNames(order);
      orders := orders[id := order];
      rows := rows[id := order.Row()];
      stored := store.UpsertOrder(order.Row());
    }

    method Create(req: Request, id: OrderId) returns (order: Order)
      requires req.Key() !in idem.byKey && Constructible(req.qty, req.orderType, req.limitPrice)
      modifies idem
      ensures fresh(order) && order.Row() == RequestedRow(req, id) && order.orderId == id
      ensures idem.byKey == Claimed(old(idem.byKey), req.Key(), id)
    {
      hide Request.Key;
      order := new Order(id, req.symbol, req.side, req.qty, req.orderType, req.limitPrice);
      var _ := idem.Reserve(req.Key(), order);
    }

    // _apply_ack
    static method ApplyAck(order: Order, ack: Ack) returns (error: Option<OrderError>)
      modifies order
      ensures Outcome(order.Row(), error) == Acked(old(order.Row()), ack)
    {
      hide Cancelling;
      error := None;
      if order.brokerId.None? {
        order.brokerId := Some(ack.brokerId);
      }
      if order.status == New {
        var _ := order.MarkSubmitted(ack.brokerId);
      }
      if ack.status == Cancelled {
        error := order.MarkCancelled(None, false);
      }
    }

    method TakeAck(id: OrderId, ack: Ack) returns (error: Option<OrderError>)
      requires Valid() && id in orders
      modifies this`rows, orders[id]
      ensures Valid()
      ensures View() == old(View()).(orders := old(View()).orders[id := Acked(old(View()).orders[id], ack).row])
      ensures error == Acked(old(View()).orders[id], ack).error
    {
      hide Acked, Order.Row, PnlEngine.Valid;
      var order := orders[id];
      error := ApplyAck(order, ack);
      rows := rows[id := order.Row()];
    }

    method SubmitAck(id: OrderId, ack: Ack) returns (raised: bool)
      requires Valid() && id in orders
      modifies this`rows, idem, store, orders[id]
      ensures Valid() && View() == EngineSpec.SubmitAck(old(View()), id, ack)
      ensures raised == (Acked(old(View()).orders[id], ack).error.Some?
                         || !OrderFits(old(View()).disk, Acked(old(View()).orders[id], ack).row))
    {
      hide Valid, View, Acked, OrderFits, WithOrder, Sent;
      var error := TakeAck(id, ack);
      if error.Some? {
        return true;
      }
      MarkSent(id);
      raised := Persist(id);
    }

    method MarkSent(id: OrderId)
      requires Valid() && id in orders
      modifies idem
      ensures Valid() && View() == (var e := old(View());
                                    if e.orders[id].clientId.Some?
                                    then e.(registry := Sent(e.registry, e.orders[id].clientId.value))
                                    else e)
    {
      hide Order.Row, PnlEngine.Valid, Sent;
      var order := orders[id];
      RowNames(order);
      if order.clientId.Some? {
        idem.MarkSent(order.clientId.value);
      }
    }

    // upsert_order
    method Persist(id: OrderId) returns (raised: bool)
      requires Valid() && id in orders
      modifies store
      ensures Valid() && View() == (var e := old(View());
                                    if OrderFits(e.disk, e.orders[id]) then e.(disk := WithOrder(e.disk, e.orders[id]))
                                    else e)
      ensures raised == !OrderFits(old(View()).disk, old(View()).orders[id])
    {
      hide Order.Row, PnlEngine.Valid, OrderFits, WithOrder;
      var stored := store.UpsertOrder(orders[id].Row());
      raised := !stored;
    }

    // ----- cancel and confirm_order -----

    method TakeCancel(id: OrderId) returns (error: Option<OrderError>)
      requires Valid() && id in orders
      modifies this`rows, orders[id]
      ensures Valid()
      ensures View()
           == old(View()).(orders := old(View()).orders[id := Cancelling(old(View()).orders[id], None, false).row])
      ensures error == Cancelling(old(View()).orders[id], None, false).error
    {
      hide Cancelling, Order.Row, PnlEngine.Valid;
      var order := orders[id];
      error := order.MarkCancelled(None, false);
      rows := rows[id := order.Row()];
    }

    method CancelAck(id: OrderId, ack: Ack) returns (raised: bool)
      requires Valid() && id in orders
      modifies this`rows, store, orders[id]
      ensures Valid() && View() == EngineSpec.CancelAck(old(View()), id, ack)
      ensures raised == (var o := old(View()).orders[id];
                         var r := if ack.status.Cancelled? then Cancelling(o, None, false) else Outcome(o, None);
                         r.error.Some? || !OrderFits(old(View()).disk, r.row))
    {
      hide Valid, View, Cancelling, OrderFits, WithOrder;
      if ack.status == Cancelled {
        var error := TakeCancel(id);
        if error.Some? {
          return true;
        }
      }
      raised := Persist(id);
    }

    method TakeVerdict(id: OrderId, status: OrderStatus)
      requires Valid() && id in orders
      modifies this`rows, orders[id]
      ensures Valid()
      ensures View() == old(View()).(orders := old(View()).orders[id := Confirming(old(View()).orders[id], status)])
    {
      hide Confirming, Order.Row, PnlEngine.Valid;
      var order := orders[id];
      order.ConfirmTerminal(status);
      rows := rows[id := order.Row()];
    }

    method ConfirmAck(id: OrderId, status: OrderStatus) returns (raised: bool)
      requires Valid() && id in orders
      modifies this`rows, store, orders[id]
      ensures Valid() && View() == EngineSpec.ConfirmAck(old(View()), id, status)
      ensures raised == !OrderFits(old(View()).disk, Confirming(old(View()).orders[id], status))
    {
      hide Valid, View, OrderFits, WithOrder;
      TakeVerdict(id, status);
      raised := Persist(id);
    }

    // ----- on_fill -----

    method OnFill(fill: Fill) returns (outcome: FillOutcome)
      requires Valid()
      modifies this`seen, this`rows, book, pnl, store, orders.Values
      ensures Valid() && (View(), outcome) == EngineSpec.OnFill(config, old(View()), fill)
    {
      hide Valid, View, Filling, Recorded;
      if fill.HasExec() && fill.exec.value in seen {
        SeenIsSeen();
        return Duplicate;
      }
      SeenIsSeen();
      Note(fill);
      if fill.orderId !in orders {
        return Raised;
      }
      var error := TakeFill(fill.orderId, fill);
      if error.Some? {
        return Raised;
      }
      outcome := Record(fill.orderId, fill);
    }

    lemma SeenIsSeen()
      requires Valid()
      ensures View().seen == seen
    {
    }

    method Note(fill: Fill)
      requires Valid()
      modifies this`seen
      ensures Valid() && View() == Noted(old(View()), fill)
    {
      hide Order.Row, PnlEngine.Valid;
      if fill.HasExec() {
        seen := seen + {fill.exec.value};
      }
    }

    method TakeFill(id: OrderId, fill: Fill) returns (error: Option<OrderError>)
      requires Valid() && id in orders
      modifies this`rows, orders[id]
      ensures Valid()
      ensures View() == old(View()).(orders := old(View()).orders[id := Filling(old(View()).orders[id], fill).row])
      ensures error == Filling(old(View()).orders[id], fill).error
    {
      hide Filling, Order.Row, PnlEngine.Valid;
      var order := orders[id];
      error := order.ApplyFill(fill);
      rows := rows[id := order.Row()];
    }

    // The views follow the order, then the three store transactions.
    method Record(id: OrderId, fill: Fill) returns (outcome: FillOutcome)
      requires Valid() && id in orders
      modifies book, pnl, store
      ensures Valid() && (View(), outcome) == Recorded(config, old(View()), fill, old(View()).orders[id])
    {
      hide Valid, View, BookStep, PnlStep, OrderFits, FillFits, KnowsExec, WithOrder, WithFill, WithPosition;
      StepHasSymbol(View().book, fill);
      TakeViews(fill);
      var recorded := RecordFill(fill);
      if recorded.None? {
        return Raised;
      }
      var raised := Persist(id);
      if raised {
        return Raised;
      }
      StorePosition(fill.symbol);
      outcome := Applied;
    }

    method TakeViews(fill: Fill)
      requires Valid()
      modifies book, pnl
      ensures Valid()
      ensures View()
           == old(View()).(book := BookStep(old(View()).book, fill),
                           entries := PnlStep(config, old(View()).entries, fill))
    {
      hide BookStep, PnlStep, Order.Row, PnlEngine.Valid;
      var _ := book.Apply(fill);
      pnl.Apply(fill);
    }

    method RecordFill(fill: Fill) returns (recorded: Option<bool>)
      requires Valid()
      modifies store
      ensures Valid()
      ensures var t := old(View()).disk;
              recorded == if KnowsExec(t, fill.exec) then Some(false)
                          else if FillFits(t, fill) then Some(true) else None
      ensures View()
           == old(View()).(disk := if recorded == Some(true) then WithFill(old(View()).disk, fill)
                                   else old(View()).disk)
    {
      hide Order.Row, PnlEngine.Valid, FillFits, KnowsExec, WithFill;
      recorded := store.RecordFill(fill);
    }

    method StorePosition(s: Symbol)
      requires Valid() && s in View().book
      modifies book, store
      ensures Valid() && View() == old(View()).(disk := WithPosition(old(View()).disk, s, old(View()).book[s]))
    {
      hide Order.Row, PnlEngine.Valid, WithPosition;
      var p := book.Get(s);
      store.UpsertPosition(s, p);
    }

    // ----- load -----

    // On a fresh engine over a disk another one left.
    method Load()
      requires Valid() && View() == START.(disk := store.disk)
      requires FiledById(store.disk.orders) && UniqueClients(store.disk.orders)
      modifies this, book, pnl, idem
      ensures Valid() && View() == EngineSpec.Load(config, store.disk)
    {
      LoadOrders();
      LoadFills();
    }

    method LoadOrders()
      requires Valid() && rows == map[] && idem.byKey == map[]
      requires FiledById(store.disk.orders) && UniqueClients(store.disk.orders)
      modifies this`orders, this`rows, idem
      ensures Valid() && rows == store.disk.orders && idem.byKey == ClaimsOf(store.disk.orders)
    {
      hide ClaimsOf, UniqueClients, Valid, Sent, Claimed;
      var disk := store.disk.orders;
      var todo := disk.Keys;
      NothingClaimed(disk);
      while todo != {}
        invariant todo <= disk.Keys
        invariant Valid()
        invariant rows == disk - todo && UniqueClients(rows) && idem.byKey == ClaimsOf(rows)
        decreases |todo|
      {
        var id :| id in todo;
        OneMoreClaim(disk, todo, id);
        AddOrder(disk[id]);
        todo := todo - {id};
      }
      assert disk - todo == disk;
    }

    method AddOrder(row: OrderRow)
      requires Valid() && (row.clientId.Some? ==> row.clientId.value !in idem.byKey)
      modifies this`orders, this`rows, idem
      ensures Valid() && rows == old(rows)[row.orderId := row]
      ensures idem.byKey == if row.clientId.None? then old(idem.byKey)
                            else Sent(Claimed(old(idem.byKey), row.clientId.value, row.orderId), row.clientId.value)
    {
      hide Order.Row, PnlEngine.Valid, Sent, Claimed;
      var order := LoadOrder(row);
      orders := orders[row.orderId := order];
      rows := rows[row.orderId := row];
    }

    method LoadOrder(row: OrderRow) returns (order: Order)
      requires row.clientId.Some? ==> row.clientId.value !in idem.byKey
      modifies idem
      ensures fresh(order) && order.Row() == row && order.orderId == row.orderId
      ensures idem.byKey == if row.clientId.None? then old(idem.byKey)
                            else Sent(Claimed(old(idem.byKey), row.clientId.value, row.orderId), row.clientId.value)
    {
      order := new Order.FromRow(row);
      if order.clientId.Some? {
        var _ := idem.Reserve(order.clientId.value, order);
        idem.MarkSent(order.clientId.value);
      }
    }

    method LoadFills()
      requires Valid() && seen == {} && book.positions == map[] && pnl.entries == map[]
      modifies this`seen, book, pnl
      ensures Valid() && seen == ExecsOf(ByTs(store.disk.fills))
      ensures book.positions == BookOf(ByTs(store.disk.fills))
      ensures pnl.entries == EntriesOf(config, ByTs(store.disk.fills))
      ensures pnl.marks == old(pnl.marks)
    {
      hide BookStep, PnlStep, ExecsOf, ByTs;
      var fills := store.LoadFills();
      NoExecs();
      for i := 0 to |fills|
        invariant Valid() && pnl.marks == old(pnl.marks)
        invariant seen == ExecsOf(fills[..i]) && book.positions == BookOf(fills[..i])
        invariant pnl.entries == EntriesOf(config, fills[..i])
      {
        assert fills[..i + 1][..i] == fills[..i];
        ExecsOneMore(fills[..i + 1]);
        LoadFill(fills[i]);
      }
      assert fills[..|fills|] == fills;
    }

    method LoadFill(fill: Fill)
      requires Valid()
      modifies this`seen, book, pnl
      ensures Valid() && pnl.marks == old(pnl.marks)
      ensures seen == if fill.HasExec() then old(seen) + {fill.exec.value} else old(seen)
      ensures book.positions == BookStep(old(book.positions), fill)
      ensures pnl.entries == PnlStep(config, old(pnl.entries), fill)
    {
      hide BookStep, PnlStep, Order.Row, PnlEngine.Valid;
      if fill.HasExec() {
        seen := seen + {fill.exec.value};
      }
      var _ := book.Apply(fill);
      pnl.Apply(fill);
    }

    // ----- reconcile -----

    method PositionList() returns (listed: seq<EngineRow>)
      ensures PositionRows(listed, book.positions)
    {
      listed := [];
      var todo := book.positions.Keys;
      while todo != {}
        invariant todo <= book.positions.Keys
        invariant (set r | r in listed :: r.symbol) == book.positions.Keys - todo
        invariant forall i :: 0 <= i < |listed| ==> listed[i] == RowAt(book.positions, listed[i].symbol)
        decreases |todo|
      {
        var s :| s in todo;
        var row := RowAt(book.positions, s);
        OneMoreListed(listed, row);
        listed := listed + [row];
        todo := todo - {s};
      }
    }

    // The positions and P&L lines handed over are those of the engine's state.
    method OnBrokerSnapshot(snap: Snapshot) returns (r: Result)
      requires Valid()
      ensures exists listed, lines, order ::
        && PositionRows(listed, book.positions) && Reports(lines, pnl.marks, pnl.entries)
        && IsReconciled(InputsOf(listed, lines, snap), order, config.tolerances, r)
    {
      hide PositionRows, Reports, IsReconciled, InputsOf;
      var positions := PositionList();
      var report := pnl.Report();
      r := reconciler.Reconcile(positions, report, snap);
    }
  }
}
