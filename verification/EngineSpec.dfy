// The engine's steps (app/engine.py) as functions of its state. A step is the region
// between two awaits; whatever runs in between is another step.

module EngineSpec {
  import opened Models
  import opened Sums
  import opened Orders
  import opened Positions
  import opened Settings
  import opened Pnl
  import opened Store
  import opened Idempotency

  datatype State = State(
    orders: map<OrderId, OrderRow>,
    seen: set<ExecId>,
    book: Book,
    entries: Entries,
    registry: Registry,
    disk: Tables,
    marks: map<Symbol, real>)

  const START := State(map[], {}, map[], map[], map[], EMPTY_TABLES, map[])

  datatype Request = Request(symbol: Symbol, side: Side, qty: real, orderType: OrderType, limitPrice: Option<real>,
                             nonce: string) {
    function Key(): Key {
      DeriveKey(symbol, side, qty, orderType, limitPrice, nonce)
    }
  }

  // ----- The oversell guard -----

  function Held(e: State, s: Symbol): real {
    Lookup(e.book, s).basis.qty
  }

  // What one order keeps back from the sellable quantity of a symbol: the rest of an open
  // sell. Counting the provisionally terminal ones too is what the guard does not do.
  function RowReserve(o: OrderRow, s: Symbol, provisional: bool): real {
    if o.symbol == s && o.side.Sell? && (o.status.IsOpen() || (provisional && NeedsConfirmation(o))) then o.Remaining()
    else 0.0
  }

  function ReserveOf(orders: map<OrderId, OrderRow>, s: Symbol, provisional: bool): OrderId -> real {
    (id: OrderId) => if id in orders then RowReserve(orders[id], s, provisional) else 0.0
  }

  ghost function Reserve(orders: map<OrderId, OrderRow>, s: Symbol, provisional: bool): real {
    Over(orders.Keys, ReserveOf(orders, s, provisional))
  }

  // held - _reserved_sells
  ghost function Available(e: State, s: Symbol): real {
    Held(e, s) - Reserve(e.orders, s, false)
  }

  // ----- submit, up to the await -----

  datatype SubmitOutcome =
    | Oversold(available: real)      // OversellError
    | Known(orderId: OrderId)        // the key's existing order is returned
    | Refused                        // the Order constructor raises
    | Unstored                       // the store raises
    | Dispatched(orderId: OrderId)   // the order goes to the broker

  function RequestedRow(req: Request, id: OrderId): OrderRow
    requires req.qty > 0.0
  {
    NewOrder(id, req.symbol, req.side, req.qty, req.orderType, req.limitPrice).(clientId := Some(req.Key()))
  }

  ghost function SubmitBegin(e: State, req: Request, id: OrderId): (State, SubmitOutcome) {
    var looked := if req.side.Sell? then e.(book := Touched(e.book, req.symbol)) else e;
    if req.side.Sell? && req.qty > Available(e, req.symbol) then
      (looked, Oversold(Available(e, req.symbol)))
    else if req.Key() in e.registry then
      (looked, Known(e.registry[req.Key()].orderId))
    else if !Constructible(req.qty, req.orderType, req.limitPrice) then
      (looked, Refused)
    else
      var row := RequestedRow(req, id);
      var held := looked.(registry := Claimed(e.registry, req.Key(), id), orders := e.orders[id := row]);
      if OrderFits(e.disk, row) then (held.(disk := WithOrder(e.disk, row)), Dispatched(id)) else (held, Unstored)
  }

  // ----- Writing one order back -----

  function Stored(e: State, row: OrderRow): State {
    var kept := e.(orders := e.orders[row.orderId := row]);
    if OrderFits(e.disk, row) then kept.(disk := WithOrder(e.disk, row)) else kept
  }

  // ----- submit, after the await -----

  function Acked(row: OrderRow, ack: Ack): Outcome {
    var named := if row.brokerId.None? then row.(brokerId := Some(ack.brokerId)) else row;
    var submitted := if named.status.New? then Submitting(named, ack.brokerId).row else named;
    if ack.status.Cancelled? then Cancelling(submitted, None, false) else Outcome(submitted, None)
  }

  function SubmitAck(e: State, id: OrderId, ack: Ack): State
    requires id in e.orders
  {
    var r := Acked(e.orders[id], ack);
    if r.error.Some? then e.(orders := e.orders[id := r.row])
    else
      var sent := if r.row.clientId.Some? then e.(registry := Sent(e.registry, r.row.clientId.value)) else e;
      Stored(sent, r.row)
  }

  // ----- cancel and confirm_order, after the await -----

  function CancelAck(e: State, id: OrderId, ack: Ack): State
    requires id in e.orders
  {
    var r := if ack.status.Cancelled? then Cancelling(e.orders[id], None, false) else Outcome(e.orders[id], None);
    if r.error.Some? then e.(orders := e.orders[id := r.row]) else Stored(e, r.row)
  }

  function ConfirmAck(e: State, id: OrderId, status: OrderStatus): State
    requires id in e.orders
  {
    Stored(e, Confirming(e.orders[id], status))
  }

  // ----- on_fill, up to the await -----

  datatype FillOutcome = Duplicate | Applied | Raised

  function Noted(e: State, f: Fill): State {
    if f.HasExec() then e.(seen := e.seen + {f.exec.value}) else e
  }

  predicate Seen(e: State, f: Fill) {
    f.HasExec() && f.exec.value in e.seen
  }

  function OnFill(c: Config, e: State, f: Fill): (State, FillOutcome) {
    if Seen(e, f) then (e, Duplicate)
    else if f.orderId !in e.orders then (Noted(e, f), Raised)
    else
      var r := Filling(e.orders[f.orderId], f);
      var taken := Noted(e, f).(orders := e.orders[f.orderId := r.row]);
      if r.error.Some? then (taken, Raised) else Recorded(c, taken, f, r.row)
  }

  // The views follow the order, then the three store transactions.
  function Recorded(c: Config, e: State, f: Fill, row: OrderRow): (State, FillOutcome) {
    var viewed := e.(book := BookStep(e.book, f), entries := PnlStep(c, e.entries, f));
    if !KnowsExec(e.disk, f.exec) && !FillFits(e.disk, f) then (viewed, Raised)
    else
      var ledger := if KnowsExec(e.disk, f.exec) then e.disk else WithFill(e.disk, f);
      if !OrderFits(ledger, row) then (viewed.(disk := ledger), Raised)
      else
        (viewed.(disk := WithPosition(WithOrder(ledger, row), f.symbol, viewed.book[f.symbol])), Applied)
  }

  // ----- load -----

  function BookOf(fs: seq<Fill>): Book {
    if fs == [] then map[] else BookStep(BookOf(fs[..|fs| - 1]), fs[|fs| - 1])
  }

  function EntriesOf(c: Config, fs: seq<Fill>): Entries {
    if fs == [] then map[] else PnlStep(c, EntriesOf(c, fs[..|fs| - 1]), fs[|fs| - 1])
  }

  function ExecsOf(fs: seq<Fill>): set<ExecId> {
    set f | f in fs && f.HasExec() :: f.exec.value
  }

  ghost predicate UniqueClients(orders: map<OrderId, OrderRow>) {
    forall i, j :: i in orders && j in orders && i != j && orders[i].clientId.Some? ==>
      orders[i].clientId != orders[j].clientId
  }

  // Every stored key is claimed again, and taken as sent.
  ghost function ClaimsOf(orders: map<OrderId, OrderRow>): (r: Registry)
    requires UniqueClients(orders)
    ensures forall k :: k in r ==> r[k].orderId in orders && orders[r[k].orderId].clientId == Some(k)
    ensures forall id :: id in orders && orders[id].clientId.Some? ==>
      orders[id].clientId.value in r && r[orders[id].clientId.value] == Claim(id, true)
    decreases |orders|
  {
    if orders == map[] then map[]
    else
      var id :| id in orders;
      var others := orders - {id};
      var rest := ClaimsOf(others);
      assert forall j :: j in orders && j != id ==> j in others && others[j] == orders[j];
      if orders[id].clientId.Some? then rest[orders[id].clientId.value := Claim(id, true)] else rest
  }

  // A fresh engine over what the disk holds.
  ghost function Load(c: Config, disk: Tables): State
    requires UniqueClients(disk.orders)
  {
    var fills := ByTs(disk.fills);
    State(disk.orders, ExecsOf(fills), BookOf(fills), EntriesOf(c, fills), ClaimsOf(disk.orders), disk, map[])
  }
}
