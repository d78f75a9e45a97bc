// Whole runs of the engine against any broker: every interleaving of its steps, with
// restarts between them and crashes inside them.

module EngineRuns {
  import opened Models
  import opened Money
  import opened Orders
  import opened Positions
  import opened Settings
  import opened Pnl
  import opened Store
  import opened Idempotency
  import opened EngineSpec
  import opened Views
  import opened Recovery

  datatype Event =
    | SubmitOrder(req: Request, newId: OrderId)
    | SubmitCrash(crashReq: Request, crashId: OrderId, committed: bool)   // before the broker is called
    | BrokerAck(ackId: OrderId, ack: Ack)
    | FillArrives(fill: Fill)
    | FillCrash(crashFill: Fill, commits: nat)                            // after that many of three commits
    | CancelReply(cancelId: OrderId, cancelAck: Ack)
    | ConfirmReply(confirmId: OrderId, verdict: OrderStatus)
    | MarkMoves(symbol: Symbol, price: real)
    | Restarts

  ghost function Restarted(c: Config, e: State, disk: Tables): State {
    if UniqueClients(disk.orders) then Load(c, disk) else e
  }

  // The disk after the first commits of a fill.
  function CommittedDisk(c: Config, e: State, f: Fill, commits: nat): Tables {
    if !OnFill(c, e, f).1.Applied? || commits == 0 then e.disk
    else
      var ledger := if KnowsExec(e.disk, f.exec) then e.disk else WithFill(e.disk, f);
      if commits == 1 then ledger
      else if commits == 2 then WithOrder(ledger, OnFill(c, e, f).0.orders[f.orderId])
      else OnFill(c, e, f).0.disk
  }

  // A step for an order the engine does not know raises KeyError and changes nothing; new
  // ids are fresh.
  ghost function Step(c: Config, e: State, ev: Event): State {
    match ev
    case SubmitOrder(req, id) => if id in e.orders then e else SubmitBegin(e, req, id).0
    case SubmitCrash(req, id, committed) =>
      if id in e.orders then e
      else Restarted(c, e, if committed then SubmitBegin(e, req, id).0.disk else e.disk)
    case BrokerAck(id, ack) => if id in e.orders then SubmitAck(e, id, ack) else e
    case FillArrives(f) => OnFill(c, e, f).0
    case FillCrash(f, commits) => Restarted(c, e, CommittedDisk(c, e, f, commits))
    case CancelReply(id, ack) => if id in e.orders then CancelAck(e, id, ack) else e
    case ConfirmReply(id, status) => if id in e.orders then ConfirmAck(e, id, status) else e
    case MarkMoves(s, p) => e.(marks := e.marks[s := p])
    case Restarts => Restarted(c, e, e.disk)
  }

  // The key a step sends to the broker, if it sends one.
  ghost function DispatchOf(e: State, ev: Event): seq<Key> {
    if ev.SubmitOrder? && ev.newId !in e.orders && SubmitBegin(e, ev.req, ev.newId).1.Dispatched? then [ev.req.Key()]
    else []
  }

  ghost function Run(c: Config, evs: seq<Event>): State {
    if evs == [] then START else Step(c, Run(c, evs[..|evs| - 1]), evs[|evs| - 1])
  }

  ghost function Dispatches(c: Config, evs: seq<Event>): seq<Key> {
    if evs == [] then []
    else Dispatches(c, evs[..|evs| - 1]) + DispatchOf(Run(c, evs[..|evs| - 1]), evs[|evs| - 1])
  }

  // ----- At most one dispatch per key -----

  ghost predicate KeyedState(e: State) {
    Keyed(e.orders, e.registry, e.disk.orders)
  }

  lemma StoredKeyed(e: State, row: OrderRow)
    requires KeyedState(e) && row.orderId in e.orders && SameIdentity(row, e.orders[row.orderId])
    ensures KeyedState(Stored(e, row)) && Stored(e, row).registry == e.registry
    ensures Stored(e, row).disk.orders == e.disk.orders[row.orderId := row]
  {
    KeyedRowFits(e.orders, e.registry, e.disk, row);
    KeyedAfterWrite(e.orders, e.registry, e.disk.orders, row, row);
  }

  lemma OwnRow(e: State, id: OrderId)
    requires KeyedState(e) && id in e.orders
    ensures e.orders[id].orderId == id && e.orders[id].clientId.Some? && e.orders[id].clientId.value in e.registry
    ensures id in e.disk.orders && SameIdentity(e.disk.orders[id], e.orders[id])
  {
  }

  lemma RowKeyed(e: State, row: OrderRow)
    requires KeyedState(e) && row.orderId in e.orders && SameIdentity(row, e.orders[row.orderId])
    ensures KeyedState(e.(orders := e.orders[row.orderId := row]))
  {
    OwnRow(e, row.orderId);
    KeyedAfterWrite(e.orders, e.registry, e.disk.orders, row, e.disk.orders[row.orderId]);
  }

  lemma SubmitKeyed(e: State, req: Request, id: OrderId)
    requires KeyedState(e) && id !in e.orders
    ensures var r := SubmitBegin(e, req, id);
            && KeyedState(r.0) && e.registry.Keys <= r.0.registry.Keys
            && (r.1.Dispatched? ==> req.Key() !in e.registry && req.Key() in r.0.registry)
            && r.1 != Unstored
  {
    hide Keyed, Available;
    if req.Key() !in e.registry && Constructible(req.qty, req.orderType, req.limitPrice) {
      NewOrderKeyed(e.orders, e.registry, e.disk.orders, RequestedRow(req, id));
      assert id !in e.disk.orders by {
        DiskKnows(e);
      }
    }
  }

  lemma DiskKnows(e: State)
    requires KeyedState(e)
    ensures e.disk.orders.Keys == e.orders.Keys
  {
  }

  lemma AckKeyed(e: State, id: OrderId, ack: Ack)
    requires KeyedState(e) && id in e.orders
    ensures KeyedState(SubmitAck(e, id, ack)) && SubmitAck(e, id, ack).registry.Keys == e.registry.Keys
  {
    hide Keyed, OrderFits, WrittenRow, Acked, SameIdentity, Stored;
    OwnRow(e, id);
    AckedKeepsIdentity(e.orders[id], ack);
    var r := Acked(e.orders[id], ack);
    RowKeyed(e, r.row);
    SentKeyed(e, r.row.clientId.value);
    if r.error.None? {
      StoredKeyed(e.(registry := Sent(e.registry, r.row.clientId.value)), r.row);
    }
  }

  lemma AckedKeepsIdentity(o: OrderRow, ack: Ack)
    ensures var row := Acked(o, ack).row;
            SameIdentity(row, o) && row.orderId == o.orderId && row.clientId == o.clientId
  {
  }

  lemma SentKeyed(e: State, key: Key)
    requires KeyedState(e)
    ensures KeyedState(e.(registry := Sent(e.registry, key)))
  {
    hide SameIdentity;
    assert Sent(e.registry, key).Keys == e.registry.Keys;
    assert forall k :: k in e.registry ==> Sent(e.registry, key)[k].orderId == e.registry[k].orderId;
  }

  lemma CancelKeyed(e: State, id: OrderId, ack: Ack)
    requires KeyedState(e) && id in e.orders
    ensures KeyedState(CancelAck(e, id, ack)) && CancelAck(e, id, ack).registry == e.registry
  {
    hide Keyed, Cancelling, Stored, SameIdentity;
    OwnRow(e, id);
    CancellingKeepsIdentity(e.orders[id]);
    var r := if ack.status.Cancelled? then Cancelling(e.orders[id], None, false) else Outcome(e.orders[id], None);
    RowKeyed(e, r.row);
    StoredKeyed(e, r.row);
  }

  lemma CancellingKeepsIdentity(o: OrderRow)
    ensures SameIdentity(o, o) && SameIdentity(Cancelling(o, None, false).row, o)
    ensures Cancelling(o, None, false).row.orderId == o.orderId
  {
  }

  lemma ConfirmKeyed(e: State, id: OrderId, status: OrderStatus)
    requires KeyedState(e) && id in e.orders
    ensures KeyedState(ConfirmAck(e, id, status)) && ConfirmAck(e, id, status).registry == e.registry
  {
    hide Keyed, OrderFits, WrittenRow;
    OwnRow(e, id);
    StoredKeyed(e, Confirming(e.orders[id], status));
  }

  // A fill writes no row but its own order's, and that with its identity.
  ghost predicate OnlyOwnRow(e: State, f: Fill, d: Tables) {
    || d.orders == e.disk.orders
    || (f.orderId in e.orders && d.orders == e.disk.orders[f.orderId := Filling(e.orders[f.orderId], f).row])
  }

  lemma FillKeyed(c: Config, e: State, f: Fill, commits: nat)
    requires KeyedState(e)
    ensures KeyedState(OnFill(c, e, f).0) && OnFill(c, e, f).0.registry == e.registry
    ensures OnlyOwnRow(e, f, OnFill(c, e, f).0.disk) && OnlyOwnRow(e, f, CommittedDisk(c, e, f, commits))
    ensures f.orderId in e.orders ==> SameIdentity(Filling(e.orders[f.orderId], f).row, e.orders[f.orderId])
  {
    hide Keyed, OnFill, CommittedDisk, Filling;
    if f.orderId in e.orders {
      OwnRow(e, f.orderId);
      var row := Filling(e.orders[f.orderId], f).row;
      FillingKeepsIdentity(e.orders[f.orderId], f);
      RowKeyed(e, row);
      KeyedAfterWrite(e.orders, e.registry, e.disk.orders, row, row);
      OnFillWrites(c, e, f);
      CommitsWrite(c, e, f, commits);
    } else {
      NoOrderNoWrite(c, e, f, commits);
    }
  }

  lemma NoOrderNoWrite(c: Config, e: State, f: Fill, commits: nat)
    requires f.orderId !in e.orders
    ensures OnFill(c, e, f).0 in {e, Noted(e, f)} && CommittedDisk(c, e, f, commits) == e.disk
  {
  }

  lemma OnFillWrites(c: Config, e: State, f: Fill)
    requires KeyedState(e) && f.orderId in e.orders
    ensures var r, row := OnFill(c, e, f).0, Filling(e.orders[f.orderId], f).row;
            && r.registry == e.registry
            && ((r.orders == e.orders && r.disk == e.disk)
                || (r.orders == e.orders[f.orderId := row]
                    && (r.disk.orders == e.disk.orders || r.disk.orders == e.disk.orders[f.orderId := row])))
  {
    hide Keyed, Recorded, Filling, WrittenRow;
    var row := Filling(e.orders[f.orderId], f).row;
    RowWrites(e, f);
    RecordedWrites(c, Noted(e, f).(orders := e.orders[f.orderId := row]), f, row);
  }

  lemma RecordedWrites(c: Config, e: State, f: Fill, row: OrderRow)
    ensures var r := Recorded(c, e, f, row).0;
            && r.registry == e.registry && r.orders == e.orders
            && (r.disk.orders == e.disk.orders
                || r.disk.orders == e.disk.orders[row.orderId := WrittenRow(e.disk, row)])
  {
    hide BookStep, PnlStep, OrderFits, FillFits, KnowsExec;
    BookStepHas(e.book, f);
  }

  // An order row is written whole, over its own.
  lemma RowWrites(e: State, f: Fill)
    requires KeyedState(e) && f.orderId in e.orders
    ensures var row := Filling(e.orders[f.orderId], f).row;
            && row.orderId == f.orderId
            && WrittenRow(e.disk, row) == row && WrittenRow(WithFill(e.disk, f), row) == row
  {
    hide Keyed, Filling;
    OwnRow(e, f.orderId);
    FillingKeepsIdentity(e.orders[f.orderId], f);
    var row := Filling(e.orders[f.orderId], f).row;
    KeyedRowFits(e.orders, e.registry, e.disk, row);
    KeyedRowFits(e.orders, e.registry, WithFill(e.disk, f), row);
  }

  lemma CommitsWrite(c: Config, e: State, f: Fill, commits: nat)
    requires KeyedState(e) && f.orderId in e.orders
    ensures OnlyOwnRow(e, f, CommittedDisk(c, e, f, commits))
  {
    hide Keyed, OrderFits, FillFits, KnowsExec, Filling, WrittenRow, OnFill;
    RowWrites(e, f);
    OnFillWrites(c, e, f);
    AppliedRow(c, e, f);
  }

  lemma AppliedRow(c: Config, e: State, f: Fill)
    ensures OnFill(c, e, f).1.Applied? ==>
      f.orderId in e.orders && OnFill(c, e, f).0.orders == e.orders[f.orderId := Filling(e.orders[f.orderId], f).row]
  {
    hide Recorded, Filling;
    if f.orderId in e.orders {
      RecordedWrites(c, Noted(e, f).(orders := e.orders[f.orderId := Filling(e.orders[f.orderId], f).row]), f,
                     Filling(e.orders[f.orderId], f).row);
    }
  }

  lemma FillingKeepsIdentity(o: OrderRow, f: Fill)
    ensures SameIdentity(Filling(o, f).row, o)
  {
    hide Mean;
  }

  // Whatever a crash left on disk, the restart knows the same keys.
  lemma RestartKeyed(c: Config, e: State, d: Tables)
    requires Keyed(e.orders, e.registry, d.orders)
    ensures UniqueClients(d.orders) && KeyedState(Restarted(c, e, d))
    ensures Restarted(c, e, d).registry.Keys == e.registry.Keys
  {
    hide Keyed;
    ClaimsKeyed(e.orders, e.registry, d.orders);
  }

  lemma OwnRowKeyed(e: State, f: Fill, d: Tables)
    requires KeyedState(e) && OnlyOwnRow(e, f, d)
    requires f.orderId in e.orders ==> SameIdentity(Filling(e.orders[f.orderId], f).row, e.orders[f.orderId])
    ensures Keyed(e.orders, e.registry, d.orders)
  {
    hide Filling;
  }

  lemma StepKeyed(c: Config, e: State, ev: Event)
    requires KeyedState(e)
    ensures var r := Step(c, e, ev);
            && KeyedState(r) && e.registry.Keys <= r.registry.Keys
            && forall k :: k in DispatchOf(e, ev) ==> k !in e.registry && k in r.registry
  {
    hide Keyed, SubmitBegin, SubmitAck, OnFill, CancelAck, ConfirmAck, Restarted, CommittedDisk, OnlyOwnRow;
    match ev {
      case SubmitOrder(req, id) =>
        if id !in e.orders {
          SubmitKeyed(e, req, id);
        }
      case SubmitCrash(req, id, committed) =>
        if id !in e.orders {
          SubmitKeyed(e, req, id);
          if committed {
            var r := SubmitBegin(e, req, id).0;
            RestartKeyed(c, r, r.disk);
            RestartedIs(c, e, r, r.disk);
          } else {
            RestartKeyed(c, e, e.disk);
          }
        }
      case BrokerAck(id, ack) =>
        if id in e.orders {
          AckKeyed(e, id, ack);
        }
      case FillArrives(f) =>
        FillKeyed(c, e, f, 0);
      case FillCrash(f, commits) =>
        FillKeyed(c, e, f, commits);
        OwnRowKeyed(e, f, CommittedDisk(c, e, f, commits));
        RestartKeyed(c, e, CommittedDisk(c, e, f, commits));
      case CancelReply(id, ack) =>
        if id in e.orders {
          CancelKeyed(e, id, ack);
        }
      case ConfirmReply(id, status) =>
        if id in e.orders {
          ConfirmKeyed(e, id, status);
        }
      case MarkMoves(_, _) =>
      case Restarts =>
        RestartKeyed(c, e, e.disk);
    }
  }

  lemma RestartedIs(c: Config, a: State, b: State, d: Tables)
    requires UniqueClients(d.orders)
    ensures Restarted(c, a, d) == Restarted(c, b, d)
  {
  }

  ghost predicate NoRepeats(ks: seq<Key>) {
    forall i, j :: 0 <= i < j < |ks| ==> ks[i] != ks[j]
  }

  // Over every run, with restarts and crashes: no key is sent to the broker twice, a sent
  // key stays known, every known key leads to one order the engine has, and no two orders
  // share a key.
  lemma {:induction false} AtMostOnce(c: Config, evs: seq<Event>)
    ensures var ks, e := Dispatches(c, evs), Run(c, evs);
            && KeyedState(e)
            && NoRepeats(ks)
            && (forall k :: k in ks ==> k in e.registry)
            && (forall k :: k in e.registry ==>
                  e.registry[k].orderId in e.orders && e.orders[e.registry[k].orderId].clientId == Some(k))
            && (forall i, j :: i in e.orders && j in e.orders && i != j ==>
                  e.orders[i].clientId != e.orders[j].clientId)
  {
    hide Step, DispatchOf;
    if evs == [] {
    } else {
      AtMostOnce(c, evs[..|evs| - 1]);
      var e, ev := Run(c, evs[..|evs| - 1]), evs[|evs| - 1];
      StepKeyed(c, e, ev);
      AtMostOneKey(e, ev);
      OneMoreKey(Dispatches(c, evs[..|evs| - 1]), DispatchOf(e, ev), e.registry.Keys);
    }
    var r := Run(c, evs);
    KeyedIsUnique(r.orders, r.registry, r.disk.orders);
  }

  lemma OneMoreKey(ks: seq<Key>, d: seq<Key>, known: set<Key>)
    requires NoRepeats(ks)
    requires |d| <= 1 && (forall k :: k in ks ==> k in known) && (forall k :: k in d ==> k !in known)
    ensures NoRepeats(ks + d)
  {
    if |d| == 1 {
      assert d[0] in d;
    }
  }

  lemma AtMostOneKey(e: State, ev: Event)
    ensures |DispatchOf(e, ev)| <= 1
  {
  }

  // ----- Confirmed is final, across restarts -----

  predicate SameFigures(a: OrderRow, b: OrderRow) {
    && a.confirmed && b.confirmed && a.status.IsTerminal() && b.status.IsTerminal()
    && a.filled == b.filled && a.avgPrice == b.avgPrice && a.fees == b.fees
  }

  predicate SameVerdict(a: OrderRow, b: OrderRow) {
    SameFigures(a, b) && a.status == b.status
  }

  // The status an event leaves on a confirmed order: only another terminal verdict on it
  // changes it.
  function VerdictOf(ev: Event, id: OrderId, status: OrderStatus): OrderStatus {
    if ev.ConfirmReply? && ev.confirmId == id && ev.verdict.IsTerminal() then ev.verdict else status
  }

  // The disk has every confirmation the engine has, with the same verdict and amounts, and
  // no other.
  ghost predicate VerdictsSaved(orders: map<OrderId, OrderRow>, disk: map<OrderId, OrderRow>) {
    && disk.Keys == orders.Keys
    && forall id :: id in orders ==>
         if orders[id].confirmed then SameVerdict(disk[id], orders[id]) else !disk[id].confirmed
  }

  // A row that may replace another without touching a confirmation.
  ghost predicate KeepsVerdict(o: OrderRow, row: OrderRow) {
    if o.confirmed then SameVerdict(row, o) else !row.confirmed
  }

  lemma VerdictsAfterWrite(orders: map<OrderId, OrderRow>, disk: map<OrderId, OrderRow>, row: OrderRow)
    requires VerdictsSaved(orders, disk) && row.orderId in orders
    requires row.confirmed ==> row.status.IsTerminal()
    ensures VerdictsSaved(orders[row.orderId := row], disk[row.orderId := row])
    ensures KeepsVerdict(orders[row.orderId], row) ==> VerdictsSaved(orders[row.orderId := row], disk)
    ensures KeepsVerdict(orders[row.orderId], row) ==> VerdictsSaved(orders, disk[row.orderId := row])
  {
  }

  lemma FillingKeepsVerdict(o: OrderRow, f: Fill)
    requires o.confirmed ==> o.status.IsTerminal()
    ensures KeepsVerdict(o, Filling(o, f).row)
  {
    hide Mean;
  }

  // A step's effect on confirmations: none is lost, none altered but by another terminal
  // verdict, and none gained but by a terminal verdict on that very order, which it then has.
  ghost predicate VerdictsKept(orders: map<OrderId, OrderRow>, ev: Event, after: map<OrderId, OrderRow>) {
    && orders.Keys <= after.Keys
    && (forall id :: id in orders && orders[id].confirmed ==>
          SameFigures(after[id], orders[id]) && after[id].status == VerdictOf(ev, id, orders[id].status))
    && (forall id :: id in after && after[id].confirmed && !(id in orders && orders[id].confirmed) ==>
          ev.ConfirmReply? && ev.confirmId == id && ev.verdict.IsTerminal() && after[id].status == ev.verdict)
  }

  ghost predicate SoundVerdicts(e: State) {
    KeyedState(e) && VerdictsSaved(e.orders, e.disk.orders)
  }

  ghost predicate KeepsVerdicts(e: State, ev: Event, r: State) {
    VerdictsKept(e.orders, ev, r.orders) && VerdictsSaved(r.orders, r.disk.orders)
  }

  lemma ConfirmedIsTerminal(e: State, id: OrderId)
    requires SoundVerdicts(e) && id in e.orders
    ensures e.orders[id].confirmed ==> e.orders[id].status.IsTerminal()
  {
  }

  lemma WriteKeepsVerdicts(orders: map<OrderId, OrderRow>, disk: map<OrderId, OrderRow>, row: OrderRow, ev: Event)
    requires VerdictsSaved(orders, disk) && row.orderId in orders && KeepsVerdict(orders[row.orderId], row)
    requires !ev.ConfirmReply?
    ensures VerdictsKept(orders, ev, orders[row.orderId := row])
  {
  }

  lemma StoredVerdicts(e: State, row: OrderRow, ev: Event)
    requires SoundVerdicts(e) && row.orderId in e.orders && SameIdentity(row, e.orders[row.orderId])
    requires KeepsVerdict(e.orders[row.orderId], row) && !ev.ConfirmReply?
    ensures KeepsVerdicts(e, ev, Stored(e, row))
    ensures KeepsVerdicts(e, ev, e.(orders := e.orders[row.orderId := row]))
  {
    hide Keyed, OrderFits, WrittenRow, VerdictsSaved, VerdictsKept, SameIdentity;
    StoredKeyed(e, row);
    VerdictsAfterWrite(e.orders, e.disk.orders, row);
    WriteKeepsVerdicts(e.orders, e.disk.orders, row, ev);
  }

  lemma AckVerdicts(e: State, id: OrderId, ack: Ack, ev: Event)
    requires SoundVerdicts(e) && id in e.orders && !ev.ConfirmReply?
    ensures KeepsVerdicts(e, ev, SubmitAck(e, id, ack))
  {
    hide Keyed, Stored, VerdictsSaved, VerdictsKept;
    OwnRow(e, id);
    ConfirmedIsTerminal(e, id);
    var r := Acked(e.orders[id], ack);
    KeepsAck(e.orders[id], ack);
    var sent := e.(registry := Sent(e.registry, r.row.clientId.value));
    SentKeyed(e, r.row.clientId.value);
    StoredVerdicts(e, r.row, ev);
    StoredVerdicts(sent, r.row, ev);
  }

  lemma KeepsAck(o: OrderRow, ack: Ack)
    requires o.confirmed ==> o.status.IsTerminal()
    ensures KeepsVerdict(o, Acked(o, ack).row) && SameIdentity(o, Acked(o, ack).row)
  {
  }

  lemma ConfirmVerdicts(e: State, id: OrderId, status: OrderStatus)
    requires SoundVerdicts(e) && id in e.orders
    ensures KeepsVerdicts(e, ConfirmReply(id, status), ConfirmAck(e, id, status))
  {
    hide Keyed, OrderFits, WrittenRow, VerdictsSaved, VerdictsKept, SameIdentity;
    OwnRow(e, id);
    ConfirmedIsTerminal(e, id);
    var row := Confirming(e.orders[id], status);
    ConfirmingKeepsIdentity(e.orders[id], status);
    StoredKeyed(e, row);
    VerdictsAfterWrite(e.orders, e.disk.orders, row);
    forall i | i in e.orders ensures e.orders[i].confirmed ==> e.orders[i].status.IsTerminal() {
      ConfirmedIsTerminal(e, i);
    }
    VerdictGiven(e.orders, id, status);
  }

  lemma ConfirmingKeepsIdentity(o: OrderRow, status: OrderStatus)
    ensures SameIdentity(Confirming(o, status), o)
  {
  }

  lemma VerdictGiven(orders: map<OrderId, OrderRow>, id: OrderId, status: OrderStatus)
    requires id in orders && orders[id].orderId == id
    requires forall i :: i in orders && orders[i].confirmed ==> orders[i].status.IsTerminal()
    ensures VerdictsKept(orders, ConfirmReply(id, status), orders[id := Confirming(orders[id], status)])
  {
  }

  lemma FillVerdicts(c: Config, e: State, f: Fill, commits: nat, ev: Event)
    requires SoundVerdicts(e) && !ev.ConfirmReply?
    ensures KeepsVerdicts(e, ev, OnFill(c, e, f).0)
    ensures VerdictsSaved(e.orders, CommittedDisk(c, e, f, commits).orders)
  {
    hide Keyed, VerdictsSaved, VerdictsKept, OnFill, CommittedDisk, Filling, SameIdentity;
    FillKeyed(c, e, f, commits);
    SelfVerdicts(e, ev);
    if f.orderId !in e.orders {
      NoOrderNoWrite(c, e, f, commits);
    } else {
      OnFillWrites(c, e, f);
      OwnRow(e, f.orderId);
      ConfirmedIsTerminal(e, f.orderId);
      var row := Filling(e.orders[f.orderId], f).row;
      assert row.orderId == f.orderId by {
        FillingKeepsIdentity(e.orders[f.orderId], f);
        SameId(row, e.orders[f.orderId]);
      }
      FillingKeepsVerdict(e.orders[f.orderId], f);
      VerdictsAfterWrite(e.orders, e.disk.orders, row);
      WriteKeepsVerdicts(e.orders, e.disk.orders, row, ev);
    }
  }

  lemma SameId(a: OrderRow, b: OrderRow)
    requires SameIdentity(a, b)
    ensures a.orderId == b.orderId
  {
  }

  lemma RestartReads(c: Config, e: State, d: Tables)
    requires UniqueClients(d.orders)
    ensures Restarted(c, e, d).orders == d.orders == Restarted(c, e, d).disk.orders
  {
  }

  lemma RestartVerdicts(c: Config, e: State, d: Tables, ev: Event)
    requires Keyed(e.orders, e.registry, d.orders) && VerdictsSaved(e.orders, d.orders) && !ev.ConfirmReply?
    ensures KeepsVerdicts(e, ev, Restarted(c, e, d))
  {
    hide Keyed, Restarted;
    RestartKeyed(c, e, d);
    RestartReads(c, e, d);
  }

  lemma SubmitVerdicts(e: State, req: Request, id: OrderId, ev: Event)
    requires SoundVerdicts(e) && id !in e.orders && !ev.ConfirmReply?
    ensures KeepsVerdicts(e, ev, SubmitBegin(e, req, id).0)
    ensures forall i :: i in SubmitBegin(e, req, id).0.orders && i !in e.orders ==>
      !SubmitBegin(e, req, id).0.orders[i].confirmed
    ensures forall i :: i in e.orders ==>
      i in SubmitBegin(e, req, id).0.orders && SubmitBegin(e, req, id).0.orders[i] == e.orders[i]
  {
    hide Keyed, VerdictsSaved, VerdictsKept, SubmitBegin, RequestedRow;
    SelfVerdicts(e, ev);
    SubmitWrites(e, req, id);
    if req.qty > 0.0 {
      RequestedIsNew(req, id);
      NewOrderVerdicts(e.orders, e.disk.orders, RequestedRow(req, id), ev);
    }
  }

  lemma RequestedIsNew(req: Request, id: OrderId)
    requires req.qty > 0.0
    ensures RequestedRow(req, id).orderId == id && !RequestedRow(req, id).confirmed && RequestedRow(req, id).status.New?
  {
  }

  // A submit writes one new order, in memory and on disk, or none.
  lemma SubmitWrites(e: State, req: Request, id: OrderId)
    requires KeyedState(e) && id !in e.orders
    ensures var r := SubmitBegin(e, req, id).0;
            || (r.orders == e.orders && r.disk == e.disk)
            || (req.qty > 0.0 && r.orders == e.orders[id := RequestedRow(req, id)]
                && r.disk.orders == e.disk.orders[id := RequestedRow(req, id)])
  {
    hide Keyed, Available, OrderFits;
    DiskKnows(e);
    SubmitKeyed(e, req, id);
  }

  lemma NewOrderVerdicts(orders: map<OrderId, OrderRow>, disk: map<OrderId, OrderRow>, row: OrderRow, ev: Event)
    requires VerdictsSaved(orders, disk) && row.orderId !in orders && !row.confirmed && !ev.ConfirmReply?
    ensures VerdictsKept(orders, ev, orders[row.orderId := row])
    ensures VerdictsSaved(orders[row.orderId := row], disk[row.orderId := row])
  {
  }

  lemma StepVerdicts(c: Config, e: State, ev: Event)
    requires SoundVerdicts(e)
    ensures SoundVerdicts(Step(c, e, ev)) && KeepsVerdicts(e, ev, Step(c, e, ev))
  {
    hide Keyed, SubmitBegin, SubmitAck, OnFill, CancelAck, ConfirmAck, Restarted, CommittedDisk;
    hide OnlyOwnRow, VerdictsSaved, VerdictsKept;
    StepKeyed(c, e, ev);
    if ev.ConfirmReply? ==> ev.confirmId !in e.orders {
      SelfVerdicts(e, ev);
    }
    match ev {
      case SubmitOrder(req, id) =>
        if id !in e.orders {
          SubmitVerdicts(e, req, id, ev);
        }
      case SubmitCrash(req, id, committed) =>
        if id !in e.orders {
          if committed {
            var r := SubmitBegin(e, req, id).0;
            SubmitVerdicts(e, req, id, ev);
            SubmitKeyed(e, req, id);
            RestartVerdicts(c, r, r.disk, ev);
            RestartKeyed(c, r, r.disk);
            RestartedIs(c, e, r, r.disk);
            VerdictsCompose(e.orders, r.orders, Restarted(c, r, r.disk).orders, ev);
          } else {
            RestartVerdicts(c, e, e.disk, ev);
          }
        }
      case BrokerAck(id, ack) =>
        if id in e.orders {
          AckVerdicts(e, id, ack, ev);
        }
      case FillArrives(f) =>
        FillVerdicts(c, e, f, 0, ev);
      case FillCrash(f, commits) =>
        FillVerdicts(c, e, f, commits, ev);
        FillKeyed(c, e, f, commits);
        OwnRowKeyed(e, f, CommittedDisk(c, e, f, commits));
        RestartVerdicts(c, e, CommittedDisk(c, e, f, commits), ev);
      case CancelReply(id, ack) =>
        if id in e.orders {
          CancelVerdicts(e, id, ack, ev);
        }
      case ConfirmReply(id, status) =>
        if id in e.orders {
          ConfirmVerdicts(e, id, status);
        }
      case MarkMoves(_, _) =>
      case Restarts =>
        RestartVerdicts(c, e, e.disk, ev);
    }
  }

  lemma VerdictsCompose(a: map<OrderId, OrderRow>, b: map<OrderId, OrderRow>, d: map<OrderId, OrderRow>, ev: Event)
    requires VerdictsKept(a, ev, b) && VerdictsKept(b, ev, d)
    ensures VerdictsKept(a, ev, d)
  {
  }

  lemma SelfVerdicts(e: State, ev: Event)
    requires SoundVerdicts(e) && (ev.ConfirmReply? ==> ev.confirmId !in e.orders)
    ensures KeepsVerdicts(e, ev, e)
  {
  }

  lemma CancelVerdicts(e: State, id: OrderId, ack: Ack, ev: Event)
    requires SoundVerdicts(e) && id in e.orders && !ev.ConfirmReply?
    ensures KeepsVerdicts(e, ev, CancelAck(e, id, ack))
  {
    hide Keyed, Stored, VerdictsSaved, VerdictsKept;
    OwnRow(e, id);
    ConfirmedIsTerminal(e, id);
    var r := if ack.status.Cancelled? then Cancelling(e.orders[id], None, false) else Outcome(e.orders[id], None);
    StoredVerdicts(e, r.row, ev);
  }

  // The last terminal verdict on the order, or what it had before.
  function LastVerdict(evs: seq<Event>, id: OrderId, status: OrderStatus): OrderStatus {
    if evs == [] then status else VerdictOf(evs[|evs| - 1], id, LastVerdict(evs[..|evs| - 1], id, status))
  }

  // Once some run has confirmed an order, every continuation, through restarts and crashes,
  // keeps it confirmed with the same filled quantity, average price and fees, in memory and
  // on disk, and with its status unless a later terminal verdict on it says another.
  lemma {:induction false} ConfirmedForGood(c: Config, evs: seq<Event>, more: seq<Event>, id: OrderId)
    ensures SoundVerdicts(Run(c, evs + more))
    ensures id in Run(c, evs).orders && Run(c, evs).orders[id].confirmed ==>
      var o, e := Run(c, evs).orders[id], Run(c, evs + more);
      && id in e.orders && SameFigures(e.orders[id], o) && e.orders[id].status == LastVerdict(more, id, o.status)
      && id in e.disk.orders && SameVerdict(e.disk.orders[id], e.orders[id])
    decreases |evs| + |more|
  {
    hide Step, Keyed;
    if more == [] {
      assert evs + more == evs;
      if evs != [] {
        ConfirmedForGood(c, evs[..|evs| - 1], [], id);
        assert evs[..|evs| - 1] + [] == evs[..|evs| - 1];
        StepVerdicts(c, Run(c, evs[..|evs| - 1]), evs[|evs| - 1]);
      } else {
        StartIsSound();
      }
    } else {
      var before, ev := more[..|more| - 1], more[|more| - 1];
      assert (evs + more)[..|evs + more| - 1] == evs + before;
      ConfirmedForGood(c, evs, before, id);
      StepVerdicts(c, Run(c, evs + before), ev);
    }
  }

  lemma StartIsSound()
    ensures SoundVerdicts(START)
  {
  }

  // ----- What a verdict leaves -----

  // After any run the broker's answer about a known order leaves it, in memory and on disk,
  // with that status if the answer is terminal, or is open and the order was terminal on our
  // own word only, and otherwise with the one it had; confirmed if the answer is terminal or
  // it was; every amount, and every other order, as before.
  lemma VerdictDecides(c: Config, evs: seq<Event>, id: OrderId, verdict: OrderStatus)
    requires id in Run(c, evs).orders
    ensures var e, r := Run(c, evs), Run(c, evs + [ConfirmReply(id, verdict)]);
            var o := e.orders[id];
            && id in r.orders && r.orders == e.orders[id := r.orders[id]]
            && r.orders[id].status == (if verdict in {Filled, Cancelled, Rejected} then verdict
                                       else if o.status in {Filled, Cancelled, Rejected} && !o.confirmed then verdict
                                       else o.status)
            && (r.orders[id].confirmed <==> o.confirmed || verdict in {Filled, Cancelled, Rejected})
            && r.orders[id] == o.(status := r.orders[id].status, confirmed := r.orders[id].confirmed)
            && r.disk.orders == e.disk.orders[id := r.orders[id]]
            && r.book == e.book && r.entries == e.entries && r.disk.fills == e.disk.fills
  {
    hide Keyed, Confirming, ConfirmAck, Run;
    var e := Run(c, evs);
    AtMostOnce(c, evs);
    ConfirmIsNext(c, evs, id, verdict);
    ConfirmWrites(e, id, verdict);
    VerdictOnRow(e.orders[id], verdict);
  }

  lemma ConfirmIsNext(c: Config, evs: seq<Event>, id: OrderId, verdict: OrderStatus)
    requires id in Run(c, evs).orders
    ensures Run(c, evs + [ConfirmReply(id, verdict)]) == ConfirmAck(Run(c, evs), id, verdict)
  {
    hide Run, SubmitBegin, SubmitAck, OnFill, CancelAck, ConfirmAck, Restarted, CommittedDisk;
    RunNext(c, evs, ConfirmReply(id, verdict));
  }

  lemma RunNext(c: Config, evs: seq<Event>, ev: Event)
    ensures Run(c, evs + [ev]) == Step(c, Run(c, evs), ev)
  {
    hide Step;
    assert (evs + [ev])[..|evs|] == evs;
  }

  lemma ConfirmWrites(e: State, id: OrderId, verdict: OrderStatus)
    requires KeyedState(e) && id in e.orders
    ensures var r, row := ConfirmAck(e, id, verdict), Confirming(e.orders[id], verdict);
            && r.orders == e.orders[id := row] && r.disk.orders == e.disk.orders[id := row]
            && r.book == e.book && r.entries == e.entries && r.disk.fills == e.disk.fills
  {
    hide Keyed, OrderFits, WrittenRow, Confirming, SameIdentity;
    OwnRow(e, id);
    ConfirmingKeepsIdentity(e.orders[id], verdict);
    SameId(Confirming(e.orders[id], verdict), e.orders[id]);
    StoredKeyed(e, Confirming(e.orders[id], verdict));
  }

  lemma VerdictOnRow(o: OrderRow, verdict: OrderStatus)
    ensures var row := Confirming(o, verdict);
            && row.status == (if verdict in {Filled, Cancelled, Rejected} then verdict
                              else if o.status in {Filled, Cancelled, Rejected} && !o.confirmed then verdict
                              else o.status)
            && (row.confirmed <==> o.confirmed || verdict in {Filled, Cancelled, Rejected})
            && row == o.(status := row.status, confirmed := row.confirmed)
  {
  }
}
