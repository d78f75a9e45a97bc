// Engine and mock broker together. The mock's calls never suspend, so the engine's submit,
// cancel and confirm_order are one step each; drips, the stream and restarts come between.

module ClosedSystem {
  import opened Models
  import opened Money
  import opened Sums
  import opened Orders
  import opened Positions
  import opened Settings
  import opened Pnl
  import opened Store
  import opened Idempotency
  import opened EngineSpec
  import opened Views
  import opened Recovery
  import BrokerBook
  import opened MockBroker
  import opened Slicing

  datatype Setup = Setup(config: Config, mock: MockConfig)

  // emitted is every fill the broker has made; kept says, of those the engine has been
  // handed, which it applied; bases has the price every drip read when it started.
  datatype Sys = Sys(eng: State, brk: Broker, emitted: seq<Fill>, kept: seq<bool>, bases: map<BrokerId, real>)

  datatype SysEvent =
    | Submits(req: Request, newId: OrderId)
    | DripStarts(bid: BrokerId)
    | DripTurns(turnBid: BrokerId)
    | Drains                          // the next fill of the stream
    | Redelivers(index: nat)          // a fill the stream has delivered before
    | Cancels(cancelId: OrderId)
    | Confirms(confirmId: OrderId)
    | PriceMoves(symbol: Symbol, price: real)
    | Marks(markSymbol: Symbol, mark: real)
    | EngineRestarts

  function Begin(transients: nat, prices: map<Symbol, real>): Sys {
    Sys(START, NewBroker(transients, prices), [], [], map[])
  }

  function Emitting(x: Sys, brk: Broker): Sys {
    x.(brk := brk, emitted := x.emitted + NewFills(x.brk, brk))
  }

  ghost function SubmitStep(p: Setup, x: Sys, req: Request, id: OrderId): Sys {
    if id in x.eng.orders then x
    else
      var (e, outcome) := SubmitBegin(x.eng, req, id);
      if !outcome.Dispatched? || id !in e.orders then x.(eng := e)
      else
        var (b, reply) := Answered(p.mock, x.brk, e.orders[id]);
        Emitting(x, b).(eng := if reply.Acknowledged? then SubmitAck(e, id, reply.ack) else e)
  }

  function DrainStep(p: Setup, x: Sys): Sys {
    if x.brk.queue == [] then x
    else
      var (e, outcome) := OnFill(p.config, x.eng, x.brk.queue[0]);
      x.(eng := e, brk := x.brk.(queue := x.brk.queue[1..]), kept := x.kept + [outcome.Applied?])
  }

  function CancelStep(x: Sys, id: OrderId): Sys {
    if id !in x.eng.orders then x
    else
      var (b, ack) := CancelAnswer(x.brk, x.eng.orders[id].brokerId);
      x.(brk := b, eng := CancelAck(x.eng, id, ack))
  }

  function ConfirmStep(x: Sys, id: OrderId): Sys {
    if id !in x.eng.orders then x
    else x.(eng := ConfirmAck(x.eng, id, Queried(x.brk, x.eng.orders[id].brokerId).status))
  }

  ghost function SysStep(p: Setup, x: Sys, ev: SysEvent): Sys {
    match ev
    case Submits(req, id) => SubmitStep(p, x, req, id)
    case DripStarts(bid) =>
      if bid in x.brk.drips && x.brk.drips[bid].base.None? then
        var b := DripStarted(x.brk, bid);
        x.(brk := b, bases := x.bases[bid := b.drips[bid].base.value])
      else x
    case DripTurns(bid) =>
      if bid in x.brk.drips && x.brk.drips[bid].base.Some? then Emitting(x, DripSlice(p.mock, x.brk, bid)) else x
    case Drains => DrainStep(p, x)
    case Redelivers(i) =>
      if i < |x.kept| && i < |x.emitted| then x.(eng := OnFill(p.config, x.eng, x.emitted[i]).0) else x
    case Cancels(id) => CancelStep(x, id)
    case Confirms(id) => ConfirmStep(x, id)
    case PriceMoves(s, price) => x.(brk := x.brk.(prices := x.brk.prices[s := price]))
    case Marks(s, mark) => x.(eng := x.eng.(marks := x.eng.marks[s := mark]))
    case EngineRestarts => if UniqueClients(x.eng.disk.orders) then x.(eng := Load(p.config, x.eng.disk)) else x
  }

  ghost function SysRun(p: Setup, x: Sys, evs: seq<SysEvent>): Sys {
    if evs == [] then x else SysStep(p, SysRun(p, x, evs[..|evs| - 1]), evs[|evs| - 1])
  }

  // ----- The delivered fills, applied or not -----

  function Pick(fs: seq<Fill>, kept: seq<bool>, flag: bool): seq<Fill>
    requires |kept| <= |fs|
  {
    if kept == [] then []
    else
      var n := |kept| - 1;
      Pick(fs, kept[..n], flag) + if kept[n] == flag then [fs[n]] else []
  }

  lemma {:induction false} PickPrefix(fs: seq<Fill>, more: seq<Fill>, kept: seq<bool>, flag: bool)
    requires |kept| <= |fs|
    ensures Pick(fs + more, kept, flag) == Pick(fs, kept, flag)
  {
    if kept != [] {
      PickPrefix(fs, more, kept[..|kept| - 1], flag);
    }
  }

  lemma PickOneMore(fs: seq<Fill>, kept: seq<bool>, applied: bool, flag: bool)
    requires |kept| < |fs|
    ensures Pick(fs, kept + [applied], flag) == Pick(fs, kept, flag) + if applied == flag then [fs[|kept|]] else []
  {
    assert (kept + [applied])[..|kept|] == kept;
  }

  lemma {:induction false} PickSum(fs: seq<Fill>, kept: seq<bool>, w: Fill -> real)
    requires |kept| <= |fs|
    ensures Sum(fs[..|kept|], w) == Sum(Pick(fs, kept, true), w) + Sum(Pick(fs, kept, false), w)
  {
    hide Sum, Pick;
    if kept == [] {
      PickNothing(fs, w);
    } else {
      var n := |kept| - 1;
      PickSum(fs, kept[..n], w);
      assert fs[..|kept|] == fs[..n] + [fs[n]];
      SumOneMore(fs[..n], fs[n], w);
      PickSumLast(fs, kept, w, true);
      PickSumLast(fs, kept, w, false);
    }
  }

  lemma PickNothing(fs: seq<Fill>, w: Fill -> real)
    ensures Sum(fs[..0], w) == 0.0 && Sum(Pick(fs, [], true), w) == 0.0 && Sum(Pick(fs, [], false), w) == 0.0
  {
    assert fs[..0] == [];
  }

  lemma PickSumLast(fs: seq<Fill>, kept: seq<bool>, w: Fill -> real, flag: bool)
    requires 0 < |kept| <= |fs|
    ensures var n := |kept| - 1;
            Sum(Pick(fs, kept, flag), w)
                 == Sum(Pick(fs, kept[..n], flag), w) + if kept[n] == flag then w(fs[n]) else 0.0
  {
    hide Sum;
    var n := |kept| - 1;
    if kept[n] == flag {
      SumOneMore(Pick(fs, kept[..n], flag), fs[n], w);
    } else {
      assert Pick(fs, kept, flag) == Pick(fs, kept[..n], flag);
    }
  }

  lemma {:induction false} PickFrom(fs: seq<Fill>, kept: seq<bool>, flag: bool)
    requires |kept| <= |fs|
    ensures forall f :: f in Pick(fs, kept, flag) <==> exists i :: 0 <= i < |kept| && kept[i] == flag && fs[i] == f
  {
    if kept != [] {
      var n := |kept| - 1;
      PickFrom(fs, kept[..n], flag);
      forall f | f in Pick(fs, kept, flag) ensures exists i :: 0 <= i < |kept| && kept[i] == flag && fs[i] == f {
        if f in Pick(fs, kept[..n], flag) {
          var i :| 0 <= i < n && kept[..n][i] == flag && fs[i] == f;
          assert kept[i] == flag;
        } else {
          assert kept[n] == flag && fs[n] == f;
        }
      }
      forall i | 0 <= i < |kept| && kept[i] == flag ensures fs[i] in Pick(fs, kept, flag) {
        if i < n {
          assert kept[..n][i] == flag;
        }
      }
    }
  }

  lemma {:induction false} PickAll(fs: seq<Fill>, kept: seq<bool>)
    requires |kept| <= |fs| && Pick(fs, kept, false) == []
    ensures Pick(fs, kept, true) == fs[..|kept|]
  {
    if kept != [] {
      var n := |kept| - 1;
      PickAll(fs, kept[..n]);
      assert fs[..|kept|] == fs[..n] + [fs[n]];
    }
  }

  // ----- The stream -----

  // Execution ids, fill ids and timestamps come from one counter.
  ghost predicate Stamped(fs: seq<Fill>, counter: nat) {
    && (forall i :: 0 <= i < |fs| ==>
          fs[i].fillId <= counter && fs[i].exec == Some(Exec(fs[i].fillId)) && fs[i].ts == fs[i].fillId)
    && (forall i, j :: 0 <= i < j < |fs| ==> fs[i].fillId < fs[j].fillId)
  }

  lemma {:induction false} PickInOrder(fs: seq<Fill>, kept: seq<bool>, counter: nat, flag: bool)
    requires |kept| <= |fs| && Stamped(fs, counter)
    ensures InTsOrder(Pick(fs, kept, flag))
  {
    if kept != [] {
      var n := |kept| - 1;
      PickInOrder(fs, kept[..n], counter, flag);
      PickFrom(fs, kept[..n], flag);
      forall i | 0 <= i < |Pick(fs, kept[..n], flag)| ensures Pick(fs, kept[..n], flag)[i].ts <= fs[n].ts {
        assert Pick(fs, kept[..n], flag)[i] in Pick(fs, kept[..n], flag);
      }
    }
  }

  function Dropped(x: Sys): seq<Fill>
    requires |x.kept| <= |x.emitted|
  {
    Pick(x.emitted, x.kept, false)
  }

  ghost predicate Streams(x: Sys) {
    && |x.kept| <= |x.emitted|
    && x.brk.queue == x.emitted[|x.kept|..]
    && x.brk.account == BrokerBook.AccountRun(x.emitted)
    && Stamped(x.emitted, x.brk.counter)
    && x.eng.disk.fills == Pick(x.emitted, x.kept, true)
    && (forall e :: e in x.eng.seen ==> exists i :: 0 <= i < |x.kept| && x.emitted[i].exec == Some(e))
    && (forall i :: 0 <= i < |x.kept| && !x.kept[i] ==>
          x.emitted[i].orderId in x.eng.orders && x.eng.orders[x.emitted[i].orderId].confirmed)
  }

  // ----- The orders, their acks and their drips -----

  // An ack tells exactly what has been sent of its order.
  ghost predicate AckTells(a: Ack, id: OrderId, fs: seq<Fill>) {
    && a.filled == Sum(fs, QtyFor(id)) && Worth(a.avgPrice, a.filled) == Sum(fs, SpentFor(id))
    && (a.status.Working? || a.status.PartiallyFilled? || a.status.Filled? || a.status.Cancelled?)
    && (a.status.Working? ==> a.filled == 0.0) && (a.status.PartiallyFilled? ==> a.filled > 0.0)
  }

  ghost predicate DripTells(d: Drip, row: OrderRow, fs: seq<Fill>) {
    && d.order.orderId == row.orderId && d.order.symbol == row.symbol && d.order.side == row.side
    && d.order.qty == row.qty
    && d.filled == Sum(fs, QtyFor(row.orderId)) && d.remaining == row.qty - d.filled > 0.0
    && d.notional == Sum(fs, SpentFor(row.orderId))
  }

  ghost predicate OrderLinked(row: OrderRow, acks: map<BrokerId, Ack>, drips: map<BrokerId, Drip>, fs: seq<Fill>) {
    match row.brokerId
    case None =>
      && (row.status.New? || (row.status.Rejected? && row.confirmed))
      && forall f :: f in fs ==> f.orderId != row.orderId
    case Some(bid) =>
      && !row.status.New? && !row.status.Rejected?
      && bid in acks && AckTells(acks[bid], row.orderId, fs) && acks[bid].filled <= row.qty
      && (acks[bid].status.Filled? <==> acks[bid].filled == row.qty)
      && (bid in drips ==> DripTells(drips[bid], row, fs))
  }

  ghost predicate Linked(orders: map<OrderId, OrderRow>, b: Broker, fs: seq<Fill>) {
    && (forall id :: id in orders ==> orders[id].orderId == id && OrderLinked(orders[id], b.acks, b.drips, fs))
    && (forall bid :: bid in b.drips ==>
          b.drips[bid].order.orderId in orders && orders[b.drips[bid].order.orderId].brokerId == Some(bid))
    && (forall i, j :: i in orders && j in orders && i != j && orders[i].brokerId.Some? ==>
          orders[i].brokerId != orders[j].brokerId)
    && (forall bid :: bid in b.acks ==> bid <= b.counter)
    && (forall f :: f in fs ==> Matches(orders, f))
  }

  ghost predicate KnownClients(b: Broker, registry: Registry) {
    b.byClient.Keys <= registry.Keys
  }

  ghost predicate SysInv(p: Setup, x: Sys) {
    && Agrees(p.config, x.eng)
    && Streams(x)
    && Linked(x.eng.orders, x.brk, x.emitted)
    && KnownClients(x.brk, x.eng.registry)
  }

  lemma BeginsWell(p: Setup, transients: nat, prices: map<Symbol, real>)
    ensures SysInv(p, Begin(transients, prices))
  {
    StartAgrees(p.config);
  }

  // ----- One order row changes, nothing is emitted -----

  lemma RowLinked(orders: map<OrderId, OrderRow>, row: OrderRow, b: Broker, fs: seq<Fill>)
    requires Linked(orders, b, fs) && row.orderId in orders
    requires SameIdentity(row, orders[row.orderId]) && row.brokerId == orders[row.orderId].brokerId
    requires if row.brokerId.None? then row.status.New? || (row.status.Rejected? && row.confirmed)
             else !row.status.New? && !row.status.Rejected?
    ensures Linked(orders[row.orderId := row], b, fs)
  {
    hide Sum, Worth;
  }

  lemma LinkOf(orders: map<OrderId, OrderRow>, b: Broker, fs: seq<Fill>, id: OrderId)
    requires Linked(orders, b, fs) && id in orders
    ensures orders[id].orderId == id && OrderLinked(orders[id], b.acks, b.drips, fs)
  {
  }

  // Confirmations only accumulate, so the dropped fills' orders stay confirmed.
  lemma StreamsAfterEngine(x: Sys, e: State)
    requires Streams(x) && e.disk.fills == x.eng.disk.fills && e.seen == x.eng.seen
    requires forall id :: id in x.eng.orders && x.eng.orders[id].confirmed ==> id in e.orders && e.orders[id].confirmed
    ensures Streams(x.(eng := e))
  {
  }

  // ----- cancel and confirm -----

  lemma CancelKeeps(p: Setup, x: Sys, id: OrderId)
    requires SysInv(p, x)
    ensures SysInv(p, CancelStep(x, id))
  {
    hide Agrees, Streams, Linked, OrderLinked, CancelAck;
    if id in x.eng.orders {
      var o := x.eng.orders[id];
      var (b, ack) := CancelAnswer(x.brk, o.brokerId);
      CancelAgrees(p.config, x.eng, id, ack);
      LinkOf(x.eng.orders, x.brk, x.emitted, id);
      CancelEffect(p.config, x.eng, id, ack);
      var e := CancelAck(x.eng, id, ack);
      CancelLinks(x, id);
      StreamsAfterEngine(x, e);
      StreamsAfterAcks(x.(eng := e), b);
    }
  }

  lemma StreamsAfterAcks(x: Sys, b: Broker)
    requires Streams(x) && b == x.brk.(acks := b.acks)
    ensures Streams(x.(brk := b))
  {
  }

  // What a cancel reply does to the engine.
  lemma CancelEffect(c: Config, e: State, id: OrderId, ack: Ack)
    requires Agrees(c, e) && id in e.orders && e.orders[id].orderId == id
    ensures var r := CancelAck(e, id, ack);
            && r.orders == e.orders[id := r.orders[id]] && SameIdentity(r.orders[id], e.orders[id])
            && r.orders[id].brokerId == e.orders[id].brokerId && r.orders[id].confirmed == e.orders[id].confirmed
            && (r.orders[id].status == e.orders[id].status
                || (ack.status.Cancelled? && r.orders[id].status == Cancelled))
            && r.disk.fills == e.disk.fills && r.seen == e.seen && r.registry == e.registry
  {
    hide Agrees, Stored;
    var r := if ack.status.Cancelled? then Cancelling(e.orders[id], None, false) else Outcome(e.orders[id], None);
    StoredEffect(e, r.row);
  }

  // Writing a row back changes that row, in memory and on disk, and nothing else.
  lemma StoredEffect(e: State, row: OrderRow)
    ensures Stored(e, row) == e.(orders := e.orders[row.orderId := row], disk := Stored(e, row).disk)
    ensures Stored(e, row).disk.fills == e.disk.fills
  {
    hide OrderFits, WrittenRow;
  }

  lemma CancelLinks(x: Sys, id: OrderId)
    requires Linked(x.eng.orders, x.brk, x.emitted) && id in x.eng.orders
    requires var e := CancelStep(x, id).eng; var o := x.eng.orders[id];
             && e.orders == x.eng.orders[id := e.orders[id]] && SameIdentity(e.orders[id], o)
             && e.orders[id].brokerId == o.brokerId && e.orders[id].confirmed == o.confirmed
             && (e.orders[id].status == o.status
                 || (CancelAnswer(x.brk, o.brokerId).1.status.Cancelled? && e.orders[id].status == Cancelled))
    ensures Linked(CancelStep(x, id).eng.orders, CancelStep(x, id).brk, x.emitted)
  {
    hide CancelAck, Sum, Worth, Linked;
    var o := x.eng.orders[id];
    LinkOf(x.eng.orders, x.brk, x.emitted, id);
    var row := CancelStep(x, id).eng.orders[id];
    RowLinked(x.eng.orders, row, x.brk, x.emitted);
    if o.brokerId.Some? && x.brk.acks[o.brokerId.value].status.IsOpen() {
      AckReplaced(x.eng.orders[id := row], x.brk, x.emitted, o.brokerId.value,
                  Ack(o.brokerId.value, Cancelled, x.brk.acks[o.brokerId.value].filled,
                      x.brk.acks[o.brokerId.value].avgPrice));
    }
  }

  // An ack that keeps its amounts still tells what was sent, if that was not all.
  lemma AckReplaced(orders: map<OrderId, OrderRow>, b: Broker, fs: seq<Fill>, bid: BrokerId, ack: Ack)
    requires Linked(orders, b, fs) && bid in b.acks
    requires ack.filled == b.acks[bid].filled && ack.avgPrice == b.acks[bid].avgPrice && ack.status.Cancelled?
    requires !b.acks[bid].status.Filled?
    ensures Linked(orders, b.(acks := b.acks[bid := ack]), fs)
  {
    hide Sum, Worth;
  }

  lemma ConfirmKeeps(p: Setup, x: Sys, id: OrderId)
    requires SysInv(p, x)
    ensures SysInv(p, ConfirmStep(x, id))
  {
    hide Agrees, Streams, Linked, ConfirmAck;
    if id in x.eng.orders {
      var o := x.eng.orders[id];
      var status := Queried(x.brk, o.brokerId).status;
      ConfirmAgrees(p.config, x.eng, id, status);
      LinkOf(x.eng.orders, x.brk, x.emitted, id);
      ConfirmEffect(p.config, x.eng, id, status);
      var e := ConfirmAck(x.eng, id, status);
      RowLinked(x.eng.orders, e.orders[id], x.brk, x.emitted);
      StreamsAfterEngine(x, e);
    }
  }

  lemma ConfirmEffect(c: Config, e: State, id: OrderId, status: OrderStatus)
    requires Agrees(c, e) && id in e.orders && e.orders[id].orderId == id
    ensures var r := ConfirmAck(e, id, status);
            && r.orders == e.orders[id := Confirming(e.orders[id], status)]
            && r.disk.fills == e.disk.fills && r.seen == e.seen && r.registry == e.registry
  {
    hide Agrees, Stored;
    StoredEffect(e, Confirming(e.orders[id], status));
  }

  // ----- Restart -----

  lemma ReloadKeeps(p: Setup, x: Sys)
    requires SysInv(p, x)
    ensures UniqueClients(x.eng.disk.orders)
    ensures SysInv(p, x.(eng := Load(p.config, x.eng.disk)))
  {
    hide Linked, Load, Agrees, Streams;
    AgreesFacts(p.config, x.eng);
    StreamsLedger(x);
    LoadAgrees(p.config, x.eng);
    ClaimsKeyed(x.eng.orders, x.eng.registry, x.eng.disk.orders);
    LoadIs(p.config, x.eng.disk);
    StreamsAfterLoad(x, Load(p.config, x.eng.disk));
  }

  lemma AgreesFacts(c: Config, e: State)
    requires Agrees(c, e)
    ensures Keyed(e.orders, e.registry, e.disk.orders) && e.disk.orders == e.orders
  {
  }

  lemma StreamsLedger(x: Sys)
    requires Streams(x)
    ensures InTsOrder(x.eng.disk.fills)
  {
    PickInOrder(x.emitted, x.kept, x.brk.counter, true);
  }

  lemma StreamsAfterLoad(x: Sys, r: State)
    requires Streams(x) && r.disk == x.eng.disk && r.orders == x.eng.orders && r.seen == ExecsOf(x.eng.disk.fills)
    ensures Streams(x.(eng := r))
  {
    PickFrom(x.emitted, x.kept, true);
  }

  lemma LoadIs(c: Config, d: Tables)
    requires UniqueClients(d.orders)
    ensures Load(c, d).orders == d.orders && Load(c, d).registry == ClaimsOf(d.orders)
  {
  }

  // ----- The stream delivers -----

  lemma Delivered(p: Setup, x: Sys, i: nat)
    requires SysInv(p, x) && i < |x.emitted|
    ensures var f := x.emitted[i];
            && f.HasExec() && Matches(x.eng.orders, f) && x.eng.orders[f.orderId].orderId == f.orderId
            && x.eng.orders[f.orderId].brokerId.Some?
            && !x.eng.orders[f.orderId].status.New? && !x.eng.orders[f.orderId].status.Rejected?
            && Sum(x.emitted, QtyFor(f.orderId)) <= x.eng.orders[f.orderId].qty
  {
    hide Sum, Worth;
    assert x.emitted[i] in x.emitted;
    LinkOf(x.eng.orders, x.brk, x.emitted, x.emitted[i].orderId);
  }

  // What was applied and the next fill are part of all that was sent.
  lemma AppliedAndNext(fs: seq<Fill>, kept: seq<bool>, w: Fill -> real)
    requires |kept| < |fs| && forall f: Fill :: w(f) >= 0.0
    ensures Sum(Pick(fs, kept, true), w) + w(fs[|kept|]) <= Sum(fs, w)
  {
    hide Sum, Pick;
    var d := |kept|;
    PickSum(fs, kept, w);
    SumNonNegative(Pick(fs, kept, false), w);
    assert fs == fs[..d] + [fs[d]] + fs[d + 1..];
    SumConcat(fs[..d] + [fs[d]], fs[d + 1..], w);
    SumOneMore(fs[..d], fs[d], w);
    SumNonNegative(fs[d + 1..], w);
  }

  // What the stream has not delivered still has room on its order.
  lemma HeadHasRoom(p: Setup, x: Sys)
    requires SysInv(p, x) && |x.kept| < |x.emitted|
    ensures var f := x.emitted[|x.kept|];
            f.orderId in x.eng.orders && x.eng.orders[f.orderId].filled + f.qty <= x.eng.orders[f.orderId].qty
  {
    hide Sum, Worth, Linked, Pick, Keyed, Replays, Books, Distinct, Stamped;
    var f := x.emitted[|x.kept|];
    Delivered(p, x, |x.kept|);
    AppliedAndNext(x.emitted, x.kept, QtyFor(f.orderId));
    assert OrderAgrees(x.eng.orders[f.orderId], x.eng.disk.fills);
  }

  lemma HeadIsNew(p: Setup, x: Sys)
    requires SysInv(p, x) && |x.kept| < |x.emitted|
    ensures Whole(x.eng, x.emitted[|x.kept|]) && !Seen(x.eng, x.emitted[|x.kept|])
  {
    hide Linked, Agrees;
    var d := |x.kept|;
    var f := x.emitted[d];
    Delivered(p, x, d);
    PickFrom(x.emitted, x.kept, true);
    forall i | 0 <= i < |x.eng.disk.fills| ensures x.eng.disk.fills[i].fillId != f.fillId {
      assert x.eng.disk.fills[i] in x.eng.disk.fills;
    }
  }

  // The stream's next fill is applied exactly when its order is not yet confirmed; otherwise
  // on_fill raises and the fill is dropped.
  lemma DrainExactly(p: Setup, x: Sys)
    requires SysInv(p, x) && x.brk.queue != []
    ensures var f := x.brk.queue[0];
            && f == x.emitted[|x.kept|] && f.orderId in x.eng.orders
            && OnFill(p.config, x.eng, f).1 == if x.eng.orders[f.orderId].confirmed then Raised else Applied
    ensures x.brk.queue[0].orderId in x.eng.orders && x.eng.orders[x.brk.queue[0].orderId].confirmed ==>
      OnFill(p.config, x.eng, x.brk.queue[0]).0 == Noted(x.eng, x.brk.queue[0])
  {
    hide Linked, Agrees, Sum;
    var f := x.emitted[|x.kept|];
    Delivered(p, x, |x.kept|);
    HeadHasRoom(p, x);
    HeadIsNew(p, x);
    OnFillAgreesExactly(p.config, x.eng, f);
    if x.eng.orders[f.orderId].confirmed {
      Untouched(p.config, x.eng, f);
    }
  }

  lemma DrainKeeps(p: Setup, x: Sys)
    requires SysInv(p, x)
    ensures SysInv(p, DrainStep(p, x))
  {
    hide Linked, Agrees, OnFill, Streams;
    if x.brk.queue != [] {
      StreamsFacts(x);
      var f := x.emitted[|x.kept|];
      DrainExactly(p, x);
      Delivered(p, x, |x.kept|);
      if x.eng.orders[f.orderId].confirmed {
        DropKeeps(p, x);
      } else {
        ApplyKeeps(p, x);
      }
    }
  }

  lemma StreamsFacts(x: Sys)
    requires Streams(x)
    ensures |x.kept| <= |x.emitted| && x.brk.queue == x.emitted[|x.kept|..]
  {
  }

  lemma DropKeeps(p: Setup, x: Sys)
    requires SysInv(p, x) && x.brk.queue != [] && |x.kept| < |x.emitted| && x.brk.queue[0] == x.emitted[|x.kept|]
    requires x.brk.queue[0].orderId in x.eng.orders && x.eng.orders[x.brk.queue[0].orderId].confirmed
    ensures SysInv(p, DrainStep(p, x))
    ensures DrainStep(p, x).kept == x.kept + [false]
  {
    hide Linked, Agrees, OnFill;
    var f := x.brk.queue[0];
    DrainExactly(p, x);
    Delivered(p, x, |x.kept|);
    HeadIsNew(p, x);
    HeadHasRoom(p, x);
    Untouched(p.config, x.eng, f);
    PickOneMore(x.emitted, x.kept, false, true);
    var y := DrainStep(p, x);
    assert y.kept == x.kept + [false];
    LinkedQueue(x.eng.orders, x.brk, y.brk, x.emitted);
  }

  lemma LinkedQueue(orders: map<OrderId, OrderRow>, b: Broker, d: Broker, fs: seq<Fill>)
    requires Linked(orders, b, fs) && d == b.(queue := d.queue)
    ensures Linked(orders, d, fs)
  {
    hide Sum, Worth, OrderLinked;
  }

  lemma ApplyKeeps(p: Setup, x: Sys)
    requires SysInv(p, x) && x.brk.queue != [] && |x.kept| < |x.emitted| && x.brk.queue[0] == x.emitted[|x.kept|]
    requires x.brk.queue[0].orderId in x.eng.orders && !x.eng.orders[x.brk.queue[0].orderId].confirmed
    ensures SysInv(p, DrainStep(p, x))
    ensures DrainStep(p, x).kept == x.kept + [true]
  {
    hide Linked, Agrees, OnFill, Filling, IsApplied, Streams;
    StreamsFacts(x);
    var f := x.brk.queue[0];
    var o := x.eng.orders[f.orderId];
    Delivered(p, x, |x.kept|);
    HeadHasRoom(p, x);
    HeadIsNew(p, x);
    OnFillApplies(p.config, x.eng, f);
    var e := OnFill(p.config, x.eng, f).0;
    AppliedAgrees(p.config, x.eng, f, e);
    TakenRow(p.config, x.eng, f);
    AppliedEffect(p.config, x.eng, f, e);
    var row := Filling(o, f).row;
    RowLinked(x.eng.orders, row, x.brk, x.emitted);
    var y := DrainStep(p, x);
    LinkedQueue(e.orders, x.brk, y.brk, x.emitted);
    StreamsApplied(x, y, f);
  }

  // A taken fill leaves its order open or filled, under the same ids, unconfirmed.
  lemma TakenRow(c: Config, e: State, f: Fill)
    requires Agrees(c, e) && Fits(e, f) && e.orders[f.orderId].orderId == f.orderId
    ensures var o, row := e.orders[f.orderId], Filling(e.orders[f.orderId], f).row;
            && SameIdentity(row, o) && row.orderId == f.orderId && row.brokerId == o.brokerId && !row.confirmed
            && (row.status.Filled? || row.status.PartiallyFilled?)
  {
    hide Mean, Keyed, Replays, Books;
    var o := e.orders[f.orderId];
    if o.status.Filled? && !o.confirmed {
      FilledIsFull(o, e.disk.fills);
    }
    FittingFill(e, f);
  }

  lemma AppliedEffect(c: Config, e: State, f: Fill, r: State)
    requires IsApplied(c, e, f, r) && f.HasExec()
    ensures f.orderId in e.orders && r.orders == e.orders[f.orderId := Filling(e.orders[f.orderId], f).row]
    ensures r.seen == e.seen + {f.exec.value} && r.registry == e.registry && r.disk.fills == e.disk.fills + [f]
  {
  }

  lemma StreamsApplied(x: Sys, y: Sys, f: Fill)
    requires Streams(x) && |x.kept| < |x.emitted| && f == x.emitted[|x.kept|] && f.HasExec()
    requires f.orderId in x.eng.orders && !x.eng.orders[f.orderId].confirmed
    requires y.emitted == x.emitted && y.kept == x.kept + [true] && y.brk == x.brk.(queue := x.brk.queue[1..])
    requires y.eng.seen == x.eng.seen + {f.exec.value} && y.eng.disk.fills == x.eng.disk.fills + [f]
    requires y.eng.orders.Keys == x.eng.orders.Keys
    requires forall id :: id in x.eng.orders && id != f.orderId ==> y.eng.orders[id] == x.eng.orders[id]
    ensures Streams(y)
  {
    PickOneMore(x.emitted, x.kept, true, true);
    forall i | 0 <= i < |y.kept| && !y.kept[i]
      ensures y.emitted[i].orderId in y.eng.orders && y.eng.orders[y.emitted[i].orderId].confirmed
    {
      assert i < |x.kept| && !x.kept[i];
    }
    forall e | e in y.eng.seen ensures exists i :: 0 <= i < |y.kept| && y.emitted[i].exec == Some(e) {
      if e in x.eng.seen {
        var i :| 0 <= i < |x.kept| && x.emitted[i].exec == Some(e);
        assert y.emitted[i].exec == Some(e);
      } else {
        assert y.emitted[|x.kept|].exec == Some(e);
      }
    }
  }

  // A fill delivered again changes no view: it is known, or its order is confirmed.
  lemma RedeliveryKeeps(p: Setup, x: Sys, i: nat)
    requires SysInv(p, x) && i < |x.kept|
    ensures var e := OnFill(p.config, x.eng, x.emitted[i]).0;
            e == x.eng || e == Noted(x.eng, x.emitted[i])
    ensures SysInv(p, x.(eng := OnFill(p.config, x.eng, x.emitted[i]).0))
  {
    hide Linked, OnFill, Agrees, Pick, Stamped;
    var f := x.emitted[i];
    Delivered(p, x, i);
    if x.kept[i] {
      PickFrom(x.emitted, x.kept, true);
      RecordedIsSeen(p.config, x.eng, f);
      RepeatIsNothing(p.config, x.eng, f);
    } else if Seen(x.eng, f) {
      RepeatIsNothing(p.config, x.eng, f);
    } else {
      Untouched(p.config, x.eng, f);
      assert x.emitted[i].exec == Some(f.exec.value);
      assert Streams(x.(eng := Noted(x.eng, f)));
    }
  }

  lemma RecordedIsSeen(c: Config, e: State, f: Fill)
    requires Agrees(c, e) && f in e.disk.fills && f.HasExec()
    ensures Seen(e, f)
  {
    hide Keyed, Replays, Books, OrderAgrees, Distinct;
    assert f.exec.value in ExecsOf(e.disk.fills);
  }

  // ----- The broker emits -----

  lemma OthersLinked(row: OrderRow, acks: map<BrokerId, Ack>, drips: map<BrokerId, Drip>, fs: seq<Fill>, f: Fill)
    requires OrderLinked(row, acks, drips, fs) && f.orderId != row.orderId
    ensures OrderLinked(row, acks, drips, fs + [f])
  {
    hide Worth, Sum;
    SumOneMore(fs, f, QtyFor(row.orderId));
    SumOneMore(fs, f, SpentFor(row.orderId));
  }

  lemma StampedOneMore(fs: seq<Fill>, counter: nat, f: Fill, next: nat)
    requires Stamped(fs, counter) && counter < f.fillId <= next && f.exec == Some(Exec(f.fillId)) && f.ts == f.fillId
    ensures Stamped(fs + [f], next)
  {
  }

  lemma StampedLater(fs: seq<Fill>, counter: nat, next: nat)
    requires Stamped(fs, counter) && counter <= next
    ensures Stamped(fs, next)
  {
  }

  // One more fill on the stream, in the book, and in the history.
  lemma StreamsEmit(x: Sys, b: Broker, f: Fill)
    requires Streams(x)
    requires b.queue == x.brk.queue + [f] && b.account == BrokerBook.AccountStep(x.brk.account, f)
    requires x.brk.counter < f.fillId <= b.counter && f.exec == Some(Exec(f.fillId)) && f.ts == f.fillId
    ensures Emitting(x, b).emitted == x.emitted + [f]
    ensures Streams(Emitting(x, b))
  {
    hide BrokerBook.AccountStep, BrokerBook.AccountRun, Pick, Stamped;
    assert NewFills(x.brk, b) == [f];
    BrokerBook.AccountOneMore(x.emitted, f);
    StampedOneMore(x.emitted, x.brk.counter, f, b.counter);
    PickPrefix(x.emitted, [f], x.kept, true);
    forall e | e in x.eng.seen ensures exists i :: 0 <= i < |x.kept| && (x.emitted + [f])[i].exec == Some(e) {
      var i :| 0 <= i < |x.kept| && x.emitted[i].exec == Some(e);
      assert (x.emitted + [f])[i] == x.emitted[i];
    }
  }

  // Nothing sent: only bookkeeping of the broker's changed.
  lemma StreamsQuiet(x: Sys, b: Broker)
    requires Streams(x) && b.queue == x.brk.queue && b.account == x.brk.account && x.brk.counter <= b.counter
    ensures Emitting(x, b).emitted == x.emitted && Streams(Emitting(x, b))
  {
    StampedLater(x.emitted, x.brk.counter, b.counter);
    assert x.emitted + [] == x.emitted;
  }

  // ----- A turn of a drip -----

  lemma DripStartKeeps(p: Setup, x: Sys, bid: BrokerId)
    requires SysInv(p, x) && bid in x.brk.drips
    ensures SysInv(p,
                   x.(brk := DripStarted(x.brk, bid),
                      bases := x.bases[bid := DripStarted(x.brk, bid).drips[bid].base.value]))
  {
    hide Agrees, Linked, Stamped, Pick, BrokerBook.AccountRun;
    DripStartLinked(x.eng.orders, x.brk, x.emitted, bid);
  }

  lemma DripStartLinked(orders: map<OrderId, OrderRow>, b: Broker, fs: seq<Fill>, bid: BrokerId)
    requires Linked(orders, b, fs) && bid in b.drips
    ensures Linked(orders, DripStarted(b, bid), fs)
  {
    hide Sum, Worth, AckTells, PriceFor;
    var r := DripStarted(b, bid);
    forall id | id in orders ensures OrderLinked(orders[id], r.acks, r.drips, fs) {
      assert OrderLinked(orders[id], b.acks, b.drips, fs);
    }
  }

  lemma DripKeeps(p: Setup, x: Sys, bid: BrokerId)
    requires SysInv(p, x) && bid in x.brk.drips && x.brk.drips[bid].base.Some?
    ensures SysInv(p, Emitting(x, DripSlice(p.mock, x.brk, bid)))
  {
    hide Agrees, Linked, Streams, SliceQty, Quantize, BrokerBook.AccountStep, Worth, Sum;
    var d := x.brk.drips[bid];
    var b := DripSlice(p.mock, x.brk, bid);
    var qty, price := NextQty(p.mock, d), NextPrice(d);
    if d.i >= p.mock.slices || qty <= 0.0 || price < 0.0 {
      StreamsQuiet(x, b);
      DripGone(x.eng.orders, x.brk, b, x.emitted, bid);
    } else {
      var f := Executed(p.mock, d.order, qty, price, x.brk.counter + 1);
      StreamsEmit(x, b, f);
      DripSends(x.eng.orders, x.brk, b, x.emitted, bid, f, price, qty);
    }
  }

  lemma DripGone(orders: map<OrderId, OrderRow>, b: Broker, r: Broker, fs: seq<Fill>, bid: BrokerId)
    requires Linked(orders, b, fs)
    requires r.drips == b.drips - {bid} && r.acks == b.acks && r.counter >= b.counter
    ensures Linked(orders, r, fs)
  {
    hide Sum, Worth;
  }

  // The ack and the drip's variables after a slice tell what has then been sent.
  lemma DripSends(orders: map<OrderId, OrderRow>, b: Broker, r: Broker, fs: seq<Fill>, bid: BrokerId, f: Fill,
                  price: real, qty: real)
    requires Linked(orders, b, fs) && bid in b.drips
    requires var d := b.drips[bid];
             var next := d.(remaining := d.remaining - qty, filled := d.filled + qty,
                            notional := d.notional + Worth(price, qty), i := d.i + 1);
             && 0.0 < qty <= d.remaining
             && f.orderId == d.order.orderId && f.symbol == d.order.symbol && f.side == d.order.side
             && f.qty == qty && f.price == price
             && r.counter >= b.counter
             && r.acks == b.acks[bid := Ack(bid, if next.remaining <= 0.0 then Filled else PartiallyFilled, next.filled,
                                            if next.filled > 0.0 then next.notional / next.filled else 0.0)]
             && r.drips == if next.remaining <= 0.0 then b.drips - {bid} else b.drips[bid := next]
    ensures Linked(orders, r, fs + [f])
  {
    hide Sum, Worth, AckTells, DripTells;
    var d := b.drips[bid];
    var id := d.order.orderId;
    var all := fs + [f];
    assert OrderLinked(orders[id], b.acks, b.drips, fs);
    SliceTells(bid, b.acks[bid], d, orders[id], fs, f, price, qty);
    forall i | i in orders ensures OrderLinked(orders[i], r.acks, r.drips, all) {
      if i != id {
        OthersLinked(orders[i], b.acks, b.drips, fs, f);
        OtherBroker(orders[i], b.acks, b.drips, r.acks, r.drips, all, bid);
      }
    }
    SentMatches(orders, b, fs, bid, f);
  }

  lemma SentMatches(orders: map<OrderId, OrderRow>, b: Broker, fs: seq<Fill>, bid: BrokerId, f: Fill)
    requires Linked(orders, b, fs) && bid in b.drips
    requires var o := b.drips[bid].order; f.orderId == o.orderId && f.symbol == o.symbol && f.side == o.side
    ensures forall g :: g in fs + [f] ==> Matches(orders, g)
  {
    hide Sum, Worth;
    assert OrderLinked(orders[f.orderId], b.acks, b.drips, fs);
    assert forall g :: g in fs + [f] ==> g in fs || g == f;
  }

  // An order's link looks at its own broker id only.
  lemma OtherBroker(row: OrderRow, acks: map<BrokerId, Ack>, drips: map<BrokerId, Drip>,
                    acks': map<BrokerId, Ack>, drips': map<BrokerId, Drip>, fs: seq<Fill>, bid: BrokerId)
    requires OrderLinked(row, acks, drips, fs) && row.brokerId != Some(bid)
    requires forall i :: i in acks && i != bid ==> i in acks' && acks'[i] == acks[i]
    requires forall i :: i in drips' && i != bid ==> i in drips && drips[i] == drips'[i]
    ensures OrderLinked(row, acks', drips', fs)
  {
    hide AckTells, DripTells;
  }

  lemma SliceTells(bid: BrokerId, a: Ack, d: Drip, row: OrderRow, fs: seq<Fill>, f: Fill, price: real, qty: real)
    requires AckTells(a, row.orderId, fs) && DripTells(d, row, fs)
    requires 0.0 < qty <= d.remaining && f.orderId == row.orderId && f.qty == qty && f.price == price
    ensures var next := d.(remaining := d.remaining - qty, filled := d.filled + qty,
                           notional := d.notional + Worth(price, qty), i := d.i + 1);
            && AckTells(Ack(bid, if next.remaining <= 0.0 then Filled else PartiallyFilled, next.filled,
                            if next.filled > 0.0 then next.notional / next.filled else 0.0), row.orderId, fs + [f])
            && next.filled <= row.qty && (next.remaining <= 0.0 <==> next.filled == row.qty)
            && (next.remaining > 0.0 ==> DripTells(next, row, fs + [f]))
  {
    hide Sum, Worth;
    SumOneMore(fs, f, QtyFor(row.orderId));
    SumOneMore(fs, f, SpentFor(row.orderId));
    SumNonNegative(fs, QtyFor(row.orderId));
    MeanOfAll(d.notional + Worth(price, qty), d.filled + qty);
  }

  // ----- submit -----

  // What a dispatched submit has done to the engine before the broker answers.
  ghost predicate IsDispatched(x: State, e: State, req: Request, id: OrderId) {
    && id !in x.orders && req.qty > 0.0 && req.Key() !in x.registry
    && e.orders == x.orders[id := RequestedRow(req, id)]
    && e.registry == x.registry[req.Key() := Claim(id, false)]
    && e.disk.fills == x.disk.fills && e.seen == x.seen
  }

  lemma SubmitShape(x: State, req: Request, id: OrderId)
    requires id !in x.orders
    ensures var (e, outcome) := SubmitBegin(x, req, id);
            && (outcome.Dispatched? ==> IsDispatched(x, e, req, id))
            && (!outcome.Dispatched? && !outcome.Unstored? ==>
                  e.orders == x.orders && e.registry == x.registry && e.disk == x.disk && e.seen == x.seen)
  {
    hide Available, OrderFits, WrittenRow;
  }

  lemma NewOrderLinked(orders: map<OrderId, OrderRow>, b: Broker, fs: seq<Fill>, req: Request, id: OrderId)
    requires Linked(orders, b, fs) && id !in orders && req.qty > 0.0
    ensures Linked(orders[id := RequestedRow(req, id)], b, fs)
  {
    hide Sum, Worth, AckTells, DripTells;
  }

  lemma SubmitKeeps(p: Setup, x: Sys, req: Request, id: OrderId)
    requires SysInv(p, x)
    ensures SysInv(p, SubmitStep(p, x, req, id))
  {
    hide Agrees, Streams, Linked, SubmitBegin;
    if id !in x.eng.orders {
      SubmitAgrees(p.config, x.eng, req, id);
      SubmitShape(x.eng, req, id);
      var (e, outcome) := SubmitBegin(x.eng, req, id);
      if outcome.Dispatched? {
        DispatchKeeps(p, x, e, req, id);
      } else {
        StreamsAfterEngine(x, e);
      }
    }
  }

  lemma DispatchKeeps(p: Setup, x: Sys, e: State, req: Request, id: OrderId)
    requires SysInv(p, x) && Agrees(p.config, e) && IsDispatched(x.eng, e, req, id)
    ensures var (b, reply) := Answered(p.mock, x.brk, e.orders[id]);
            SysInv(p, Emitting(x, b).(eng := if reply.Acknowledged? then SubmitAck(e, id, reply.ack) else e))
  {
    hide Agrees, Streams, Linked, Answered, SubmitAck;
    var y := x.(eng := e);
    StreamsAfterEngine(x, e);
    NewOrderLinked(x.eng.orders, x.brk, x.emitted, req, id);
    assert SysInv(p, y);
    AnswerShape(p.mock, x.brk, e.orders[id]);
    var (b, reply) := Answered(p.mock, x.brk, e.orders[id]);
    if !reply.Acknowledged? {
      StreamsQuiet(y, b);
      LinkedQuiet(e.orders, x.brk, b, x.emitted);
    } else {
      AcceptedKeeps(p, y, id, b, reply.ack);
    }
  }

  lemma LinkedQuiet(orders: map<OrderId, OrderRow>, b: Broker, r: Broker, fs: seq<Fill>)
    requires Linked(orders, b, fs) && r.acks == b.acks && r.drips == b.drips && r.counter >= b.counter
    ensures Linked(orders, r, fs)
  {
    hide Sum, Worth, AckTells, DripTells;
  }

  // The broker's two ways of accepting an order.
  ghost predicate FilledAtOnce(b: Broker, o: OrderRow, r: Broker, ack: Ack, f: Fill) {
    && ack == Ack(b.counter + 1, Filled, o.qty, f.price)
    && r.queue == b.queue + [f] && r.account == BrokerBook.AccountStep(b.account, f)
    && r.counter == b.counter + 2 && f.fillId == r.counter && f.exec == Some(Exec(f.fillId)) && f.ts == f.fillId
    && f.orderId == o.orderId && f.symbol == o.symbol && f.side == o.side && f.qty == o.qty
    && r.drips == b.drips
  }

  ghost predicate SlicedLater(b: Broker, o: OrderRow, r: Broker, ack: Ack) {
    && ack == Ack(b.counter + 1, Working, 0.0, 0.0)
    && r.queue == b.queue && r.account == b.account && r.counter == b.counter + 1
    && r.drips == b.drips[b.counter + 1 := Drip(o, None, o.qty, 0.0, 0.0, 0)]
  }

  ghost predicate Accepted(b: Broker, o: OrderRow, r: Broker, ack: Ack) {
    && r.acks == b.acks[b.counter + 1 := ack]
    && o.clientId.Some? && r.byClient == b.byClient[o.clientId.value := b.counter + 1]
    && (SlicedLater(b, o, r, ack) || exists f: Fill :: FilledAtOnce(b, o, r, ack, f))
  }

  lemma AnswerShape(c: MockConfig, b: Broker, o: OrderRow)
    requires o.clientId.Some? && o.clientId.value !in b.byClient
    ensures var (r, reply) := Answered(c, b, o);
            if reply.Acknowledged? then Accepted(b, o, r, reply.ack)
            else r == b.(transients := r.transients, counter := r.counter) && r.counter >= b.counter
  {
    hide BrokerBook.AccountStep, Quantize, Worth;
    var (r, reply) := Answered(c, b, o);
    if reply.Acknowledged? && c.slices <= 1 {
      var f := Executed(c, o, o.qty, reply.ack.avgPrice, b.counter + 2);
      assert FilledAtOnce(b, o, r, reply.ack, f);
    }
  }

  lemma AcceptedKeeps(p: Setup, y: Sys, id: OrderId, b: Broker, ack: Ack)
    requires SysInv(p, y) && id in y.eng.orders && y.eng.orders[id].orderId == id
    requires y.eng.orders[id].status.New? && y.eng.orders[id].brokerId.None? && !y.eng.orders[id].confirmed
    requires y.eng.orders[id].clientId.Some?
    requires y.eng.orders[id].clientId.value in y.eng.registry && Accepted(y.brk, y.eng.orders[id], b, ack)
    ensures SysInv(p, Emitting(y, b).(eng := SubmitAck(y.eng, id, ack)))
  {
    hide Agrees, Streams, Linked, SubmitAck, FilledAtOnce, SlicedLater;
    var o := y.eng.orders[id];
    AckStatus(y.brk, o, b, ack);
    AckAgrees(p.config, y.eng, id, ack);
    AckEffect(y.eng, id, ack);
    var e := SubmitAck(y.eng, id, ack);
    if SlicedLater(y.brk, o, b, ack) {
      QuietAccept(y.brk, o, b, ack);
      StreamsQuiet(y, b);
      SlicedLinked(y.eng.orders, y.brk, y.emitted, o, b, ack);
    } else {
      var f: Fill :| FilledAtOnce(y.brk, o, b, ack, f);
      LoudAccept(y.brk, o, b, ack, f);
      StreamsEmit(y, b, f);
      FilledLinked(y.eng.orders, y.brk, y.emitted, o, b, ack, f);
    }
    StreamsAfterEngine(Emitting(y, b), e);
  }

  lemma AckStatus(b: Broker, o: OrderRow, r: Broker, ack: Ack)
    requires Accepted(b, o, r, ack)
    ensures ack.brokerId == b.counter + 1 && !ack.status.Cancelled?
  {
  }

  lemma QuietAccept(b: Broker, o: OrderRow, r: Broker, ack: Ack)
    requires SlicedLater(b, o, r, ack)
    ensures r.queue == b.queue && r.account == b.account && b.counter <= r.counter
  {
  }

  lemma LoudAccept(b: Broker, o: OrderRow, r: Broker, ack: Ack, f: Fill)
    requires FilledAtOnce(b, o, r, ack, f)
    ensures r.queue == b.queue + [f] && r.account == BrokerBook.AccountStep(b.account, f)
    ensures b.counter < f.fillId <= r.counter && f.exec == Some(Exec(f.fillId)) && f.ts == f.fillId
  {
  }

  // The acknowledged row: named by the broker, and submitted.
  function NamedRow(o: OrderRow, bid: BrokerId): OrderRow {
    o.(status := Submitted, brokerId := Some(bid))
  }

  lemma AckEffect(e: State, id: OrderId, ack: Ack)
    requires id in e.orders && e.orders[id].orderId == id && !ack.status.Cancelled?
    requires e.orders[id].status.New? && e.orders[id].brokerId.None?
    ensures Acked(e.orders[id], ack) == Outcome(NamedRow(e.orders[id], ack.brokerId), None)
    ensures var r := SubmitAck(e, id, ack);
            && r.orders == e.orders[id := NamedRow(e.orders[id], ack.brokerId)]
            && r.disk.fills == e.disk.fills && r.seen == e.seen && r.registry.Keys == e.registry.Keys
  {
    hide Stored;
    var row := NamedRow(e.orders[id], ack.brokerId);
    var sent := if row.clientId.Some? then e.(registry := Sent(e.registry, row.clientId.value)) else e;
    StoredEffect(sent, row);
  }

  lemma NamedLinked(orders: map<OrderId, OrderRow>, b: Broker, fs: seq<Fill>, o: OrderRow, r: Broker, all: seq<Fill>)
    requires Linked(orders, b, fs) && o.orderId in orders && orders[o.orderId] == o && o.brokerId.None?
    requires b.counter + 1 in r.acks && forall i :: i in b.acks ==> i in r.acks && r.acks[i] == b.acks[i]
    requires forall i :: i in r.acks ==> i in b.acks || i == b.counter + 1
    requires forall i :: i in r.drips && i != b.counter + 1 ==> i in b.drips && b.drips[i] == r.drips[i]
    requires r.counter >= b.counter + 1
    requires all == fs
      || (|all| == |fs| + 1 && all[..|fs|] == fs && all[|fs|].orderId == o.orderId && Matches(orders, all[|fs|]))
    requires OrderLinked(NamedRow(o, b.counter + 1), r.acks, r.drips, all)
    requires b.counter + 1 in r.drips ==> r.drips[b.counter + 1].order.orderId == o.orderId
    ensures Linked(orders[o.orderId := NamedRow(o, b.counter + 1)], r, all)
  {
    hide Sum, Worth, AckTells, DripTells, Matches;
    var bid := b.counter + 1;
    var after := orders[o.orderId := NamedRow(o, bid)];
    BrokerIdsKnown(orders, b, fs);
    forall i | i in after ensures after[i].orderId == i && OrderLinked(after[i], r.acks, r.drips, all) {
      if i != o.orderId {
        OtherOrderLinked(orders[i], b, r, fs, all, bid);
      }
    }
    NamedMatches(orders, o, bid, fs, all);
  }

  lemma OtherOrderLinked(row: OrderRow, b: Broker, r: Broker, fs: seq<Fill>, all: seq<Fill>, bid: BrokerId)
    requires OrderLinked(row, b.acks, b.drips, fs) && row.brokerId != Some(bid)
    requires forall i :: i in b.acks && i != bid ==> i in r.acks && r.acks[i] == b.acks[i]
    requires forall i :: i in r.drips && i != bid ==> i in b.drips && b.drips[i] == r.drips[i]
    requires all == fs || (|all| == |fs| + 1 && all[..|fs|] == fs && all[|fs|].orderId != row.orderId)
    ensures OrderLinked(row, r.acks, r.drips, all)
  {
    hide OrderLinked;
    if all != fs {
      assert all == fs + [all[|fs|]];
      OthersLinked(row, b.acks, b.drips, fs, all[|fs|]);
    }
    OtherBroker(row, b.acks, b.drips, r.acks, r.drips, all, bid);
  }

  lemma NamedMatches(orders: map<OrderId, OrderRow>, o: OrderRow, bid: BrokerId, fs: seq<Fill>, all: seq<Fill>)
    requires o.orderId in orders && orders[o.orderId] == o && forall g :: g in fs ==> Matches(orders, g)
    requires all == fs || (|all| == |fs| + 1 && all[..|fs|] == fs && Matches(orders, all[|fs|]))
    ensures forall g :: g in all ==> Matches(orders[o.orderId := NamedRow(o, bid)], g)
  {
    forall g | g in all ensures Matches(orders[o.orderId := NamedRow(o, bid)], g) {
      assert g in fs || g == all[|fs|];
      assert Matches(orders, g);
    }
  }

  // A broker id in use was acknowledged, so it is not above the counter.
  lemma BrokerIdsKnown(orders: map<OrderId, OrderRow>, b: Broker, fs: seq<Fill>)
    requires Linked(orders, b, fs)
    ensures forall i :: i in orders ==> orders[i].brokerId != Some(b.counter + 1)
    ensures b.counter + 1 !in b.drips && b.counter + 1 !in b.acks
  {
    hide Sum, Worth, AckTells, DripTells;
    forall i | i in orders ensures orders[i].brokerId != Some(b.counter + 1) {
      assert OrderLinked(orders[i], b.acks, b.drips, fs);
    }
  }

  lemma SlicedLinked(orders: map<OrderId, OrderRow>, b: Broker, fs: seq<Fill>, o: OrderRow, r: Broker, ack: Ack)
    requires Linked(orders, b, fs) && o.orderId in orders && orders[o.orderId] == o && o.brokerId.None?
    requires Accepted(b, o, r, ack) && SlicedLater(b, o, r, ack)
    ensures Linked(orders[o.orderId := NamedRow(o, b.counter + 1)], r, fs)
  {
    hide Linked;
    LinkOf(orders, b, fs, o.orderId);
    NoFillsNoSum(fs, o.orderId);
    WorthOfZero(0.0);
    BrokerIdsKnown(orders, b, fs);
    assert OrderLinked(NamedRow(o, b.counter + 1), r.acks, r.drips, fs);
    NamedLinked(orders, b, fs, o, r, fs);
  }

  lemma FilledLinked(orders: map<OrderId, OrderRow>, b: Broker, fs: seq<Fill>, o: OrderRow, r: Broker, ack: Ack,
                     f: Fill)
    requires Linked(orders, b, fs) && o.orderId in orders && orders[o.orderId] == o && o.brokerId.None?
    requires Accepted(b, o, r, ack) && FilledAtOnce(b, o, r, ack, f)
    ensures Linked(orders[o.orderId := NamedRow(o, b.counter + 1)], r, fs + [f])
  {
    hide Linked, Worth, Sum, BrokerBook.AccountStep;
    LinkOf(orders, b, fs, o.orderId);
    NoFillsNoSum(fs, o.orderId);
    SumOneMore(fs, f, QtyFor(o.orderId));
    SumOneMore(fs, f, SpentFor(o.orderId));
    BrokerIdsKnown(orders, b, fs);
    assert OrderLinked(NamedRow(o, b.counter + 1), r.acks, r.drips, fs + [f]);
    NamedLinked(orders, b, fs, o, r, fs + [f]);
  }

  // ----- Every run -----

  lemma StepKeeps(p: Setup, x: Sys, ev: SysEvent)
    requires SysInv(p, x)
    ensures SysInv(p, SysStep(p, x, ev))
  {
    hide Agrees, Streams, Linked, SubmitStep, DrainStep, CancelStep, ConfirmStep, OnFill, Load, DripSlice, KnownClients;
    match ev {
      case Submits(req, id) => SubmitKeeps(p, x, req, id);
      case DripStarts(bid) =>
        if bid in x.brk.drips {
          DripStartKeeps(p, x, bid);
        }
      case DripTurns(bid) =>
        if bid in x.brk.drips && x.brk.drips[bid].base.Some? {
          DripKeeps(p, x, bid);
        }
      case Drains => DrainKeeps(p, x);
      case Redelivers(i) =>
        if i < |x.kept| {
          RedeliveryKeeps(p, x, i);
        }
      case Cancels(id) => CancelKeeps(p, x, id);
      case Confirms(id) => ConfirmKeeps(p, x, id);
      case PriceMoves(s, price) => PricesDoNotMatter(p, x, x.brk.(prices := x.brk.prices[s := price]), x.eng);
      case Marks(s, mark) => PricesDoNotMatter(p, x, x.brk, x.eng.(marks := x.eng.marks[s := mark]));
      case EngineRestarts => ReloadKeeps(p, x);
    }
  }

  lemma PricesDoNotMatter(p: Setup, x: Sys, b: Broker, e: State)
    requires SysInv(p, x) && b == x.brk.(prices := b.prices) && e == x.eng.(marks := e.marks)
    ensures SysInv(p, x.(brk := b, eng := e))
  {
    hide Worth, Sum, Keyed, Replays, Books, OrderLinked;
  }

  lemma {:induction false} EveryRun(p: Setup, x: Sys, evs: seq<SysEvent>)
    requires SysInv(p, x)
    ensures SysInv(p, SysRun(p, x, evs))
  {
    hide SysInv, SysStep;
    if evs != [] {
      EveryRun(p, x, evs[..|evs| - 1]);
      StepKeeps(p, SysRun(p, x, evs[..|evs| - 1]), evs[|evs| - 1]);
    }
  }
}
