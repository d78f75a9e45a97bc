// The mock broker (app/brokers/mock.py): submission, sliced fills, acks and the snapshot.

module MockBroker {
  import opened Models
  import opened Money
  import opened Sums
  import opened CostBasis
  import opened Orders
  import BrokerBook
  import Reconcile

  datatype Drift = Drift(symbol: Symbol, qtyDelta: real, avgDelta: real, realizedDelta: real, unrealizedDelta: real,
                         feeDelta: real)

  datatype MockConfig = MockConfig(feePerShare: real, slices: int, rejects: set<Symbol>, drift: Option<Drift>)

  // ----- quantize: round to a multiple of the unit, halves to the even one -----

  function RoundHalfEven(x: real): int {
    var f := x.Floor;
    var frac := x - f as real;
    if frac < 0.5 then f else if frac > 0.5 then f + 1 else if f % 2 == 0 then f else f + 1
  }

  const CENTS := 0.01
  const TENTHS_OF_MILLS := 0.0001

  function Quantize(x: real, unit: real): real
    requires unit != 0.0
  {
    RoundHalfEven(x / unit) as real * unit
  }

  lemma QuantizePositive(x: real, unit: real)
    requires unit > 0.0
    ensures Quantize(x, unit) > 0.0 <==> x > unit / 2.0
  {
    var k := x / unit;
    assert k > 0.5 <==> x > unit / 2.0 by {
      assert k * unit == x;
      SignOfProduct(k - 0.5, unit);
      assert (k - 0.5) * unit == x - unit / 2.0;
    }
    assert RoundHalfEven(k) > 0 <==> k > 0.5;
    SignOfProduct(RoundHalfEven(k) as real, unit);
  }

  // A multiple of the unit nearest to x, the even one of two equally near.
  ghost predicate IsNearest(x: real, unit: real, r: real) {
    exists k: int :: Nearest(x, unit, r, k)
  }

  predicate Nearest(x: real, unit: real, r: real, k: int) {
    && r == Worth(k as real, unit)
    && (Abs(x - r) < unit / 2.0 || (Abs(x - r) == unit / 2.0 && k % 2 == 0))
  }

  lemma QuantizeIsNearest(x: real, unit: real)
    requires unit > 0.0
    ensures IsNearest(x, unit, Quantize(x, unit))
  {
    var k := RoundHalfEven(x / unit);
    var d := x / unit - k as real;
    assert d * unit == x - k as real * unit by {
      assert x / unit * unit == x;
    }
    RoundedIsNear(x / unit);
    Scaled(d, unit);
    assert Quantize(x, unit) == Worth(k as real, unit);
    assert Nearest(x, unit, Quantize(x, unit), k);
  }

  lemma RoundedIsNear(y: real)
    ensures var d := y - RoundHalfEven(y) as real;
            -0.5 <= d <= 0.5 && (d == 0.5 || d == -0.5 ==> RoundHalfEven(y) % 2 == 0)
  {
  }

  lemma Scaled(d: real, unit: real)
    requires unit > 0.0
    ensures d < 0.5 <==> d * unit < unit / 2.0
    ensures d == 0.5 <==> d * unit == unit / 2.0
    ensures -0.5 < d <==> -unit / 2.0 < d * unit
    ensures d == -0.5 <==> d * unit == -unit / 2.0
  {
    SignOfProduct(d - 0.5, unit);
    SignOfProduct(d + 0.5, unit);
    assert (d - 0.5) * unit == d * unit - unit / 2.0;
    assert (d + 0.5) * unit == d * unit + unit / 2.0;
  }

  // There is one such multiple, so rounding is what it says.
  lemma NearestIsQuantized(x: real, unit: real, r: real)
    requires unit > 0.0
    ensures IsNearest(x, unit, r) <==> r == Quantize(x, unit)
  {
    QuantizeIsNearest(x, unit);
    if IsNearest(x, unit, r) {
      var q := Quantize(x, unit);
      var j: int, k: int :| Nearest(x, unit, q, j) && Nearest(x, unit, r, k);
      OneNearest(x, unit, q, j, r, k);
    }
  }

  lemma OneNearest(x: real, unit: real, q: real, j: int, r: real, k: int)
    requires unit > 0.0 && Nearest(x, unit, q, j) && Nearest(x, unit, r, k)
    ensures j == k
  {
    hide Worth;
    Apart(j, k, unit, q, r);
    if j % 2 == 0 && k % 2 == 0 {
      assert (j - k) % 2 == 0;
    }
  }

  // Different multiples are at least a unit apart, and two units unless they are neighbours.
  lemma Apart(j: int, k: int, unit: real, q: real, r: real)
    requires unit > 0.0 && q == Worth(j as real, unit) && r == Worth(k as real, unit)
    ensures j > k ==> q - r >= unit && (j - k >= 2 ==> q - r >= 2.0 * unit)
    ensures k > j ==> r - q >= unit && (k - j >= 2 ==> r - q >= 2.0 * unit)
  {
    hide Worth;
    if j > k {
      assert j as real - k as real == (j - k) as real;
      Above(j as real, k as real, unit);
    } else if k > j {
      assert k as real - j as real == (k - j) as real;
      Above(k as real, j as real, unit);
    }
  }

  lemma Above(x: real, y: real, unit: real)
    requires unit > 0.0
    ensures x - y >= 1.0 ==> Worth(x, unit) - Worth(y, unit) >= unit
    ensures x - y >= 2.0 ==> Worth(x, unit) - Worth(y, unit) >= 2.0 * unit
  {
    hide Worth;
    WorthMoves(x, y, unit);
    AtLeast(x - y, unit);
  }

  lemma AtLeast(d: real, unit: real)
    requires unit > 0.0
    ensures d >= 1.0 ==> Worth(d, unit) >= unit
    ensures d >= 2.0 ==> Worth(d, unit) >= 2.0 * unit
  {
    SignOfProduct(d - 1.0, unit);
    SignOfProduct(d - 2.0, unit);
    assert (d - 1.0) * unit == d * unit - unit && (d - 2.0) * unit == d * unit - 2.0 * unit;
  }

  // ----- State -----

  // A drip between two slices: the local variables of _drip.
  datatype Drip = Drip(order: OrderRow, base: Option<real>, remaining: real, filled: real, notional: real, i: nat)

  datatype Broker = Broker(
    account: BrokerBook.Account,
    queue: seq<Fill>,
    acks: map<BrokerId, Ack>,
    byClient: map<Key, BrokerId>,
    drips: map<BrokerId, Drip>,
    counter: nat,
    transients: nat,
    prices: map<Symbol, real>)

  function NewBroker(transients: nat, prices: map<Symbol, real>): Broker {
    Broker(BrokerBook.EMPTY_ACCOUNT, [], map[], map[], map[], 0, transients, prices)
  }

  function PriceFor(b: Broker, s: Symbol): real {
    if s in b.prices then b.prices[s] else 100.0
  }

  // `order.limit_price or price`: a zero limit is no limit.
  function LimitOr(o: OrderRow, price: real): real {
    if o.limitPrice.Some? && o.limitPrice.value != 0.0 then o.limitPrice.value else price
  }

  // An execution of the order; ids, and here the timestamp too, come from the counter.
  function Executed(c: MockConfig, o: OrderRow, qty: Size, price: Amount, n: nat): Fill {
    Execution(o.orderId, o.symbol, o.side, qty, price, Quantize(Worth(c.feePerShare, qty), CENTS), n, Some(Exec(n)), n)
  }

  // The fill reaches the broker's book first and then the stream.
  function Emitted(b: Broker, f: Fill): Broker {
    b.(account := BrokerBook.AccountStep(b.account, f), queue := b.queue + [f])
  }

  // ----- submit -----

  datatype SubmitReply = Acknowledged(ack: Ack) | OrderRejected | Transient | Errored

  function AcceptImmediate(c: MockConfig, b: Broker, o: OrderRow, bid: BrokerId): (Broker, SubmitReply) {
    var price := LimitOr(o, PriceFor(b, o.symbol));
    var n := b.counter + 1;
    if price < 0.0 then (b.(counter := n), Errored)
    else
      var ack := Ack(bid, Filled, o.qty, price);
      (Emitted(b.(counter := n), Executed(c, o, o.qty, price, n)).(acks := b.acks[bid := ack]), Acknowledged(ack))
  }

  function AcceptSliced(b: Broker, o: OrderRow, bid: BrokerId): (Broker, SubmitReply) {
    var ack := Ack(bid, Working, 0.0, 0.0);
    (b.(acks := b.acks[bid := ack], drips := b.drips[bid := Drip(o, None, o.qty, 0.0, 0.0, 0)]), Acknowledged(ack))
  }

  function Answered(c: MockConfig, b: Broker, o: OrderRow): (Broker, SubmitReply) {
    if o.clientId.Some? && o.clientId.value in b.byClient then
      var bid := b.byClient[o.clientId.value];
      (b, if bid in b.acks then Acknowledged(b.acks[bid]) else Errored)
    else if o.symbol in c.rejects then (b, OrderRejected)
    else if b.transients > 0 then (b.(transients := b.transients - 1), Transient)
    else
      var bid := b.counter + 1;
      var taken := b.(counter := bid);
      var r := if c.slices <= 1 then AcceptImmediate(c, taken, o, bid) else AcceptSliced(taken, o, bid);
      if r.1.Acknowledged? && o.clientId.Some? then (r.0.(byClient := r.0.byClient[o.clientId.value := bid]), r.1)
      else r
  }

  // ----- the drip, one slice at a time -----

  function SliceQty(c: MockConfig, qty: real): real {
    if c.slices == 0 then 0.0 else Quantize(qty / c.slices as real, TENTHS_OF_MILLS)
  }

  function DripStarted(b: Broker, bid: BrokerId): Broker
    requires bid in b.drips
  {
    b.(drips := b.drips[bid := b.drips[bid].(base := Some(PriceFor(b, b.drips[bid].order.symbol)))])
  }

  function NextQty(c: MockConfig, d: Drip): real {
    if d.i == c.slices - 1 then d.remaining else Min(SliceQty(c, d.order.qty), d.remaining)
  }

  function NextPrice(d: Drip): real
    requires d.base.Some?
  {
    LimitOr(d.order, d.base.value) + d.i as real * CENTS
  }

  // One turn of the loop in _drip. Without a quantity it breaks; a negative price raises in
  // the Fill constructor and ends the drip.
  function DripSlice(c: MockConfig, b: Broker, bid: BrokerId): Broker
    requires bid in b.drips && b.drips[bid].base.Some?
  {
    var d := b.drips[bid];
    var qty, price := NextQty(c, d), NextPrice(d);
    if d.i >= c.slices || qty <= 0.0 then b.(drips := b.drips - {bid})
    else if price < 0.0 then b.(drips := b.drips - {bid}, counter := b.counter + 1)
    else
      var n := b.counter + 1;
      var next := d.(remaining := d.remaining - qty, filled := d.filled + qty,
                     notional := d.notional + Worth(price, qty), i := d.i + 1);
      var done := next.remaining <= 0.0;
      var ack := Ack(bid, if done then Filled else PartiallyFilled, next.filled,
                     if next.filled > 0.0 then next.notional / next.filled else 0.0);
      Emitted(b.(counter := n), Executed(c, d.order, qty, price, n)).(
        acks := b.acks[bid := ack],
        drips := if done then b.drips - {bid} else b.drips[bid := next])
  }

  // The first k turns of the loop, as far as the drip lives.
  function DripRun(c: MockConfig, b: Broker, bid: BrokerId, k: nat): Broker {
    if k == 0 then b
    else
      var before := DripRun(c, b, bid, k - 1);
      if bid in before.drips && before.drips[bid].base.Some? then DripSlice(c, before, bid) else before
  }

  // ----- cancel and query -----

  function CancelAnswer(b: Broker, bid: Option<BrokerId>): (Broker, Ack) {
    if bid.None? || bid.value !in b.acks then (b, Ack(0, Rejected, 0.0, 0.0))
    else
      var ack := b.acks[bid.value];
      if ack.status.IsOpen() then
        var cancelled := Ack(bid.value, Cancelled, ack.filled, ack.avgPrice);
        (b.(acks := b.acks[bid.value := cancelled]), cancelled)
      else (b, ack)
  }

  function Queried(b: Broker, bid: Option<BrokerId>): Ack {
    if bid.Some? && bid.value in b.acks then b.acks[bid.value] else Ack(0, Rejected, 0.0, 0.0)
  }

  // ----- the snapshot, drift applied -----

  function DriftQty(c: MockConfig, s: Symbol): real {
    if c.drift.Some? && c.drift.value.symbol == s then c.drift.value.qtyDelta else 0.0
  }

  function DriftAvg(c: MockConfig, s: Symbol): real {
    if c.drift.Some? && c.drift.value.symbol == s then c.drift.value.avgDelta else 0.0
  }

  function RowFor(c: MockConfig, b: Broker, s: Symbol): Reconcile.BrokerRow {
    var p := BrokerBook.At(b.account, s);
    var qty, avg := p.qty + DriftQty(c, s), p.avg + DriftAvg(c, s);
    Reconcile.BrokerRow(s, qty, avg, p.realized, Worth(PriceFor(b, s) - avg, qty))
  }

  // Flat symbols are left out.
  function Reported(c: MockConfig, b: Broker): set<Symbol> {
    set s | s in b.account.positions && RowFor(c, b, s).qty != 0.0
  }

  function UnrealizedFor(c: MockConfig, b: Broker): Symbol -> real {
    (s: Symbol) => RowFor(c, b, s).unrealized
  }

  // The rows list the given symbols once each.
  ghost predicate RowsFor(rows: seq<Reconcile.BrokerRow>, c: MockConfig, b: Broker, symbols: set<Symbol>) {
    && (set r | r in rows :: r.symbol) == symbols
    && (forall i :: 0 <= i < |rows| ==> rows[i] == RowFor(c, b, rows[i].symbol))
    && (forall i, j :: 0 <= i < j < |rows| ==> rows[i].symbol != rows[j].symbol)
  }

  ghost predicate IsSnapshot(x: Reconcile.Snapshot, c: MockConfig, b: Broker) {
    && RowsFor(x.rows, c, b, Reported(c, b))
    && x.unrealized
         == Over(Reported(c, b), UnrealizedFor(c, b)) + (if c.drift.Some? then c.drift.value.unrealizedDelta else 0.0)
    && x.realized == b.account.realized - b.account.fees + (if c.drift.Some? then c.drift.value.realizedDelta else 0.0)
    && x.fees == b.account.fees + (if c.drift.Some? then c.drift.value.feeDelta else 0.0)
  }

  // ----- The broker object -----

  class MockBroker {
    const config: MockConfig
    var positions: map<Symbol, BrokerBook.BrokerPosition>
    var realized: real
    var fees: real
    var queue: seq<Fill>
    var acks: map<BrokerId, Ack>
    var byClient: map<Key, BrokerId>
    var drips: map<BrokerId, Drip>
    var counter: nat
    var transients: nat
    var prices: map<Symbol, real>

    constructor (config: MockConfig, transients: nat, prices: map<Symbol, real>)
      ensures View() == NewBroker(transients, prices) && this.config == config
    {
      this.config, this.transients, this.prices := config, transients, prices;
      positions, realized, fees, queue := map[], 0.0, 0.0, [];
      acks, byClient, drips, counter := map[], map[], map[], 0;
    }

    function View(): Broker
      reads this
    {
      Broker(BrokerBook.Account(positions, realized, fees), queue, acks, byClient, drips, counter, transients, prices)
    }

    method NextId() returns (n: nat)
      modifies this`counter
      ensures n == counter == old(counter) + 1
    {
      counter := counter + 1;
      n := counter;
    }

    method ApplyToBook(fill: Fill)
      modifies this`positions, this`realized, this`fees
      ensures View() == old(View()).(account := BrokerBook.AccountStep(old(View()).account, fill))
    {
      hide Mean, PieceGain;
      fees := fees + fill.fee;
      var pos := if fill.symbol in positions then positions[fill.symbol] else BrokerBook.NO_POSITION;
      var qty, avg := pos.qty, pos.avg;
      var signed := fill.SignedQty();
      if qty == 0.0 || (qty > 0.0) == (signed > 0.0) {
        var newQty := qty + signed;
        if newQty != 0.0 {
          avg := Mean(avg, qty, fill.price, signed);
        }
        qty := newQty;
      } else {
        var closing := Min(Abs(signed), Abs(qty));
        var direction := if qty > 0.0 then 1 else -1;
        realized := realized + PieceGain(fill.price, avg, closing, direction);
        qty := qty + signed;
        if qty == 0.0 {
          avg := 0.0;
        }
      }
      positions := positions[fill.symbol := BrokerBook.BrokerPosition(qty, avg, realized)];
    }

    method Emit(fill: Fill)
      modifies this`positions, this`realized, this`fees, this`queue
      ensures View() == Emitted(old(View()), fill)
    {
      hide BrokerBook.AccountStep;
      ApplyToBook(fill);
      queue := queue + [fill];
    }

    method FillImmediate(bid: BrokerId, order: OrderRow) returns (reply: SubmitReply)
      modifies this
      ensures (View(), reply) == AcceptImmediate(config, old(View()), order, bid)
    {
      hide BrokerBook.AccountStep, Quantize;
      var price := LimitOr(order, PriceFor(View(), order.symbol));
      var n := NextId();
      if price < 0.0 {
        return Errored;
      }
      Emit(Executed(config, order, order.qty, price, n));
      var ack := Ack(bid, Filled, order.qty, price);
      acks := acks[bid := ack];
      return Acknowledged(ack);
    }

    method Submit(order: OrderRow) returns (reply: SubmitReply)
      modifies this
      ensures (View(), reply) == Answered(config, old(View()), order)
    {
      hide AcceptImmediate;
      if order.clientId.Some? && order.clientId.value in byClient {
        var known := byClient[order.clientId.value];
        return if known in acks then Acknowledged(acks[known]) else Errored;
      }
      if order.symbol in config.rejects {
        return OrderRejected;
      }
      if transients > 0 {
        transients := transients - 1;
        return Transient;
      }
      var bid := NextId();
      if config.slices <= 1 {
        reply := FillImmediate(bid, order);
      } else {
        var ack := Ack(bid, Working, 0.0, 0.0);
        acks := acks[bid := ack];
        drips := drips[bid := Drip(order, None, order.qty, 0.0, 0.0, 0)];
        reply := Acknowledged(ack);
      }
      if reply.Acknowledged? && order.clientId.Some? {
        byClient := byClient[order.clientId.value := bid];
      }
    }

    // The body of the loop in _drip; the coroutine's local variables are kept in its entry.
    method DripTurn(bid: BrokerId)
      requires bid in drips && drips[bid].base.Some?
      modifies this
      ensures View() == DripSlice(config, old(View()), bid)
    {
      hide BrokerBook.AccountStep, Quantize, SliceQty;
      var d := drips[bid];
      if d.i >= config.slices {
        drips := drips - {bid};
        return;
      }
      var qty := if d.i == config.slices - 1 then d.remaining else Min(SliceQty(config, d.order.qty), d.remaining);
      if qty <= 0.0 {
        drips := drips - {bid};
        return;
      }
      var price := LimitOr(d.order, d.base.value) + d.i as real * CENTS;
      var n := NextId();
      if price < 0.0 {
        drips := drips - {bid};
        return;
      }
      Emit(Executed(config, d.order, qty, price, n));
      var remaining, filled, notional := d.remaining - qty, d.filled + qty, d.notional + Worth(price, qty);
      var done := remaining <= 0.0;
      acks := acks[bid := Ack(bid, if done then Filled else PartiallyFilled, filled,
                              if filled > 0.0 then notional / filled else 0.0)];
      drips := if done then drips - {bid}
               else drips[bid := Drip(d.order, d.base, remaining, filled, notional, d.i + 1)];
    }

    // _drip with no pause between slices.
    method DripAll(bid: BrokerId)
      requires bid in drips
      modifies this
      ensures View()
           == DripRun(config, DripStarted(old(View()), bid), bid, if config.slices > 0 then config.slices else 0)
    {
      hide DripSlice;
      drips := drips[bid := drips[bid].(base := Some(PriceFor(View(), drips[bid].order.symbol)))];
      ghost var b := View();
      for i := 0 to if config.slices > 0 then config.slices else 0
        invariant View() == DripRun(config, b, bid, i)
      {
        if bid in drips && drips[bid].base.Some? {
          DripTurn(bid);
        }
      }
    }

    method Cancel(bid: Option<BrokerId>) returns (ack: Ack)
      modifies this`acks
      ensures (View(), ack) == CancelAnswer(old(View()), bid)
    {
      if bid.None? || bid.value !in acks {
        return Ack(0, Rejected, 0.0, 0.0);
      }
      ack := acks[bid.value];
      if ack.status.IsOpen() {
        ack := Ack(bid.value, Cancelled, ack.filled, ack.avgPrice);
        acks := acks[bid.value := ack];
      }
    }

    method QueryOrder(bid: Option<BrokerId>) returns (ack: Ack)
      ensures ack == Queried(View(), bid)
    {
      if bid.Some? && bid.value in acks {
        return acks[bid.value];
      }
      return Ack(0, Rejected, 0.0, 0.0);
    }

    // _snapshot_positions, and the sum over it.
    method SnapshotPositions() returns (rows: seq<Reconcile.BrokerRow>, unrealized: real)
      ensures RowsFor(rows, config, View(), Reported(config, View()))
      ensures unrealized == Over(Reported(config, View()), UnrealizedFor(config, View()))
    {
      hide RowFor, Over, RowsFor, Reported, UnrealizedFor;
      ghost var b := View();
      rows, unrealized := [], 0.0;
      var todo := positions.Keys;
      NoRows(config, b);
      assert Reported(config, b) - todo == {} by {
        ReportedIsTraded(config, b);
      }
      while todo != {}
        invariant todo <= positions.Keys
        invariant SumsRows(rows, unrealized, config, b, Reported(config, b) - todo)
        decreases |todo|
      {
        var s :| s in todo;
        var row := RowFor(config, View(), s);
        OneMoreSymbol(rows, unrealized, config, b, todo, s);
        if row.qty != 0.0 {
          rows := rows + [row];
          unrealized := unrealized + row.unrealized;
        }
        todo := todo - {s};
      }
      assert Reported(config, b) - {} == Reported(config, b);
    }

    method PnlSnapshot() returns (x: Reconcile.Snapshot)
      ensures IsSnapshot(x, config, View())
    {
      hide Over, RowsFor, Reported;
      var rows, unrealized := SnapshotPositions();
      x := Reconcile.Snapshot(realized - fees, unrealized, fees, rows);
      if config.drift.Some? {
        var d := config.drift.value;
        x := Reconcile.Snapshot(x.realized + d.realizedDelta, x.unrealized + d.unrealizedDelta, x.fees + d.feeDelta,
                                rows);
      }
    }
  }

  ghost predicate SumsRows(rows: seq<Reconcile.BrokerRow>, unrealized: real, c: MockConfig, b: Broker,
                           done: set<Symbol>) {
    RowsFor(rows, c, b, done) && unrealized == Over(done, UnrealizedFor(c, b))
  }

  lemma OneMoreSymbol(rows: seq<Reconcile.BrokerRow>, unrealized: real, c: MockConfig, b: Broker, todo: set<Symbol>,
                      s: Symbol)
    requires s in todo && todo <= b.account.positions.Keys
    requires SumsRows(rows, unrealized, c, b, Reported(c, b) - todo)
    ensures var row, done := RowFor(c, b, s), Reported(c, b) - (todo - {s});
            if row.qty != 0.0 then SumsRows(rows + [row], unrealized + row.unrealized, c, b, done)
            else SumsRows(rows, unrealized, c, b, done)
  {
    hide RowFor, Over, RowsFor, Reported;
    ReportedNext(c, b, todo, s);
    if RowFor(c, b, s).qty != 0.0 {
      OneMoreRow(rows, c, b, Reported(c, b) - todo, s);
    } else {
      assert Reported(c, b) - todo + {} == Reported(c, b) - todo;
    }
  }

  lemma ReportedIsTraded(c: MockConfig, b: Broker)
    ensures Reported(c, b) <= b.account.positions.Keys
  {
  }

  lemma ReportedNext(c: MockConfig, b: Broker, todo: set<Symbol>, s: Symbol)
    requires s in todo && todo <= b.account.positions.Keys
    ensures Reported(c, b) - (todo - {s}) == (Reported(c, b) - todo) + if RowFor(c, b, s).qty != 0.0 then {s} else {}
  {
    hide RowFor;
  }

  lemma NoRows(c: MockConfig, b: Broker)
    ensures RowsFor([], c, b, {}) && Over({}, UnrealizedFor(c, b)) == 0.0
  {
  }

  lemma OneMoreRow(rows: seq<Reconcile.BrokerRow>, c: MockConfig, b: Broker, symbols: set<Symbol>, s: Symbol)
    requires RowsFor(rows, c, b, symbols) && s !in symbols
    ensures RowsFor(rows + [RowFor(c, b, s)], c, b, symbols + {s})
    ensures Over(symbols + {s}, UnrealizedFor(c, b)) == Over(symbols, UnrealizedFor(c, b)) + RowFor(c, b, s).unrealized
  {
    hide Worth, Over;
    OverAdded(symbols, UnrealizedFor(c, b), s);
    var row := RowFor(c, b, s);
    forall i | 0 <= i < |rows| ensures rows[i].symbol in symbols {
      assert rows[i] in rows;
    }
    assert forall r :: r in rows + [row] <==> r in rows || r == row;
  }
}
