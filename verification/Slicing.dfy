// What the sliced fills of an order add up to.

module Slicing {
  import opened Models
  import opened Money
  import opened Sums
  import opened Orders
  import opened OrderTheory
  import BrokerBook
  import opened MockBroker

  // The drip of an order, begun and not yet sent anything.
  predicate Fresh(b: Broker, bid: BrokerId) {
    && bid in b.drips
    && var d := b.drips[bid];
       d.base.Some? && d == Drip(d.order, d.base, d.order.qty, 0.0, 0.0, 0)
  }

  function NewFills(b: Broker, r: Broker): seq<Fill> {
    if |b.queue| <= |r.queue| then r.queue[|b.queue|..] else []
  }

  // At the order's limit, or at the base price if it has none or a limit of zero.
  predicate PricedFrom(o: OrderRow, base: real, price: real) {
    && (o.limitPrice == None || o.limitPrice == Some(0.0) ==> price == base)
    && (o.limitPrice != None && o.limitPrice != Some(0.0) ==> price == o.limitPrice.value)
  }

  // The order's j-th slice is priced a cent above the one before.
  predicate IsSlice(o: OrderRow, base: real, f: Fill, j: nat) {
    f.orderId == o.orderId && f.symbol == o.symbol && f.side == o.side
      && PricedFrom(o, base, f.price - j as real * 0.01)
  }

  // Every slice but the last is the rounded share of the quantity.
  predicate EvenButLast(c: MockConfig, qty: real, fs: seq<Fill>) {
    forall j :: 0 <= j < |fs| - 1 ==> fs[j].qty == SliceQty(c, qty)
  }

  predicate Even(c: MockConfig, qty: real, fs: seq<Fill>) {
    forall j :: 0 <= j < |fs| ==> fs[j].qty == SliceQty(c, qty)
  }

  // The rounded share is the nearest ten-thousandth.
  lemma ShareIsNearest(c: MockConfig, qty: real)
    requires c.slices >= 1
    ensures IsNearest(qty / c.slices as real, 0.0001, SliceQty(c, qty))
  {
    QuantizeIsNearest(qty / c.slices as real, TENTHS_OF_MILLS);
  }

  // After k turns: what was sent, and the drip's local variables or how it ended.
  ghost predicate AfterTurns(c: MockConfig, b: Broker, bid: BrokerId, k: nat)
    requires Fresh(b, bid)
  {
    var o, base, r := b.drips[bid].order, b.drips[bid].base, DripRun(c, b, bid, k);
    var fs := NewFills(b, r);
    && b.queue <= r.queue && |fs| <= k
    && (forall j :: 0 <= j < |fs| ==> IsSlice(o, base.value, fs[j], j))
    && if bid in r.drips then
         && r.drips[bid] == Drip(o, base, o.qty - Sum(fs, Qty()), Sum(fs, Qty()), Sum(fs, Spent()), k)
         && |fs| == k && Sum(fs, Qty()) < o.qty && (k > 0 ==> SliceQty(c, o.qty) > 0.0) && Even(c, o.qty, fs)
       else if SliceQty(c, o.qty) > 0.0 then
         Completed(r, bid, o, fs) && EvenButLast(c, o.qty, fs)
       else
         fs == []
  }

  // The whole order is sent and the last ack says so.
  ghost predicate Completed(r: Broker, bid: BrokerId, o: OrderRow, fs: seq<Fill>) {
    && Sum(fs, Qty()) == o.qty
    && bid in r.acks && r.acks[bid].brokerId == bid && r.acks[bid].status == Filled && r.acks[bid].filled == o.qty
    && Worth(r.acks[bid].avgPrice, o.qty) == Sum(fs, Spent())
  }

  lemma {:induction false} Turns(c: MockConfig, b: Broker, bid: BrokerId, k: nat)
    requires Fresh(b, bid) && c.slices >= 2 && LimitOr(b.drips[bid].order, b.drips[bid].base.value) >= 0.0
    requires k <= c.slices
    ensures AfterTurns(c, b, bid, k)
    ensures k == c.slices ==> bid !in DripRun(c, b, bid, k).drips
  {
    hide SliceQty, Sum, Worth, AfterTurns, DripSlice, LimitOr;
    if k == 0 {
      NoTurns(c, b, bid);
    } else {
      Turns(c, b, bid, k - 1);
      var r := DripRun(c, b, bid, k - 1);
      if bid in r.drips {
        OneTurn(c, b, bid, k - 1, r);
      } else {
        IdleTurn(c, b, bid, k - 1);
      }
    }
  }

  lemma NoTurns(c: MockConfig, b: Broker, bid: BrokerId)
    requires Fresh(b, bid)
    ensures AfterTurns(c, b, bid, 0)
  {
    hide SliceQty, Sum, Worth;
    NothingSent();
    assert NewFills(b, b) == [];
  }

  lemma IdleTurn(c: MockConfig, b: Broker, bid: BrokerId, k: nat)
    requires Fresh(b, bid) && AfterTurns(c, b, bid, k) && bid !in DripRun(c, b, bid, k).drips
    ensures AfterTurns(c, b, bid, k + 1) && bid !in DripRun(c, b, bid, k + 1).drips
  {
    hide SliceQty, Sum, Worth, DripSlice;
  }

  lemma NothingSent()
    ensures Sum([], Qty()) == 0.0 && Sum([], Spent()) == 0.0
  {
  }

  lemma OneTurn(c: MockConfig, b: Broker, bid: BrokerId, k: nat, r: Broker)
    requires Fresh(b, bid) && c.slices >= 2 && LimitOr(b.drips[bid].order, b.drips[bid].base.value) >= 0.0
    requires k < c.slices && r == DripRun(c, b, bid, k) && bid in r.drips && AfterTurns(c, b, bid, k)
    ensures AfterTurns(c, b, bid, k + 1)
    ensures k + 1 == c.slices ==> bid !in DripRun(c, b, bid, k + 1).drips
  {
    hide SliceQty, Sum, Worth, BrokerBook.AccountStep, Quantize, NewFills, AfterTurns;
    var d := r.drips[bid];
    AfterOpen(c, b, bid, k, r);
    SliceIsPositive(c, b.drips[bid].order.qty, d, NextQty(c, d));
    if NextQty(c, d) > 0.0 {
      SendingTurn(c, b, bid, k, r);
    } else {
      StuckTurn(c, b, bid, k, r);
    }
  }

  lemma AfterOpen(c: MockConfig, b: Broker, bid: BrokerId, k: nat, r: Broker)
    requires Fresh(b, bid) && r == DripRun(c, b, bid, k) && bid in r.drips && AfterTurns(c, b, bid, k)
    ensures r.drips[bid].order == b.drips[bid].order && r.drips[bid].i == k && r.drips[bid].remaining > 0.0
  {
    hide Sum, Worth, DripRun;
  }

  lemma SendingTurn(c: MockConfig, b: Broker, bid: BrokerId, k: nat, r: Broker)
    requires Fresh(b, bid) && c.slices >= 2 && LimitOr(b.drips[bid].order, b.drips[bid].base.value) >= 0.0
    requires k < c.slices && r == DripRun(c, b, bid, k) && bid in r.drips && AfterTurns(c, b, bid, k)
    requires NextQty(c, r.drips[bid]) > 0.0
    requires k == c.slices - 1 || SliceQty(c, b.drips[bid].order.qty) > 0.0
    ensures AfterTurns(c, b, bid, k + 1)
    ensures k + 1 == c.slices ==> bid !in DripRun(c, b, bid, k + 1).drips
  {
    hide SliceQty, Sum, Worth, Quantize, NewFills, DripSlice;
    var o, d := b.drips[bid].order, r.drips[bid];
    var qty, price := NextQty(c, d), NextPrice(d);
    var next := DripSlice(c, r, bid);
    assert DripRun(c, b, bid, k + 1) == next && price >= 0.0;
    SliceSent(c, r, bid);
    var fs, f := NewFills(b, r), Executed(c, o, qty, price, r.counter + 1);
    OneMoreFill(b, r, next, f);
    SumOneMore(fs, f, Qty());
    SumOneMore(fs, f, Spent());
    MeanOfAll(d.notional + Worth(price, qty), o.qty);
    assert forall j :: 0 <= j < |fs + [f]| ==> IsSlice(o, b.drips[bid].base.value, (fs + [f])[j], j);
  }

  // What a turn that sends leaves: one more fill, and the drip's variables or its last ack.
  lemma SliceSent(c: MockConfig, r: Broker, bid: BrokerId)
    requires bid in r.drips && r.drips[bid].base.Some? && r.drips[bid].i < c.slices
    requires NextQty(c, r.drips[bid]) > 0.0 && NextPrice(r.drips[bid]) >= 0.0
    ensures var d, next := r.drips[bid], DripSlice(c, r, bid);
            var qty, price := NextQty(c, d), NextPrice(d);
            var notional := d.notional + Worth(price, qty);
            && next.queue == r.queue + [Executed(c, d.order, qty, price, r.counter + 1)]
            && (bid in next.drips <==> d.remaining - qty > 0.0)
            && (bid in next.drips ==>
                  next.drips[bid] == Drip(d.order, d.base, d.remaining - qty, d.filled + qty, notional, d.i + 1))
            && (d.remaining - qty <= 0.0 && d.filled + qty > 0.0 ==>
                  bid in next.acks && next.acks[bid] == Ack(bid, Filled, d.filled + qty, notional / (d.filled + qty)))
  {
    hide Worth, BrokerBook.AccountStep, NextQty, NextPrice;
  }

  lemma StuckTurn(c: MockConfig, b: Broker, bid: BrokerId, k: nat, r: Broker)
    requires Fresh(b, bid) && c.slices >= 2
    requires k < c.slices && r == DripRun(c, b, bid, k) && bid in r.drips && AfterTurns(c, b, bid, k)
    requires NextQty(c, r.drips[bid]) <= 0.0
    requires k < c.slices - 1 && SliceQty(c, b.drips[bid].order.qty) <= 0.0
    ensures AfterTurns(c, b, bid, k + 1)
  {
    hide SliceQty, Sum, Worth, BrokerBook.AccountStep, Quantize, NewFills;
    var next := DripSlice(c, r, bid);
    assert DripRun(c, b, bid, k + 1) == next;
    EmptySum(NewFills(b, r));
    NoMoreFills(b, r, next);
  }

  lemma OneMoreFill(b: Broker, r: Broker, next: Broker, f: Fill)
    requires b.queue <= r.queue && next.queue == r.queue + [f]
    ensures b.queue <= next.queue && NewFills(b, next) == NewFills(b, r) + [f]
  {
  }

  lemma NoMoreFills(b: Broker, r: Broker, next: Broker)
    requires b.queue <= r.queue && next.queue == r.queue
    ensures NewFills(b, next) == NewFills(b, r)
  {
  }

  lemma SliceIsPositive(c: MockConfig, total: real, d: Drip, qty: real)
    requires c.slices >= 2 && d.order.qty == total && qty == NextQty(c, d) && d.remaining > 0.0
    ensures qty > 0.0 <==> d.i == c.slices - 1 || SliceQty(c, total) > 0.0
  {
    hide SliceQty;
  }

  lemma MeanOfAll(notional: real, qty: real)
    requires qty > 0.0
    ensures Worth(notional / qty, qty) == notional
  {
  }

  lemma {:induction false} EmptySum(fs: seq<Fill>)
    ensures Sum(fs, Qty()) >= 0.0 && (fs != [] ==> Sum(fs, Qty()) > 0.0)
  {
    if fs != [] {
      EmptySum(fs[..|fs| - 1]);
    }
  }

  // A sliced order is sent in at most `slices` positive fills, all but the last of the rounded
  // share, that add up to exactly its quantity, with a last ack of that quantity at the fills'
  // average price, if and only if the quantity is more than half a ten-thousandth per slice;
  // otherwise it is never filled.
  lemma SlicingConserves(c: MockConfig, b: Broker, bid: BrokerId)
    requires Fresh(b, bid) && c.slices >= 2 && LimitOr(b.drips[bid].order, b.drips[bid].base.value) >= 0.0
    ensures var o, r := b.drips[bid].order, DripRun(c, b, bid, c.slices);
            var fs := NewFills(b, r);
            && bid !in r.drips && r.queue == b.queue + fs && |fs| <= c.slices
            && (forall j :: 0 <= j < |fs| ==> IsSlice(o, b.drips[bid].base.value, fs[j], j))
            && EvenButLast(c, o.qty, fs) && IsNearest(o.qty / c.slices as real, 0.0001, SliceQty(c, o.qty))
            && (Sum(fs, Qty()) == o.qty <==> o.qty > c.slices as real * (TENTHS_OF_MILLS / 2.0))
            && (o.qty > c.slices as real * (TENTHS_OF_MILLS / 2.0) ==> Completed(r, bid, o, fs))
            && (o.qty <= c.slices as real * (TENTHS_OF_MILLS / 2.0) ==> fs == [])
  {
    hide SliceQty, Sum, Worth, DripRun;
    var o := b.drips[bid].order;
    Turns(c, b, bid, c.slices);
    SliceExactly(c, o.qty);
    ShareIsNearest(c, o.qty);
    NothingSent();
  }

  lemma SliceExactly(c: MockConfig, qty: real)
    requires c.slices >= 2 && qty > 0.0
    ensures SliceQty(c, qty) > 0.0 <==> qty > c.slices as real * (TENTHS_OF_MILLS / 2.0)
  {
    hide Quantize;
    var share, n := qty / c.slices as real, c.slices as real;
    QuantizePositive(share, TENTHS_OF_MILLS);
    assert share * n == qty;
    assert (share - 0.00005) * n == qty - n * 0.00005;
    SignOfProduct(share - 0.00005, n);
  }
}
