// First in, first out, told by the ledger: the units a symbol closes are the ones it opened
// earliest. And what the blended basis makes of the same fills.

module FifoOrder {
  import opened Models
  import opened Money
  import opened Sums
  import opened CostBasis
  import opened CostBasisTheory
  import opened Ledger

  // ----- One fill -----

  // What a fill closes is what the two quantities cancel.
  lemma ClosedIsCancelled(qty: real, delta: real)
    requires delta != 0.0
    ensures ClosedQty(qty, delta) == (Abs(qty) + Abs(delta) - Abs(qty + delta)) / 2.0
  {
  }

  // A fill that opens goes behind everything already queued: the first units cost what they
  // did, the ones after them the fill's price.
  lemma FifoOpens(s: Fifo, delta: real, price: real, y: real)
    requires s.Valid() && delta != 0.0 && Opens(s.qty, delta) && 0.0 <= y <= Abs(s.qty + delta)
    ensures var t := FifoStep(s, delta, price);
            && t.realized == s.realized && t.qty == s.qty + delta
            && CostOfFirst(t.lots, y) == if y <= Abs(s.qty) then CostOfFirst(s.lots, y)
                                         else LotCost(s.lots) + Worth(price, y - Abs(s.qty))
  {
    hide Worth;
    SideIsSign(s, delta);
    CostAppend(s.lots, Lot(Abs(delta), price), y);
  }

  // The first units of two queues in a row are the first queue's.
  lemma {:induction false} FirstIsFront(a: seq<Lot>, b: seq<Lot>, y: real)
    requires Positive(a) && Positive(b) && 0.0 <= y <= LotSum(b)
    ensures DropFirst(a + b, LotSum(a) + y) == DropFirst(b, y)
    ensures CostOfFirst(a + b, LotSum(a) + y) == LotCost(a) + CostOfFirst(b, y)
  {
    if a == [] {
      assert a + b == b;
    } else {
      var rest := a[1..];
      assert (a + b)[1..] == rest + b;
      LotSumPositive(rest);
      LotSumPositive(b);
      FirstIsFront(rest, b, y);
      assert LotSum(a) + y - a[0].qty == LotSum(rest) + y;
      if LotSum(a) + y == a[0].qty {
        assert rest == [] && y == 0.0;
        CostOfNothing(rest + b);
        CostOfNothing(b);
      }
    }
  }

  // ----- Every ledger -----

  // The part of a fill that opens, told by the net quantity before it.
  function OpenPart(before: seq<Fill>, f: Fill): real {
    var held := Net(before, f.symbol);
    if Opens(held, f.SignedQty()) then f.qty else f.qty - Min(f.qty, Abs(held))
  }

  // What a ledger opens of a symbol, in the order it opens it.
  function Opened(fs: seq<Fill>, s: Symbol): seq<Lot> {
    if fs == [] then []
    else
      var before, f := fs[..|fs| - 1], fs[|fs| - 1];
      Opened(before, s)
      + if f.symbol == s && OpenPart(before, f) > 0.0 then [Lot(OpenPart(before, f), f.price)] else []
  }

  // How many units of it the ledger closes.
  function Closed(fs: seq<Fill>, s: Symbol): real {
    if fs == [] then 0.0
    else
      var before, f := fs[..|fs| - 1], fs[|fs| - 1];
      Closed(before, s) + if f.symbol == s then f.qty - OpenPart(before, f) else 0.0
  }

  // What they realize when every unit closed is the one opened earliest of those still open.
  function FirstInGain(fs: seq<Fill>, s: Symbol): real {
    if fs == [] then 0.0
    else
      var before, f := fs[..|fs| - 1], fs[|fs| - 1];
      var from, to := Closed(before, s), Closed(fs, s);
      FirstInGain(before, s)
      + if f.symbol == s then
          Signed(Sgn(Net(before, s)),
                 Worth(f.price, to - from)
                 - (CostOfFirst(Opened(before, s), to) - CostOfFirst(Opened(before, s), from)))
        else 0.0
  }

  // The queue is what was opened, in ledger order, less as many of its first units as were
  // closed, and realized P&L matches every unit closed with the earliest one open.
  ghost predicate InOrder(q: Fifo, fs: seq<Fill>, s: Symbol) {
    && q.Valid() && q.qty == Net(fs, s)
    && Positive(Opened(fs, s)) && 0.0 <= Closed(fs, s)
    && LotSum(Opened(fs, s)) == Closed(fs, s) + Abs(Net(fs, s))
    && q.lots == DropFirst(Opened(fs, s), Closed(fs, s)) && q.realized == FirstInGain(fs, s)
  }

  // So it is over every ledger, flips included.
  lemma {:induction false} FirstInFirstOut(fs: seq<Fill>, s: Symbol)
    ensures InOrder(FifoRun(fs, s), fs, s)
  {
    hide FifoStep, InOrder, Net;
    if fs == [] {
      NothingOpened(s);
    } else {
      var before, f := fs[..|fs| - 1], fs[|fs| - 1];
      FirstInFirstOut(before, s);
      assert fs == before + [f];
      RunOneMore(before, f, s);
      if f.symbol != s {
        OtherFill(FifoRun(before, s), before, f, s);
      } else if Opens(Net(before, s), f.SignedQty()) {
        OpeningFill(FifoRun(before, s), before, f, s);
      } else {
        ClosingFill(FifoRun(before, s), before, f, s);
      }
    }
  }

  lemma NothingOpened(s: Symbol)
    ensures InOrder(EMPTY_QUEUE, [], s)
  {
    assert LotSum([]) == 0.0;
  }

  // One more fill, as the three recursions see it.
  lemma OneMoreFill(fs: seq<Fill>, f: Fill, s: Symbol)
    ensures Opened(fs + [f], s)
         == if f.symbol == s && OpenPart(fs, f) > 0.0 then Opened(fs, s) + [Lot(OpenPart(fs, f), f.price)]
            else Opened(fs, s)
    ensures Closed(fs + [f], s) == Closed(fs, s) + if f.symbol == s then f.qty - OpenPart(fs, f) else 0.0
    ensures var from, to := Closed(fs, s), Closed(fs + [f], s);
            FirstInGain(fs + [f], s)
              == FirstInGain(fs, s)
                 + if f.symbol == s then
                     Signed(Sgn(Net(fs, s)),
                            Worth(f.price, to - from)
                            - (CostOfFirst(Opened(fs, s), to) - CostOfFirst(Opened(fs, s), from)))
                   else 0.0
    ensures Net(fs + [f], s) == Net(fs, s) + if f.symbol == s then f.SignedQty() else 0.0
  {
    hide OpenPart, Opened, Closed, FirstInGain, Net;
    OpenedOneMore(fs, f, s);
    ClosedOneMore(fs, f, s);
    GainOneMore(fs, f, s);
    NetOneMore(fs, f, s);
  }

  lemma OpenedOneMore(fs: seq<Fill>, f: Fill, s: Symbol)
    ensures Opened(fs + [f], s)
         == if f.symbol == s && OpenPart(fs, f) > 0.0 then Opened(fs, s) + [Lot(OpenPart(fs, f), f.price)]
            else Opened(fs, s)
  {
    hide OpenPart;
    assert (fs + [f])[..|fs|] == fs && Opened(fs, s) + [] == Opened(fs, s);
  }

  lemma ClosedOneMore(fs: seq<Fill>, f: Fill, s: Symbol)
    ensures Closed(fs + [f], s) == Closed(fs, s) + if f.symbol == s then f.qty - OpenPart(fs, f) else 0.0
  {
    hide OpenPart;
    assert (fs + [f])[..|fs|] == fs;
  }

  lemma GainOneMore(fs: seq<Fill>, f: Fill, s: Symbol)
    ensures var from, to := Closed(fs, s), Closed(fs + [f], s);
            FirstInGain(fs + [f], s)
              == FirstInGain(fs, s)
                 + if f.symbol == s then
                     Signed(Sgn(Net(fs, s)),
                            Worth(f.price, to - from)
                            - (CostOfFirst(Opened(fs, s), to) - CostOfFirst(Opened(fs, s), from)))
                   else 0.0
  {
    hide OpenPart, Opened, Closed, Net, Worth, CostOfFirst;
    assert (fs + [f])[..|fs|] == fs;
  }

  lemma NetOneMore(fs: seq<Fill>, f: Fill, s: Symbol)
    ensures Net(fs + [f], s) == Net(fs, s) + if f.symbol == s then f.SignedQty() else 0.0
  {
    SumOneMore(fs, f, NetOf(s));
  }

  lemma OtherFill(q: Fifo, fs: seq<Fill>, f: Fill, s: Symbol)
    requires InOrder(q, fs, s) && f.symbol != s
    ensures InOrder(q, fs + [f], s)
  {
    hide OpenPart, Net, Opened, Closed, FirstInGain;
    OneMoreFill(fs, f, s);
  }

  lemma {:induction false} DropAppend(lots: seq<Lot>, l: Lot, x: real)
    requires Positive(lots) && l.qty > 0.0 && 0.0 <= x <= LotSum(lots)
    ensures DropFirst(lots + [l], x) == DropFirst(lots, x) + [l]
  {
    if lots == [] {
      assert [] + [l] == [l];
    } else {
      assert (lots + [l])[1..] == lots[1..] + [l];
      if x >= lots[0].qty {
        DropAppend(lots[1..], l, x - lots[0].qty);
      }
    }
  }

  lemma OpeningFill(q: Fifo, fs: seq<Fill>, f: Fill, s: Symbol)
    requires InOrder(q, fs, s) && f.symbol == s && Opens(Net(fs, s), f.SignedQty())
    ensures InOrder(FifoStep(q, f.SignedQty(), f.price), fs + [f], s)
  {
    hide Net, Worth, Opened, Closed, FirstInGain;
    OneMoreFill(fs, f, s);
    SideIsSign(q, f.SignedQty());
    FifoStepValid(q, f.SignedQty(), f.price);
    DropAppend(Opened(fs, s), Lot(f.qty, f.price), Closed(fs, s));
    AppendLot(Opened(fs, s), Lot(f.qty, f.price));
    WorthOfZero(f.price);
  }

  lemma ClosingFill(q: Fifo, fs: seq<Fill>, f: Fill, s: Symbol)
    requires InOrder(q, fs, s) && f.symbol == s && !Opens(Net(fs, s), f.SignedQty())
    ensures InOrder(FifoStep(q, f.SignedQty(), f.price), fs + [f], s)
  {
    hide Net, Worth, Opened, Closed, FirstInGain, DropFirst, CostOfFirst, LotSum;
    var lots, from := Opened(fs, s), Closed(fs, s);
    var take := Min(f.qty, Abs(Net(fs, s)));
    OneMoreFill(fs, f, s);
    SideIsSign(q, f.SignedQty());
    FifoStepValid(q, f.SignedQty(), f.price);
    TakeTwice(lots, from, take);
    if f.qty > take {
      var left := Lot(f.qty - take, f.price);
      DropAppend(lots, left, from + take);
      AppendLot(lots, left);
    }
  }

  // ----- A position built on one side, then closed -----

  function QtyIn(s: Symbol): Fill -> real {
    (f: Fill) => if f.symbol == s then f.qty else 0.0
  }

  function SpentIn(s: Symbol): Fill -> real {
    (f: Fill) => if f.symbol == s then Worth(f.price, f.qty) else 0.0
  }

  ghost predicate OneSided(fs: seq<Fill>, s: Symbol, side: Side) {
    forall f :: f in fs && f.symbol == s ==> f.side == side
  }

  // A ledger on one side closes nothing and opens all of it, in order.
  lemma {:induction false} BuiltInOrder(fs: seq<Fill>, s: Symbol, side: Side)
    requires OneSided(fs, s, side)
    ensures Closed(fs, s) == 0.0 && FirstInGain(fs, s) == 0.0
    ensures LotSum(Opened(fs, s)) == Sum(fs, QtyIn(s)) >= 0.0 && LotCost(Opened(fs, s)) == Sum(fs, SpentIn(s))
    ensures Net(fs, s) == if side.Buy? then Sum(fs, QtyIn(s)) else -Sum(fs, QtyIn(s))
  {
    hide Worth, Opened, Closed, FirstInGain, Net, OpenPart, LotSum, LotCost, CostOfFirst, DropFirst;
    if fs == [] {
      NothingOpened(s);
      NoneBuilt(s);
    } else {
      var before, f := fs[..|fs| - 1], fs[|fs| - 1];
      BuiltInOrder(before, s, side);
      assert fs == before + [f];
      OneMoreFill(before, f, s);
      if f.symbol == s {
        assert f in fs;
        AllOpens(before, f);
        AppendLot(Opened(before, s), Lot(f.qty, f.price));
        WorthOfZero(f.price);
      }
    }
  }

  // A fill on the side of what is held opens with all of itself.
  lemma AllOpens(fs: seq<Fill>, f: Fill)
    requires if f.side.Buy? then Net(fs, f.symbol) >= 0.0 else Net(fs, f.symbol) <= 0.0
    ensures OpenPart(fs, f) == f.qty
  {
    hide Net;
  }

  lemma NoneBuilt(s: Symbol)
    ensures Opened([], s) == [] && Closed([], s) == FirstInGain([], s) == Net([], s) == 0.0
    ensures LotSum([]) == LotCost([]) == 0.0
  {
  }

  lemma BuiltOneMore(fs: seq<Fill>, f: Fill, s: Symbol, side: Side)
    requires OneSided(fs, s, side) && (f.symbol == s ==> f.side == side)
    ensures Opened(fs + [f], s) == if f.symbol == s then Opened(fs, s) + [Lot(f.qty, f.price)] else Opened(fs, s)
  {
    hide Opened, Net, Closed, FirstInGain;
    BuiltInOrder(fs, s, side);
    OneMoreFill(fs, f, s);
  }

  lemma {:induction false} OpenedAgain(a: seq<Fill>, b: seq<Fill>, s: Symbol, side: Side)
    requires OneSided(a, s, side) && OneSided(b, s, side)
    ensures Opened(a + b, s) == Opened(a, s) + Opened(b, s)
  {
    hide Opened;
    if b == [] {
      assert a + b == a;
      NoneBuilt(s);
    } else {
      var before, f := b[..|b| - 1], b[|b| - 1];
      assert a + b == a + before + [f] && b == before + [f];
      OpenedAgain(a, before, s, side);
      BuiltOneMore(a + before, f, s, side);
      BuiltOneMore(before, f, s, side);
    }
  }

  // Whatever was bought, or sold short, in whatever fills: a fill that takes `a` and part of
  // the fill `b` that came next is priced off exactly those, the earliest of the ledger.
  lemma EarliestFillsClose(a: seq<Fill>, b: Fill, more: seq<Fill>, f: Fill, s: Symbol)
    requires b.symbol == f.symbol == s && f.side != b.side && OneSided(a + [b] + more, s, b.side)
    requires var take := Min(f.qty, Sum(a + [b] + more, QtyIn(s)));
             Sum(a, QtyIn(s)) <= take <= Sum(a, QtyIn(s)) + b.qty
    ensures var take := Min(f.qty, Sum(a + [b] + more, QtyIn(s)));
            FifoRun(a + [b] + more + [f], s).realized
              == Signed(if b.side.Buy? then 1 else -1,
                        Worth(f.price, take) - (Sum(a, SpentIn(s)) + Worth(b.price, take - Sum(a, QtyIn(s)))))
  {
    hide Worth, Net, Opened, Closed, FirstInGain, FifoRun, OneSided, CostOfFirst, LotSum, LotCost, OpenPart, InOrder;
    var fs := a + [b] + more;
    var take := Min(f.qty, Sum(fs, QtyIn(s)));
    BuiltInOrder(fs, s, b.side);
    BuiltPositive(a, b, more, s);
    FirstInGainIs(fs + [f], s);
    OneMoreFill(fs, f, s);
    ClosePart(fs, f);
    CostOfEarliest(a, b, more, s, take);
    CostOfNothing(Opened(fs, s));
  }

  lemma FirstInGainIs(fs: seq<Fill>, s: Symbol)
    ensures FifoRun(fs, s).realized == FirstInGain(fs, s)
  {
    hide FifoRun, FirstInGain;
    FirstInFirstOut(fs, s);
  }

  lemma ClosePart(fs: seq<Fill>, f: Fill)
    requires if f.side.Buy? then Net(fs, f.symbol) < 0.0 else Net(fs, f.symbol) > 0.0
    ensures f.qty - OpenPart(fs, f) == Min(f.qty, Abs(Net(fs, f.symbol)))
  {
    hide Net;
  }

  lemma BuiltPositive(a: seq<Fill>, b: Fill, more: seq<Fill>, s: Symbol)
    requires b.symbol == s
    ensures Sum(a + [b] + more, QtyIn(s)) >= b.qty
  {
    SumConcat(a + [b], more, QtyIn(s));
    SumOneMore(a, b, QtyIn(s));
    SumNonNegative(a, QtyIn(s));
    SumNonNegative(more, QtyIn(s));
  }

  // The cost of the earliest units is that of the earliest fills.
  lemma CostOfEarliest(a: seq<Fill>, b: Fill, more: seq<Fill>, s: Symbol, x: real)
    requires b.symbol == s && OneSided(a + [b] + more, s, b.side)
    requires Sum(a, QtyIn(s)) <= x <= Sum(a, QtyIn(s)) + b.qty
    ensures CostOfFirst(Opened(a + [b] + more, s), x) == Sum(a, SpentIn(s)) + Worth(b.price, x - Sum(a, QtyIn(s)))
  {
    hide Worth, Net, FirstInGain, Closed, Opened, CostOfFirst, DropFirst;
    OneSidedParts(a, b, more, s);
    assert a + [b] + more == a + ([b] + more);
    OpenedAgain(a, [b] + more, s, b.side);
    OpenedAgain([b], more, s, b.side);
    OneLotOpened(b);
    BuiltInOrder(a, s, b.side);
    FirstInFirstOut(a, s);
    FirstInFirstOut(more, s);
    FrontLot(Opened(a, s), Lot(b.qty, b.price), Opened(more, s), x);
  }

  lemma OneSidedParts(a: seq<Fill>, b: Fill, more: seq<Fill>, s: Symbol)
    requires OneSided(a + [b] + more, s, b.side)
    ensures OneSided(a, s, b.side) && OneSided([b] + more, s, b.side)
    ensures OneSided([b], s, b.side) && OneSided(more, s, b.side)
  {
    assert forall g :: g in a + [b] + more <==> g in a || g == b || g in more;
  }

  lemma FrontLot(lots: seq<Lot>, l: Lot, more: seq<Lot>, x: real)
    requires Positive(lots) && Positive(more) && l.qty > 0.0 && LotSum(lots) <= x <= LotSum(lots) + l.qty
    ensures CostOfFirst(lots + ([l] + more), x) == LotCost(lots) + Worth(l.price, x - LotSum(lots))
  {
    hide Worth;
    var rest := [l] + more;
    assert rest[1..] == more;
    LotSumPositive(more);
    FirstIsFront(lots, rest, x - LotSum(lots));
    CostOfNothing(rest);
    WorthOfZero(l.price);
  }

  lemma OneLotOpened(b: Fill)
    ensures Opened([b], b.symbol) == [Lot(b.qty, b.price)]
  {
    OneMoreFill([], b, b.symbol);
    assert [] + [b] == [b];
  }

  // The blended basis of the same ledger: nothing realized while it is built, its average
  // the mean price of its fills, and a closing fill is priced off that average, which stays.
  lemma {:induction false} BuiltBlended(fs: seq<Fill>, s: Symbol, side: Side)
    requires OneSided(fs, s, side)
    ensures AvgRun(fs, s).realized == 0.0 && Worth(AvgRun(fs, s).avg, Sum(fs, QtyIn(s))) == Sum(fs, SpentIn(s))
    ensures AvgRun(fs, s).qty == if side.Buy? then Sum(fs, QtyIn(s)) else -Sum(fs, QtyIn(s))
    ensures Sum(fs, QtyIn(s)) >= 0.0
  {
    hide Worth, Mean;
    if fs == [] {
      WorthOfZero(0.0);
    } else {
      var before, f := fs[..|fs| - 1], fs[|fs| - 1];
      BuiltBlended(before, s, side);
      if f.symbol == s {
        assert f in fs;
        MeanKeepsCost(AvgRun(before, s).avg, Sum(before, QtyIn(s)), f.price, f.qty);
      }
    }
  }

  lemma BlendedFillsClose(fs: seq<Fill>, f: Fill, s: Symbol, side: Side)
    requires f.symbol == s && f.side != side && OneSided(fs, s, side) && Sum(fs, QtyIn(s)) > 0.0
    ensures var b, c, held := AvgRun(fs, s), AvgRun(fs + [f], s), Sum(fs, QtyIn(s));
            var take := Min(f.qty, held);
            && c.realized == Signed(if side.Buy? then 1 else -1, Worth(f.price, take) - Worth(b.avg, take))
            && Worth(b.avg, held) == Sum(fs, SpentIn(s))
            && c.avg == if f.qty < held then b.avg else if f.qty == held then 0.0 else f.price
  {
    hide Worth;
    BuiltBlended(fs, s, side);
    RunOneMore(fs, f, s);
    WorthMoves(f.price, AvgRun(fs, s).avg, Min(f.qty, Sum(fs, QtyIn(s))));
  }

  // Bought 100 at 10 and 100 at 12, sold 120 at 15: first in, first out realizes 560, the
  // blended average 480.
  lemma SaleOfTwoLots(a: Fill, b: Fill, f: Fill)
    requires a.symbol == b.symbol == f.symbol == "X" && a.side == b.side == Buy && f.side == Sell
    requires a.qty == b.qty == 100.0 && f.qty == 120.0 && a.price == 10.0 && b.price == 12.0 && f.price == 15.0
    ensures FifoRun([a, b, f], "X").realized == 560.0 && FifoRun([a, b, f], "X").qty == 80.0
    ensures AvgRun([a, b, f], "X") == Basis(80.0, 11.0, 480.0)
  {
    hide FifoRun, AvgRun, Sum, Net;
    var q, w := QtyIn("X"), SpentIn("X");
    SumOneMore([], a, q);
    SumOneMore([], a, w);
    SumOneMore([a], b, q);
    SumOneMore([a], b, w);
    SumOfNone(q);
    SumOfNone(w);
    assert [] + [a] == [a] && [a] + [b] == [a, b] && [a] + [b] + [] == [a, b] && [a, b] + [f] == [a, b, f];
    EarliestFillsClose([a], b, [], f, "X");
    BlendedFillsClose([a, b], f, "X", Buy);
    BuiltBlended([a, b], "X", Buy);
    RunOneMore([a, b], f, "X");
    MethodsAgree([a, b, f], "X", 0.0);
  }

  lemma SumOfNone(w: Fill -> real)
    ensures Sum([], w) == 0.0
  {
  }
}
