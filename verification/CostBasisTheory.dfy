// What the two cost-basis methods have in common, and how FIFO differs from a plain list of lots.

module CostBasisTheory {
  import opened Models
  import opened Money
  import opened CostBasis

  // Realized plus unrealized P&L of an open quantity at a mark.
  function MarkedPnl(realized: real, avg: real, qty: real, mark: real): real {
    realized + Worth(mark - avg, qty)
  }

  // ----- One accounting identity for both methods -----

  // P&L at a mark is decided by the quantity and by realized P&L less the open cost.
  lemma PnlIsCash(realized: real, avg: real, qty: real, mark: real)
    ensures MarkedPnl(realized, avg, qty, mark) == Worth(mark, qty) + realized - Worth(avg, qty)
  {
    WorthMoves(mark, avg, qty);
  }

  // Whatever branch a fill takes, total P&L at a mark moves by the fill's own signed
  // quantity times its distance to the mark.
  lemma AvgStepTotal(b: Basis, delta: real, price: real, mark: real)
    requires delta != 0.0
    ensures var c := AvgStep(b, delta, price);
            MarkedPnl(c.realized, c.avg, c.qty, mark)
                 == MarkedPnl(b.realized, b.avg, b.qty, mark) + Worth(mark - price, delta)
  {
    hide Worth, Mean;
    var c := AvgStep(b, delta, price);
    AvgStepCash(b, delta, price);
    PnlIsCash(b.realized, b.avg, b.qty, mark);
    PnlIsCash(c.realized, c.avg, c.qty, mark);
    WorthAdds(mark, b.qty, delta);
    WorthMoves(mark, price, delta);
  }

  lemma AvgStepCash(b: Basis, delta: real, price: real)
    requires delta != 0.0
    ensures var c := AvgStep(b, delta, price);
            && c.qty == b.qty + delta
            && c.realized - Worth(c.avg, c.qty) == b.realized - Worth(b.avg, b.qty) - Worth(price, delta)
  {
    hide Worth, Mean;
    var held, added := Abs(b.qty), Abs(delta);
    WorthNegated(b.avg, b.qty);
    WorthNegated(price, delta);
    if Opens(b.qty, delta) {
      MeanKeepsCost(b.avg, held, price, added);
      WorthNegated(Mean(b.avg, held, price, added), held + added);
    } else {
      var closed := Min(added, held);
      WorthMoves(price, b.avg, closed);
      WorthAdds(price, held, added - held);
      WorthAdds(b.avg, held, added);
      WorthNegated(b.avg, held - added);
      WorthNegated(price, added - held);
      WorthOfZero(0.0);
      WorthOfZero(price);
    }
  }

  // FIFO's total P&L at a mark, with the average cost it reports.
  function FifoPnl(s: Fifo, mark: real): real {
    MarkedPnl(s.realized, s.AvgCost(), s.qty, mark)
  }

  // The reported average times the net quantity is the signed cost of the queue.
  lemma FifoOpenCost(s: Fifo)
    requires s.Valid()
    ensures Worth(s.AvgCost(), s.qty) == Signed(s.sideSign, LotCost(s.lots))
  {
    LotSumPositive(s.lots);
    WorthNegated(s.AvgCost(), LotSum(s.lots));
    if s.lots != [] {
      assert s.AvgCost() * LotSum(s.lots) == LotCost(s.lots);
    }
  }

  lemma FifoStepTotal(s: Fifo, delta: real, price: real, mark: real)
    requires s.Valid() && delta != 0.0
    ensures FifoPnl(FifoStep(s, delta, price), mark) == FifoPnl(s, mark) + Worth(mark - price, delta)
  {
    hide Worth;
    var t := FifoStep(s, delta, price);
    FifoStepValid(s, delta, price);
    FifoStepCash(s, delta, price);
    FifoOpenCost(s);
    FifoOpenCost(t);
    PnlIsCash(s.realized, s.AvgCost(), s.qty, mark);
    PnlIsCash(t.realized, t.AvgCost(), t.qty, mark);
    WorthAdds(mark, s.qty, delta);
    WorthMoves(mark, price, delta);
  }

  lemma FifoStepCash(s: Fifo, delta: real, price: real)
    requires s.Valid() && delta != 0.0
    ensures var t := FifoStep(s, delta, price);
            t.realized - Signed(t.sideSign, LotCost(t.lots))
              == s.realized - Signed(s.sideSign, LotCost(s.lots)) - Worth(price, delta)
  {
    hide Worth;
    WorthNegated(price, delta);
    if s.sideSign == 0 || s.sideSign == Sgn(delta) {
      AppendLot(s.lots, Lot(Abs(delta), price));
      assert LotCost([]) == 0.0;
    } else {
      FifoCloseCash(s, delta, price);
    }
  }

  lemma FifoCloseCash(s: Fifo, delta: real, price: real)
    requires s.Valid() && delta != 0.0 && s.sideSign == -Sgn(delta)
    ensures var t := FifoStep(s, delta, price);
            t.realized - Signed(t.sideSign, LotCost(t.lots))
              == s.realized - Signed(s.sideSign, LotCost(s.lots)) - Worth(price, delta)
  {
    hide Worth;
    LotSumPositive(s.lots);
    WorthNegated(price, delta);
    var take := Min(Abs(delta), LotSum(s.lots));
    var left := Abs(delta) - take;
    var rest := DropFirst(s.lots, take);
    DropFirstFacts(s.lots, take);
    LotSumPositive(rest);
    WorthAdds(price, take, left);
    var t := FifoStep(s, delta, price);
    if left > 0.0 {
      assert t.lots == [Lot(left, price)];
      assert LotCost(t.lots) == Worth(price, left);
    } else {
      assert t.lots == rest;
    }
  }

  // ----- FIFO as a function of the cost of the oldest units -----

  // The cost of up to x units of one lot.
  function PartCost(l: Lot, x: real): real {
    Worth(l.price, Min(x, l.qty))
  }

  lemma {:induction false} CostAppend(lots: seq<Lot>, l: Lot, y: real)
    requires Positive(lots) && l.qty > 0.0
    ensures CostOfFirst(lots + [l], y)
         == if y <= LotSum(lots) then CostOfFirst(lots, y) else LotCost(lots) + PartCost(l, y - LotSum(lots))
  {
    if lots == [] {
      CostOfOneLot(l, y);
      assert [] + [l] == [l];
    } else {
      var rest := lots[1..];
      assert (lots + [l])[1..] == rest + [l];
      LotSumPositive(rest);
      if y > lots[0].qty {
        CostAppend(rest, l, y - lots[0].qty);
        assert y - LotSum(lots) == y - lots[0].qty - LotSum(rest);
      }
    }
  }

  lemma CostOfOneLot(l: Lot, y: real)
    requires l.qty > 0.0
    ensures CostOfFirst([l], y) == if y <= 0.0 then 0.0 else PartCost(l, y)
  {
  }

  lemma {:induction false} CostBeyond(lots: seq<Lot>, y: real)
    requires Positive(lots) && y >= LotSum(lots)
    ensures CostOfFirst(lots, y) == LotCost(lots)
  {
    LotSumPositive(lots);
    if lots != [] {
      LotSumPositive(lots[1..]);
      if y > lots[0].qty {
        CostBeyond(lots[1..], y - lots[0].qty);
      }
    }
  }

  // A closing fill realizes exactly the price of what it takes less the cost of the oldest
  // units taken, and the queue that is left prices its oldest units as the old one did.
  lemma FifoCloses(s: Fifo, delta: real, price: real)
    requires s.Valid() && delta != 0.0 && !Opens(s.qty, delta)
    ensures var take := Min(Abs(delta), Abs(s.qty));
            var t := FifoStep(s, delta, price);
            && t.realized == s.realized + Signed(Sgn(s.qty), Worth(price, take) - CostOfFirst(s.lots, take))
            && t.qty == s.qty + delta
            && (Crosses(s.qty, delta) ==> t.lots == [Lot(Abs(t.qty), price)])
            && (!Crosses(s.qty, delta) ==>
                  forall y :: 0.0 <= y <= Abs(t.qty) ==>
                    CostOfFirst(t.lots, y) == CostOfFirst(s.lots, take + y) - CostOfFirst(s.lots, take))
  {
    SideIsSign(s, delta);
    var take := Min(Abs(delta), Abs(s.qty));
    DropFirstFacts(s.lots, take);
    LotSumPositive(DropFirst(s.lots, take));
    if !Crosses(s.qty, delta) {
      assert FifoStep(s, delta, price).lots == DropFirst(s.lots, take);
      QueueAfterClose(s.lots, take);
    }
  }

  lemma QueueAfterClose(lots: seq<Lot>, take: real)
    requires Positive(lots) && 0.0 <= take <= LotSum(lots)
    ensures forall y :: 0.0 <= y <= LotSum(lots) - take ==>
      CostOfFirst(DropFirst(lots, take), y) == CostOfFirst(lots, take + y) - CostOfFirst(lots, take)
  {
    forall y | 0.0 <= y <= LotSum(lots) - take
      ensures CostOfFirst(DropFirst(lots, take), y) == CostOfFirst(lots, take + y) - CostOfFirst(lots, take)
    {
      TakeTwice(lots, take, y);
    }
  }

  // Two queues that no sequence of fills can tell apart.
  ghost predicate SamePricing(a: seq<Lot>, b: seq<Lot>) {
    && LotSum(a) == LotSum(b)
    && LotCost(a) == LotCost(b)
    && forall y: real :: CostOfFirst(a, y) == CostOfFirst(b, y)
  }

  ghost predicate Alike(s: Fifo, t: Fifo) {
    s.qty == t.qty && s.realized == t.realized && s.sideSign == t.sideSign && SamePricing(s.lots, t.lots)
  }

  lemma AppendSamePricing(a: seq<Lot>, b: seq<Lot>, l: Lot)
    requires Positive(a) && Positive(b) && l.qty > 0.0 && SamePricing(a, b)
    ensures SamePricing(a + [l], b + [l])
  {
    AppendLot(a, l);
    AppendLot(b, l);
    forall y: real ensures CostOfFirst(a + [l], y) == CostOfFirst(b + [l], y) {
      CostAppend(a, l, y);
      CostAppend(b, l, y);
    }
  }

  lemma DropPricing(a: seq<Lot>, x: real, y: real)
    requires Positive(a) && 0.0 <= x <= LotSum(a)
    ensures CostOfFirst(DropFirst(a, x), y) == if y <= 0.0 then 0.0 else CostOfFirst(a, x + y) - CostOfFirst(a, x)
  {
    DropFirstFacts(a, x);
    if y > 0.0 {
      if x + y <= LotSum(a) {
        TakeTwice(a, x, y);
      } else {
        CostBeyond(a, x + y);
        CostBeyond(DropFirst(a, x), y);
      }
    }
  }

  lemma DropSamePricing(a: seq<Lot>, b: seq<Lot>, x: real)
    requires Positive(a) && Positive(b) && SamePricing(a, b) && 0.0 <= x <= LotSum(a)
    ensures SamePricing(DropFirst(a, x), DropFirst(b, x))
  {
    DropFirstFacts(a, x);
    DropFirstFacts(b, x);
    forall y: real ensures CostOfFirst(DropFirst(a, x), y) == CostOfFirst(DropFirst(b, x), y) {
      DropPricing(a, x, y);
      DropPricing(b, x, y);
    }
  }

  // Likeness is kept by every fill, so it is kept by every run.
  lemma FifoStepKeepsAlike(s: Fifo, t: Fifo, delta: real, price: real)
    requires s.Valid() && t.Valid() && Alike(s, t) && delta != 0.0
    ensures Alike(FifoStep(s, delta, price), FifoStep(t, delta, price))
  {
    SideIsSign(s, delta);
    SideIsSign(t, delta);
    if s.sideSign == 0 || s.sideSign == Sgn(delta) {
      AppendSamePricing(s.lots, t.lots, Lot(Abs(delta), price));
    } else {
      var take := Min(Abs(delta), LotSum(s.lots));
      var left := Abs(delta) - take;
      DropSamePricing(s.lots, t.lots, take);
      DropFirstFacts(s.lots, take);
      DropFirstFacts(t.lots, take);
      LotSumPositive(DropFirst(s.lots, take));
      LotSumPositive(DropFirst(t.lots, take));
      if left > 0.0 {
        AppendSamePricing(DropFirst(s.lots, take), DropFirst(t.lots, take), Lot(left, price));
      }
    }
  }

  // ----- Split invariance: one fill, or two at the same price -----

  lemma AvgSplit(b: Basis, d: real, e: real, price: real)
    requires d != 0.0 && e != 0.0 && Sgn(d) == Sgn(e)
    ensures AvgStep(AvgStep(b, d, price), e, price) == AvgStep(b, d + e, price)
  {
    hide Worth, Mean;
    if Opens(b.qty, d) {
      MeanTwice(b.avg, Abs(b.qty), price, Abs(d), Abs(e));
    } else if Abs(d) < Abs(b.qty) {
      PieceTwice(price, b.avg, Abs(d), Min(Abs(e), Abs(b.qty + d)), Sgn(b.qty));
    } else {
      var c := AvgStep(b, d, price);
      MeanOfOne(c.avg, Abs(c.qty), price, Abs(e));
    }
  }

  lemma PieceTwice(price: real, cost: real, x: real, y: real, sign: int)
    ensures PieceGain(price, cost, x + y, sign) == PieceGain(price, cost, x, sign) + PieceGain(price, cost, y, sign)
  {
    hide Worth;
    WorthAdds(price - cost, x, y);
  }

  lemma FifoSplit(s: Fifo, d: real, e: real, price: real)
    requires s.Valid() && d != 0.0 && e != 0.0 && Sgn(d) == Sgn(e)
    ensures Alike(FifoStep(FifoStep(s, d, price), e, price), FifoStep(s, d + e, price))
    ensures FifoStep(FifoStep(s, d, price), e, price).AvgCost() == FifoStep(s, d + e, price).AvgCost()
  {
    hide Worth;
    SideIsSign(s, d);
    if Opens(s.qty, d) {
      TwoLotsAsOne(s.lots, price, Abs(d), Abs(e));
    } else if Abs(d) < Abs(s.qty) {
      FifoSplitWithin(s, d, e, price);
    } else {
      FifoSplitBeyond(s, d, e, price);
    }
  }

  lemma TwoLotsAsOne(lots: seq<Lot>, price: real, x: real, y: real)
    requires Positive(lots) && x > 0.0 && y > 0.0
    ensures SamePricing(lots + [Lot(x, price)] + [Lot(y, price)], lots + [Lot(x + y, price)])
  {
    hide Worth;
    AppendLot(lots, Lot(x, price));
    AppendLot(lots + [Lot(x, price)], Lot(y, price));
    AppendLot(lots, Lot(x + y, price));
    WorthAdds(price, x, y);
    forall z: real
      ensures CostOfFirst(lots + [Lot(x, price)] + [Lot(y, price)], z) == CostOfFirst(lots + [Lot(x + y, price)], z)
    {
      TwoLotsCost(lots, price, x, y, z);
    }
  }

  lemma {:induction false} TwoLotsCost(lots: seq<Lot>, price: real, x: real, y: real, z: real)
    requires x > 0.0 && y > 0.0
    ensures CostOfFirst(lots + [Lot(x, price)] + [Lot(y, price)], z) == CostOfFirst(lots + [Lot(x + y, price)], z)
  {
    hide Worth;
    var two, one := lots + [Lot(x, price)] + [Lot(y, price)], lots + [Lot(x + y, price)];
    if lots == [] {
      assert two == [Lot(x, price), Lot(y, price)] && one == [Lot(x + y, price)];
      LastTwoLots(price, x, y, z);
    } else {
      assert two[1..] == lots[1..] + [Lot(x, price)] + [Lot(y, price)];
      assert one[1..] == lots[1..] + [Lot(x + y, price)];
      TwoLotsCost(lots[1..], price, x, y, z - lots[0].qty);
    }
  }

  lemma LastTwoLots(price: real, x: real, y: real, z: real)
    requires x > 0.0 && y > 0.0
    ensures CostOfFirst([Lot(x, price), Lot(y, price)], z) == CostOfFirst([Lot(x + y, price)], z)
  {
    hide Worth;
    assert [Lot(x, price), Lot(y, price)][1..] == [Lot(y, price)];
    CostOfOneLot(Lot(y, price), z - x);
    CostOfOneLot(Lot(x + y, price), z);
    WorthAdds(price, x, Min(z - x, y));
  }

  lemma FifoSplitWithin(s: Fifo, d: real, e: real, price: real)
    requires s.Valid() && d != 0.0 && e != 0.0 && Sgn(d) == Sgn(e)
    requires !Opens(s.qty, d) && Abs(d) < Abs(s.qty)
    ensures FifoStep(FifoStep(s, d, price), e, price) == FifoStep(s, d + e, price)
  {
    hide Worth, Gain;
    SideIsSign(s, d);
    SideIsSign(s, d + e);
    var x := Abs(d);
    var mid := FifoStep(s, d, price);
    DropFirstFacts(s.lots, x);
    LotSumPositive(DropFirst(s.lots, x));
    assert mid == Fifo(DropFirst(s.lots, x), s.sideSign, s.qty + d, s.realized + Gain(s.lots, x, price, s.sideSign));
    var y := Min(Abs(e), LotSum(mid.lots));
    TakeTwice(s.lots, x, y);
    GainTwice(s.lots, x, y, price, s.sideSign);
    assert x + y == Min(Abs(d + e), LotSum(s.lots));
    assert Abs(e) - y == Abs(d + e) - (x + y);
  }

  lemma GainTwice(lots: seq<Lot>, x: real, y: real, price: real, sign: int)
    requires Positive(lots) && 0.0 <= x && 0.0 <= y && x + y <= LotSum(lots)
    ensures Gain(lots, x + y, price, sign) == Gain(lots, x, price, sign) + Gain(DropFirst(lots, x), y, price, sign)
  {
    hide Worth;
    TakeTwice(lots, x, y);
    WorthAdds(price, x, y);
  }

  lemma FifoSplitBeyond(s: Fifo, d: real, e: real, price: real)
    requires s.Valid() && d != 0.0 && e != 0.0 && Sgn(d) == Sgn(e)
    requires !Opens(s.qty, d) && Abs(d) >= Abs(s.qty)
    ensures Alike(FifoStep(FifoStep(s, d, price), e, price), FifoStep(s, d + e, price))
  {
    hide Worth, Gain;
    SideIsSign(s, d);
    SideIsSign(s, d + e);
    DropAll(s.lots);
    var left := Abs(d) - LotSum(s.lots);
    if left > 0.0 {
      TwoLotsAsOne([], price, left, Abs(e));
    }
  }
}
