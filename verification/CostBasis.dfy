// Cost-basis strategies (app/costbasis.py): the blended average and the FIFO lot queue.

module CostBasis {
  import opened Models
  import opened Money

  // ----- AVERAGE: one blended basis -----

  datatype Basis = Basis(qty: real, avg: real, realized: real)

  const FLAT := Basis(0.0, 0.0, 0.0)

  // A fill opens or increases when the book is flat or on the fill's side.
  predicate Opens(qty: real, delta: real) {
    qty == 0.0 || (qty > 0.0) == (delta > 0.0)
  }

  predicate Crosses(qty: real, delta: real) {
    !Opens(qty, delta) && qty + delta != 0.0 && (qty + delta > 0.0) != (qty > 0.0)
  }

  // What closing `take` units that cost `cost` each realizes at a price, on the given side.
  function PieceGain(price: real, cost: real, take: real, sign: int): real {
    Signed(sign, Worth(price - cost, take))
  }

  function AvgStep(b: Basis, delta: real, price: real): Basis
    requires delta != 0.0
  {
    if Opens(b.qty, delta) then
      Basis(b.qty + delta,
            Mean(b.avg, Abs(b.qty), price, Abs(delta)),
            b.realized)
    else
      var closed := Min(Abs(delta), Abs(b.qty));
      var newQty := b.qty + delta;
      Basis(newQty,
            if newQty == 0.0 then 0.0 else if (newQty > 0.0) != (b.qty > 0.0) then price else b.avg,
            b.realized + PieceGain(price, b.avg, closed, Sgn(b.qty)))
  }

  datatype CloseResult = CloseResult(realizedPnl: real, closedQty: real)

  // What a fill closes: nothing when it opens, otherwise at most the open quantity.
  function ClosedQty(qty: real, delta: real): real {
    if Opens(qty, delta) then 0.0 else Min(Abs(delta), Abs(qty))
  }

  class AverageCostBasis {
    var qty: real
    var realizedPnl: real
    var avg: real

    constructor ()
      ensures Value() == FLAT
    {
      qty, realizedPnl, avg := 0.0, 0.0, 0.0;
    }

    ghost function Value(): Basis
      reads this
    {
      Basis(qty, avg, realizedPnl)
    }

    method Apply(fill: Fill) returns (r: CloseResult)
      modifies this
      ensures Value() == AvgStep(old(Value()), fill.SignedQty(), fill.price)
      ensures r.realizedPnl == realizedPnl - old(realizedPnl)
      ensures r.closedQty == ClosedQty(old(qty), fill.SignedQty())
    {
      var delta := fill.SignedQty();
      var oldQty := qty;
      if oldQty == 0.0 || (oldQty > 0.0) == (delta > 0.0) {
        var oldAbs := Abs(oldQty);
        var newAbs := oldAbs + fill.qty;
        avg := (avg * oldAbs + fill.price * fill.qty) / newAbs;
        qty := oldQty + delta;
        return CloseResult(0.0, 0.0);
      }
      var direction := if oldQty > 0.0 then 1 else -1;
      var closed := Min(fill.qty, Abs(oldQty));
      var realized := PieceGain(fill.price, avg, closed, direction);
      realizedPnl := realizedPnl + realized;
      var newQty := oldQty + delta;
      if newQty == 0.0 {
        avg := 0.0;
      } else if (newQty > 0.0) != (oldQty > 0.0) {
        avg := fill.price;
      }
      qty := newQty;
      return CloseResult(realized, closed);
    }
  }

  // ----- FIFO: an explicit lot queue -----

  datatype Lot = Lot(qty: real, price: real)

  ghost predicate Positive(lots: seq<Lot>) {
    forall i :: 0 <= i < |lots| ==> lots[i].qty > 0.0
  }

  function LotSum(lots: seq<Lot>): real {
    if lots == [] then 0.0 else lots[0].qty + LotSum(lots[1..])
  }

  function LotCost(lots: seq<Lot>): real {
    if lots == [] then 0.0 else Worth(lots[0].price, lots[0].qty) + LotCost(lots[1..])
  }

  // The cost of the oldest x units of the queue.
  function CostOfFirst(lots: seq<Lot>, x: real): real {
    if lots == [] || x <= 0.0 then 0.0
    else if x <= lots[0].qty then Worth(lots[0].price, x)
    else Worth(lots[0].price, lots[0].qty) + CostOfFirst(lots[1..], x - lots[0].qty)
  }

  // The queue without its oldest x units.
  function DropFirst(lots: seq<Lot>, x: real): seq<Lot> {
    if lots == [] || x <= 0.0 then lots
    else if x < lots[0].qty then [Lot(lots[0].qty - x, lots[0].price)] + lots[1..]
    else DropFirst(lots[1..], x - lots[0].qty)
  }

  datatype Fifo = Fifo(lots: seq<Lot>, sideSign: int, qty: real, realized: real) {
    // Lots are positive, the side is zero exactly when the queue is empty, and the net
    // quantity is the signed sum of the lots.
    ghost predicate Valid() {
      && Positive(lots)
      && sideSign in {-1, 0, 1}
      && (sideSign == 0 <==> lots == [])
      && qty == Signed(sideSign, LotSum(lots))
    }

    function AvgCost(): real {
      if LotSum(lots) == 0.0 then 0.0 else LotCost(lots) / LotSum(lots)
    }
  }

  const EMPTY_QUEUE := Fifo([], 0, 0.0, 0.0)

  // What closing the oldest x units at a price realizes.
  function Gain(queue: seq<Lot>, x: real, price: real, sign: int): real {
    Signed(sign, Worth(price, x) - CostOfFirst(queue, x))
  }

  // The specification of one FIFO fill: no loop, only the cost of the oldest units.
  function FifoStep(s: Fifo, delta: real, price: real): Fifo
    requires delta != 0.0
  {
    if s.sideSign == 0 || s.sideSign == Sgn(delta) then
      Fifo(s.lots + [Lot(Abs(delta), price)], Sgn(delta), s.qty + delta, s.realized)
    else
      var take := Min(Abs(delta), LotSum(s.lots));
      var left := Abs(delta) - take;
      var gain := Gain(s.lots, take, price, s.sideSign);
      var rest := DropFirst(s.lots, take);
      if left > 0.0 then
        Fifo(rest + [Lot(left, price)], Sgn(delta), s.qty + delta, s.realized + gain)
      else
        Fifo(rest, if rest == [] then 0 else s.sideSign, s.qty + delta, s.realized + gain)
  }

  // ----- Facts about the queue -----

  lemma {:induction false} DropFirstFacts(lots: seq<Lot>, x: real)
    requires Positive(lots) && 0.0 <= x <= LotSum(lots)
    ensures Positive(DropFirst(lots, x))
    ensures LotSum(DropFirst(lots, x)) == LotSum(lots) - x
    ensures LotCost(DropFirst(lots, x)) == LotCost(lots) - CostOfFirst(lots, x)
  {
    if lots != [] && x > 0.0 {
      if x < lots[0].qty {
        var rest := [Lot(lots[0].qty - x, lots[0].price)] + lots[1..];
        assert rest[1..] == lots[1..];
      } else {
        DropFirstFacts(lots[1..], x - lots[0].qty);
        if x == lots[0].qty {
          CostOfNothing(lots[1..]);
        }
      }
    }
  }

  lemma CostOfNothing(lots: seq<Lot>)
    ensures CostOfFirst(lots, 0.0) == 0.0 && DropFirst(lots, 0.0) == lots
  {
  }

  lemma {:induction false} LotSumPositive(lots: seq<Lot>)
    requires Positive(lots)
    ensures LotSum(lots) >= 0.0
    ensures LotSum(lots) == 0.0 <==> lots == []
  {
    if lots != [] {
      LotSumPositive(lots[1..]);
    }
  }

  // Taking x and then y units is taking x + y units.
  lemma {:induction false} TakeTwice(lots: seq<Lot>, x: real, y: real)
    requires Positive(lots) && 0.0 <= x && 0.0 <= y && x + y <= LotSum(lots)
    ensures DropFirst(DropFirst(lots, x), y) == DropFirst(lots, x + y)
    ensures CostOfFirst(lots, x + y) == CostOfFirst(lots, x) + CostOfFirst(DropFirst(lots, x), y)
  {
    if lots == [] || x == 0.0 {
    } else if x < lots[0].qty {
      TakeWithin(lots, x, y);
    } else {
      TakeTwice(lots[1..], x - lots[0].qty, y);
      assert x - lots[0].qty + y == x + y - lots[0].qty;
      CostOfNothing(lots[1..]);
      assert DropFirst(lots, x) == DropFirst(lots[1..], x - lots[0].qty);
      if x + y == lots[0].qty {
        CostOfNothing(lots[1..]);
      }
    }
  }

  lemma TakeWithin(lots: seq<Lot>, x: real, y: real)
    requires Positive(lots) && lots != [] && 0.0 < x < lots[0].qty && 0.0 <= y
    ensures DropFirst(DropFirst(lots, x), y) == DropFirst(lots, x + y)
    ensures CostOfFirst(lots, x + y) == CostOfFirst(lots, x) + CostOfFirst(DropFirst(lots, x), y)
  {
    DropWithin(lots, x, y);
    CostWithin(lots, x, y);
  }

  lemma DropWithin(lots: seq<Lot>, x: real, y: real)
    requires Positive(lots) && lots != [] && 0.0 < x < lots[0].qty && 0.0 <= y
    ensures DropFirst(DropFirst(lots, x), y) == DropFirst(lots, x + y)
  {
    var rest := DropFirst(lots, x);
    assert rest[0] == Lot(lots[0].qty - x, lots[0].price) && rest[1..] == lots[1..];
    assert y - rest[0].qty == x + y - lots[0].qty;
    if 0.0 < y && x + y < lots[0].qty {
      assert rest[0].qty - y == lots[0].qty - (x + y);
    }
  }

  lemma CostWithin(lots: seq<Lot>, x: real, y: real)
    requires Positive(lots) && lots != [] && 0.0 < x < lots[0].qty && 0.0 <= y
    ensures CostOfFirst(lots, x + y) == CostOfFirst(lots, x) + CostOfFirst(DropFirst(lots, x), y)
  {
    hide Worth;
    var l := lots[0];
    var rest := DropFirst(lots, x);
    assert rest[0] == Lot(l.qty - x, l.price) && rest[1..] == lots[1..];
    WorthAdds(l.price, x, y);
    WorthAdds(l.price, x, l.qty - x);
    if x + y > l.qty {
      assert y - rest[0].qty == x + y - l.qty;
      assert x + (l.qty - x) == l.qty;
    }
  }

  lemma {:induction false} AppendLot(lots: seq<Lot>, l: Lot)
    ensures LotSum(lots + [l]) == LotSum(lots) + l.qty
    ensures LotCost(lots + [l]) == LotCost(lots) + Worth(l.price, l.qty)
  {
    if lots == [] {
      assert [l][1..] == [];
    } else {
      AppendLot(lots[1..], l);
      assert (lots + [l])[1..] == lots[1..] + [l];
    }
  }

  lemma {:induction false} DropAll(lots: seq<Lot>)
    requires Positive(lots)
    ensures DropFirst(lots, LotSum(lots)) == []
    ensures CostOfFirst(lots, LotSum(lots)) == LotCost(lots)
  {
    LotSumPositive(lots);
    DropFirstFacts(lots, LotSum(lots));
    LotSumPositive(DropFirst(lots, LotSum(lots)));
    assert LotCost([]) == 0.0;
  }

  // One turn of the loop: the front lot gives up part or all of itself.
  function TakeFromFront(lots: seq<Lot>, take: real): seq<Lot>
    requires lots != []
  {
    var left := lots[0].qty - take;
    if left == 0.0 then lots[1..] else [Lot(left, lots[0].price)] + lots[1..]
  }

  lemma TakeFront(queue: seq<Lot>, closed: real, take: real)
    requires Positive(queue) && 0.0 <= closed <= LotSum(queue)
    requires DropFirst(queue, closed) != [] && 0.0 < take <= DropFirst(queue, closed)[0].qty
    ensures closed + take <= LotSum(queue)
    ensures DropFirst(queue, closed + take) == TakeFromFront(DropFirst(queue, closed), take)
    ensures CostOfFirst(queue, closed + take)
         == CostOfFirst(queue, closed) + Worth(DropFirst(queue, closed)[0].price, take)
  {
    var lots := DropFirst(queue, closed);
    DropFirstFacts(queue, closed);
    assert LotSum(lots) >= take by {
      LotSumPositive(lots[1..]);
    }
    TakeTwice(queue, closed, take);
    TakeOne(lots, take);
  }

  lemma GainOfNothing(queue: seq<Lot>, price: real, sign: int)
    ensures DropFirst(queue, 0.0) == queue && Gain(queue, 0.0, price, sign) == 0.0
  {
    CostOfNothing(queue);
  }

  lemma CloseFront(queue: seq<Lot>, closed: real, take: real, price: real, sign: int)
    requires Positive(queue) && 0.0 <= closed <= LotSum(queue)
    requires DropFirst(queue, closed) != [] && 0.0 < take <= DropFirst(queue, closed)[0].qty
    ensures closed + take <= LotSum(queue)
    ensures DropFirst(queue, closed + take) == TakeFromFront(DropFirst(queue, closed), take)
    ensures Gain(queue, closed + take, price, sign)
         == Gain(queue, closed, price, sign) + PieceGain(price, DropFirst(queue, closed)[0].price, take, sign)
  {
    hide Gain, PieceGain;
    TakeFront(queue, closed, take);
    GainAdds(queue, closed, take, price, DropFirst(queue, closed)[0].price, sign);
  }

  lemma GainAdds(queue: seq<Lot>, x: real, take: real, price: real, lotPrice: real, sign: int)
    requires CostOfFirst(queue, x + take) == CostOfFirst(queue, x) + Worth(lotPrice, take)
    ensures Gain(queue, x + take, price, sign) == Gain(queue, x, price, sign) + PieceGain(price, lotPrice, take, sign)
  {
    hide Worth;
    WorthAdds(price, x, take);
    WorthMoves(price, lotPrice, take);
  }

  lemma TakeOne(lots: seq<Lot>, take: real)
    requires lots != [] && 0.0 < take <= lots[0].qty
    ensures DropFirst(lots, take) == TakeFromFront(lots, take)
    ensures CostOfFirst(lots, take) == Worth(lots[0].price, take)
  {
    CostOfNothing(lots[1..]);
  }

  // The side sign and the queue say what the signed quantity says.
  lemma SideIsSign(s: Fifo, delta: real)
    requires s.Valid() && delta != 0.0
    ensures LotSum(s.lots) == Abs(s.qty) && (s.qty == 0.0 <==> s.lots == [])
    ensures s.qty != 0.0 ==> s.sideSign == Sgn(s.qty)
    ensures Opens(s.qty, delta) <==> s.sideSign == 0 || s.sideSign == Sgn(delta)
  {
    LotSumPositive(s.lots);
  }

  class FifoCostBasis {
    var qty: real
    var realizedPnl: real
    var lots: seq<Lot>
    var sideSign: int

    constructor ()
      ensures Value() == EMPTY_QUEUE && Valid()
    {
      qty, realizedPnl, lots, sideSign := 0.0, 0.0, [], 0;
    }

    ghost function Value(): Fifo
      reads this
    {
      Fifo(lots, sideSign, qty, realizedPnl)
    }

    ghost predicate Valid()
      reads this
    {
      Value().Valid()
    }

    // The while loop of apply, which closes the oldest lots first.
    method CloseOldest(price: real, amount: real) returns (realized: real, closed: real)
      requires Positive(lots) && amount > 0.0
      modifies this`lots
      ensures closed == Min(amount, LotSum(old(lots)))
      ensures lots == DropFirst(old(lots), closed)
      ensures realized == Gain(old(lots), closed, price, sideSign)
    {
      ghost var queue := lots;
      var remaining := amount;
      realized, closed := 0.0, 0.0;
      LotSumPositive(queue);
      GainOfNothing(queue, price, sideSign);
      while remaining > 0.0 && lots != []
        invariant 0.0 <= closed <= LotSum(queue) && remaining == amount - closed >= 0.0
        invariant lots == DropFirst(queue, closed)
        invariant realized == Gain(queue, closed, price, sideSign)
        decreases |lots|, remaining > 0.0
      {
        var lot := lots[0];
        var take := Min(remaining, lot.qty);
        DropFirstFacts(queue, closed);
        CloseFront(queue, closed, take, price, sideSign);
        realized := realized + PieceGain(price, lot.price, take, sideSign);
        lots := TakeFromFront(lots, take);
        remaining := remaining - take;
        closed := closed + take;
      }
      DropFirstFacts(queue, closed);
      LotSumPositive(lots);
    }

    // One fill, against the loop-free specification.
    method Apply(fill: Fill) returns (r: CloseResult)
      requires Valid()
      modifies this
      ensures Valid()
      ensures Value() == FifoStep(old(Value()), fill.SignedQty(), fill.price)
      ensures r.realizedPnl == realizedPnl - old(realizedPnl)
      ensures r.closedQty == ClosedQty(old(qty), fill.SignedQty())
    {
      SideIsSign(Value(), fill.SignedQty());
      FifoStepValid(Value(), fill.SignedQty(), fill.price);
      var deltaSign := Sgn(fill.SignedQty());
      if sideSign == 0 {
        sideSign := deltaSign;
      }
      if deltaSign == sideSign {
        lots := lots + [Lot(fill.qty, fill.price)];
        qty := qty + fill.SignedQty();
        return CloseResult(0.0, 0.0);
      }
      var realized, closed := CloseOldest(fill.price, fill.qty);
      var remaining := fill.qty - closed;
      realizedPnl := realizedPnl + realized;
      qty := qty + fill.SignedQty();
      if remaining > 0.0 {
        sideSign := deltaSign;
        lots := lots + [Lot(remaining, fill.price)];
      } else if lots == [] {
        sideSign := 0;
      }
      return CloseResult(realized, closed);
    }

    // avg_cost: the two sums over the queue and their quotient.
    method AvgCost() returns (avg: real)
      requires Valid()
      ensures avg == Value().AvgCost()
      ensures Worth(avg, LotSum(lots)) == LotCost(lots)
    {
      LotSumPositive(lots);
      var totalQty, totalCost := 0.0, 0.0;
      for i := 0 to |lots|
        invariant totalQty + LotSum(lots[i..]) == LotSum(lots)
        invariant totalCost + LotCost(lots[i..]) == LotCost(lots)
      {
        totalQty := totalQty + lots[i].qty;
        totalCost := totalCost + Worth(lots[i].price, lots[i].qty);
      }
      if totalQty == 0.0 {
        return 0.0;
      }
      return totalCost / totalQty;
    }
  }

  // The queue invariant survives every fill.
  lemma FifoStepValid(s: Fifo, delta: real, price: real)
    requires s.Valid() && delta != 0.0
    ensures FifoStep(s, delta, price).Valid()
  {
    LotSumPositive(s.lots);
    var l := Lot(Abs(delta), price);
    if s.sideSign == 0 || s.sideSign == Sgn(delta) {
      AppendLot(s.lots, l);
    } else {
      var take := Min(Abs(delta), LotSum(s.lots));
      DropFirstFacts(s.lots, take);
      LotSumPositive(DropFirst(s.lots, take));
      AppendLot(DropFirst(s.lots, take), Lot(Abs(delta) - take, price));
    }
  }
}
