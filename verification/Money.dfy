// Exact money arithmetic. Products and weighted means are named so that proofs can work
// with them as they stand and open them only where their algebra is the point.

module Money {
  import opened Models

  // price times quantity
  function Worth(price: real, qty: real): real {
    price * qty
  }

  // The price of `held` units at `avg` blended with `added` units at `price`.
  function Mean(avg: real, held: real, price: real, added: real): real
    requires held + added != 0.0
  {
    (avg * held + price * added) / (held + added)
  }

  lemma WorthAdds(price: real, x: real, y: real)
    ensures Worth(price, x + y) == Worth(price, x) + Worth(price, y)
    ensures Worth(price, x - y) == Worth(price, x) - Worth(price, y)
  {
  }

  lemma WorthMoves(p: real, q: real, x: real)
    ensures Worth(p - q, x) == Worth(p, x) - Worth(q, x)
  {
  }

  lemma WorthOfZero(p: real)
    ensures Worth(p, 0.0) == 0.0 && Worth(0.0, p) == 0.0
  {
  }

  lemma WorthNegated(p: real, x: real)
    ensures Worth(p, -x) == -Worth(p, x)
  {
  }

  // Blending keeps the total cost.
  lemma MeanKeepsCost(avg: real, held: real, price: real, added: real)
    requires held + added != 0.0
    ensures Worth(Mean(avg, held, price, added), held + added) == Worth(avg, held) + Worth(price, added)
  {
  }

  // Blending in two steps at one price is blending once.
  lemma MeanTwice(avg: real, held: real, price: real, x: real, y: real)
    requires held >= 0.0 && x > 0.0 && y > 0.0
    ensures Mean(Mean(avg, held, price, x), held + x, price, y) == Mean(avg, held, price, x + y)
  {
    MeanKeepsCost(avg, held, price, x);
    WorthAdds(price, x, y);
  }

  lemma MeanOfOne(avg: real, held: real, price: real, added: real)
    requires held >= 0.0 && added > 0.0 && (held == 0.0 || avg == price)
    ensures Mean(avg, held, price, added) == price
  {
    if held == 0.0 {
      assert avg * held == 0.0;
      assert (price * added) / added == price;
    } else {
      assert price * held + price * added == price * (held + added);
    }
  }

  lemma MeanBetween(avg: real, held: real, price: real, added: real)
    requires held > 0.0 && added > 0.0
    ensures Min(avg, price) <= Mean(avg, held, price, added) <= Max(avg, price)
  {
    var mean := Mean(avg, held, price, added);
    assert mean * (held + added) == avg * held + price * added;
    assert (mean - avg) * held == (price - mean) * added;
    SameSign(mean - avg, held, price - mean, added);
  }

  lemma SameSign(x: real, h: real, y: real, k: real)
    requires h > 0.0 && k > 0.0 && x * h == y * k
    ensures x >= 0.0 <==> y >= 0.0
    ensures x <= 0.0 <==> y <= 0.0
  {
    SignOfProduct(x, h);
    SignOfProduct(y, k);
  }

  lemma SignOfProduct(x: real, h: real)
    requires h > 0.0
    ensures x * h >= 0.0 <==> x >= 0.0
    ensures x * h <= 0.0 <==> x <= 0.0
  {
  }

  // The signed formula and the absolute-value formula blend alike.
  lemma MeanOfShort(avg: real, held: real, price: real, added: real)
    requires held + added != 0.0
    ensures Mean(avg, -held, price, -added) == Mean(avg, held, price, added)
  {
    var cost, qty := avg * held + price * added, held + added;
    assert avg * -held + price * -added == -cost;
    assert -held + -added == -qty;
    assert (-cost) / (-qty) == cost / qty;
  }
}
