// The broker's own book (app/brokers/mock.py, _apply_to_book): signed quantities, one
// realized total and one fee total for the whole account.

module BrokerBook {
  import opened Models
  import opened Money
  import opened Sums
  import opened CostBasis
  import opened Ledger
  import opened Positions

  // realized is the account's running total when the position was last touched.
  datatype BrokerPosition = BrokerPosition(qty: real, avg: real, realized: real)

  datatype Account = Account(positions: map<Symbol, BrokerPosition>, realized: real, fees: real)

  const NO_POSITION := BrokerPosition(0.0, 0.0, 0.0)

  const EMPTY_ACCOUNT := Account(map[], 0.0, 0.0)

  function At(a: Account, s: Symbol): BrokerPosition {
    if s in a.positions then a.positions[s] else NO_POSITION
  }

  // Quantity and average after a fill. A fill through zero leaves the average as it was.
  function Booked(p: BrokerPosition, signed: real, price: real): (real, real)
    requires signed != 0.0
  {
    var newQty := p.qty + signed;
    if Opens(p.qty, signed) then (newQty, Mean(p.avg, p.qty, price, signed))
    else (newQty, if newQty == 0.0 then 0.0 else p.avg)
  }

  function BookedGain(p: BrokerPosition, signed: real, price: real): real {
    if Opens(p.qty, signed) then 0.0 else PieceGain(price, p.avg, Min(Abs(signed), Abs(p.qty)), Sgn(p.qty))
  }

  function AccountStep(a: Account, f: Fill): Account {
    var p := At(a, f.symbol);
    var (qty, avg) := Booked(p, f.SignedQty(), f.price);
    var realized := a.realized + BookedGain(p, f.SignedQty(), f.price);
    Account(a.positions[f.symbol := BrokerPosition(qty, avg, realized)], realized, a.fees + f.fee)
  }

  function AccountRun(fs: seq<Fill>): Account {
    if fs == [] then EMPTY_ACCOUNT else AccountStep(AccountRun(fs[..|fs| - 1]), fs[|fs| - 1])
  }

  // ----- Against the position book's formula -----

  predicate SameOpen(p: BrokerPosition, b: Basis) {
    p.qty == b.qty && p.avg == b.avg
  }

  // The fill takes the book through zero at a price other than its average.
  predicate Flips(b: Basis, delta: real, price: real) {
    Crosses(b.qty, delta) && price != b.avg
  }

  // One fill: the same quantity and the same realized gain always; the same average exactly
  // when the fill does not flip the book at another price.
  lemma BookedExactly(p: BrokerPosition, b: Basis, delta: real, price: real)
    requires delta != 0.0 && SameOpen(p, b)
    ensures var (qty, avg) := Booked(p, delta, price);
            var c := AvgStep(b, delta, price);
            && qty == c.qty
            && BookedGain(p, delta, price) == c.realized - b.realized
            && (avg == c.avg <==> !Flips(b, delta, price))
  {
    hide Mean, PieceGain;
    if Opens(b.qty, delta) && delta < 0.0 {
      MeanOfShort(b.avg, Abs(b.qty), price, Abs(delta));
    }
  }

  lemma AccountOneMore(fs: seq<Fill>, f: Fill)
    ensures AccountRun(fs + [f]) == AccountStep(AccountRun(fs), f)
  {
    assert (fs + [f])[..|fs|] == fs;
  }

  // Flips or not, the broker's quantity is the net signed quantity, its fees are all fees,
  // and it has a position for exactly the traded symbols.
  lemma {:induction false} BrokerQuantity(fs: seq<Fill>, s: Symbol)
    ensures At(AccountRun(fs), s).qty == Net(fs, s)
    ensures AccountRun(fs).fees == Sum(fs, Fee())
    ensures AccountRun(fs).positions.Keys == Symbols(fs)
  {
    hide Mean, PieceGain;
    if fs != [] {
      var before, f := fs[..|fs| - 1], fs[|fs| - 1];
      BrokerQuantity(before, s);
      assert fs == before + [f];
      assert Symbols(fs) == Symbols(before) + {f.symbol};
    }
  }

  // What the account had realized, over all symbols, at the last fill of one of them.
  function RealizedAtLast(fs: seq<Fill>, s: Symbol): real {
    if fs == [] then 0.0
    else if fs[|fs| - 1].symbol == s then AccountRun(fs).realized
    else RealizedAtLast(fs[..|fs| - 1], s)
  }

  // That is what a position's own realized figure says.
  lemma {:induction false} RealizedIsAccounts(fs: seq<Fill>, s: Symbol)
    ensures At(AccountRun(fs), s).realized == RealizedAtLast(fs, s)
  {
    hide Mean, PieceGain;
    if fs != [] {
      RealizedIsAccounts(fs[..|fs| - 1], s);
    }
  }

  // No fill flips the average-cost book it meets.
  ghost predicate NeverFlips(fs: seq<Fill>) {
    fs == [] ||
    var before, f := fs[..|fs| - 1], fs[|fs| - 1];
    NeverFlips(before) && !Flips(AvgRun(before, f.symbol), f.SignedQty(), f.price)
  }

  function RealizedIn(fs: seq<Fill>): Symbol -> real {
    (s: Symbol) => AvgRun(fs, s).realized
  }

  ghost predicate BrokerAgrees(fs: seq<Fill>) {
    && (forall s: Symbol :: SameOpen(At(AccountRun(fs), s), AvgRun(fs, s)))
    && AccountRun(fs).realized == Over(Symbols(fs), RealizedIn(fs))
  }

  // For every fill sequence: quantity, average and, summed over the symbols, realized P&L
  // agree with the position book after every fill if and only if no fill flips the book.
  lemma {:induction false} BrokerRefinesExactly(fs: seq<Fill>)
    ensures (forall n :: 0 <= n <= |fs| ==> BrokerAgrees(fs[..n])) <==> NeverFlips(fs)
  {
    hide BrokerAgrees;
    if fs == [] {
      NothingAgrees();
      assert fs[..0] == [];
    } else {
      var n := |fs| - 1;
      var before, f := fs[..n], fs[n];
      BrokerRefinesExactly(before);
      assert forall k :: 0 <= k <= n ==> before[..k] == fs[..k];
      assert before[..n] == before && fs[..|fs|] == fs == before + [f];
      if BrokerAgrees(before) {
        BrokerStepExactly(before, f);
      }
    }
  }

  lemma NothingAgrees()
    ensures BrokerAgrees([])
  {
  }

  lemma BrokerStepExactly(fs: seq<Fill>, f: Fill)
    requires BrokerAgrees(fs)
    ensures BrokerAgrees(fs + [f]) <==> !Flips(AvgRun(fs, f.symbol), f.SignedQty(), f.price)
  {
    hide Booked, BookedGain, AvgStep, AvgRun, Flips;
    var all, a, s := fs + [f], AccountRun(fs), f.symbol;
    var b := AvgRun(fs, s);
    AccountOneMore(fs, f);
    BookedExactly(At(a, s), b, f.SignedQty(), f.price);
    forall t: Symbol
      ensures AvgRun(all, t) == if t == s then AvgStep(b, f.SignedQty(), f.price) else AvgRun(fs, t)
      ensures t != s ==> At(AccountRun(all), t) == At(a, t)
    {
      RunOneMore(fs, f, t);
    }
    RealizedAfter(fs, f);
  }

  lemma RealizedAfter(fs: seq<Fill>, f: Fill)
    ensures Over(Symbols(fs + [f]), RealizedIn(fs + [f]))
         == Over(Symbols(fs), RealizedIn(fs)) + AvgStep(AvgRun(fs, f.symbol), f.SignedQty(), f.price).realized
            - AvgRun(fs, f.symbol).realized
  {
    hide AvgStep, AvgRun, Over;
    var all, s := fs + [f], f.symbol;
    assert Symbols(all) == Symbols(fs) + {s};
    forall t: Symbol
      ensures AvgRun(all, t) == if t == s then AvgStep(AvgRun(fs, s), f.SignedQty(), f.price) else AvgRun(fs, t)
    {
      RunOneMore(fs, f, t);
    }
    if s in Symbols(fs) {
      assert Symbols(all) == Symbols(fs);
      OverChanged(Symbols(fs), RealizedIn(fs), RealizedIn(all), s);
    } else {
      OverAdded(Symbols(fs), RealizedIn(all), s);
      OverSame(Symbols(fs), RealizedIn(fs), RealizedIn(all));
      UntradedIsFlat(fs, s);
    }
  }

  lemma NeverFlipsAgrees(fs: seq<Fill>)
    requires NeverFlips(fs)
    ensures BrokerAgrees(fs)
  {
    BrokerRefinesExactly(fs);
    assert fs[..|fs|] == fs;
  }

  // Two fills that part the books: buy one at 10, sell two at 20.
  lemma FlipParts()
    ensures exists fs :: !BrokerAgrees(fs)
  {
    hide BrokerAgrees;
    var a: Fill := Execution(0, "X", Buy, 1.0, 10.0, 0.0, 0, None, 0);
    var b: Fill := Execution(1, "X", Sell, 2.0, 20.0, 0.0, 1, None, 1);
    RunOneMore([], a, "X");
    assert [] + [a] == [a];
    MeanOfOne(0.0, 0.0, 10.0, 1.0);
    assert AvgRun([a], "X") == Basis(1.0, 10.0, 0.0);
    NothingAgrees();
    BrokerStepExactly([], a);
    BrokerStepExactly([a], b);
  }
}
