// The fill ledger replayed for one symbol, and what every replay has in common.

module Ledger {
  import opened Models
  import opened Money
  import opened Sums
  import opened CostBasis
  import opened CostBasisTheory

  // ----- Replays -----

  function AvgRun(fs: seq<Fill>, s: Symbol): Basis {
    if fs == [] then FLAT
    else
      var before, f := AvgRun(fs[..|fs| - 1], s), fs[|fs| - 1];
      if f.symbol == s then AvgStep(before, f.SignedQty(), f.price) else before
  }

  function FifoRun(fs: seq<Fill>, s: Symbol): Fifo {
    if fs == [] then EMPTY_QUEUE
    else
      var before, f := FifoRun(fs[..|fs| - 1], s), fs[|fs| - 1];
      if f.symbol == s then FifoStep(before, f.SignedQty(), f.price) else before
  }

  lemma RunOneMore(fs: seq<Fill>, f: Fill, s: Symbol)
    ensures AvgRun(fs + [f], s)
         == if f.symbol == s then AvgStep(AvgRun(fs, s), f.SignedQty(), f.price) else AvgRun(fs, s)
    ensures FifoRun(fs + [f], s)
         == if f.symbol == s then FifoStep(FifoRun(fs, s), f.SignedQty(), f.price) else FifoRun(fs, s)
  {
    assert (fs + [f])[..|fs|] == fs;
  }

  lemma {:induction false} FifoRunValid(fs: seq<Fill>, s: Symbol)
    ensures FifoRun(fs, s).Valid()
  {
    if fs == [] {
      assert LotSum([]) == 0.0;
    } else {
      FifoRunValid(fs[..|fs| - 1], s);
      FifoStepValid(FifoRun(fs[..|fs| - 1], s), fs[|fs| - 1].SignedQty(), fs[|fs| - 1].price);
    }
  }

  // A flat book carries no average cost.
  lemma {:induction false} FlatHasNoBasis(fs: seq<Fill>, s: Symbol)
    ensures AvgRun(fs, s).qty == 0.0 ==> AvgRun(fs, s).avg == 0.0
  {
    hide Mean, PieceGain;
    if fs != [] {
      FlatHasNoBasis(fs[..|fs| - 1], s);
    }
  }

  // ----- Sums over the ledger of one symbol -----

  function NetOf(s: Symbol): Fill -> real {
    (f: Fill) => if f.symbol == s then f.SignedQty() else 0.0
  }

  function GainAt(s: Symbol, mark: real): Fill -> real {
    (f: Fill) => if f.symbol == s then Worth(mark - f.price, f.SignedQty()) else 0.0
  }

  // Net signed quantity.
  function Net(fs: seq<Fill>, s: Symbol): real {
    Sum(fs, NetOf(s))
  }

  // ----- The accounting identity over whole ledgers -----

  // Realized plus unrealized P&L at any mark is the sum, over the fills, of signed quantity
  // times distance to the mark; the quantity is the net signed quantity.
  lemma {:induction false} AvgIdentity(fs: seq<Fill>, s: Symbol, mark: real)
    ensures var b := AvgRun(fs, s);
            b.qty == Net(fs, s) && MarkedPnl(b.realized, b.avg, b.qty, mark) == Sum(fs, GainAt(s, mark))
  {
    hide Worth, Mean;
    if fs == [] {
      WorthOfZero(mark - 0.0);
    } else {
      var before, f := fs[..|fs| - 1], fs[|fs| - 1];
      AvgIdentity(before, s, mark);
      if f.symbol == s {
        AvgStepTotal(AvgRun(before, s), f.SignedQty(), f.price, mark);
      }
    }
  }

  lemma {:induction false} FifoIdentity(fs: seq<Fill>, s: Symbol, mark: real)
    ensures var q := FifoRun(fs, s);
            q.Valid() && q.qty == Net(fs, s) && FifoPnl(q, mark) == Sum(fs, GainAt(s, mark))
  {
    hide Worth;
    FifoRunValid(fs, s);
    if fs == [] {
      WorthOfZero(mark - EMPTY_QUEUE.AvgCost());
    } else {
      var before, f := fs[..|fs| - 1], fs[|fs| - 1];
      FifoIdentity(before, s, mark);
      if f.symbol == s {
        FifoStepTotal(FifoRun(before, s), f.SignedQty(), f.price, mark);
      }
    }
  }

  // The methods agree on quantity and on total P&L at every mark; their realized P&L
  // differs by exactly the difference of their open cost bases, so it agrees when flat.
  lemma MethodsAgree(fs: seq<Fill>, s: Symbol, mark: real)
    ensures var b, q := AvgRun(fs, s), FifoRun(fs, s);
            && b.qty == q.qty
            && MarkedPnl(b.realized, b.avg, b.qty, mark) == FifoPnl(q, mark)
            && q.realized - b.realized == Worth(q.AvgCost(), q.qty) - Worth(b.avg, b.qty)
            && (b.qty == 0.0 ==> b.realized == q.realized)
  {
    hide Worth, Mean;
    var b, q := AvgRun(fs, s), FifoRun(fs, s);
    AvgIdentity(fs, s, mark);
    FifoIdentity(fs, s, mark);
    PnlIsCash(b.realized, b.avg, b.qty, mark);
    PnlIsCash(q.realized, q.AvgCost(), q.qty, mark);
    WorthOfZero(b.avg);
    WorthOfZero(q.AvgCost());
  }

  // ----- Replay order -----

  // Any permutation of a ledger has the same net quantity and the same realized plus
  // unrealized P&L at every mark, under either method.
  lemma ReplayOrder(fs: seq<Fill>, gs: seq<Fill>, s: Symbol, mark: real)
    requires multiset(fs) == multiset(gs)
    ensures AvgRun(fs, s).qty == AvgRun(gs, s).qty && FifoRun(fs, s).qty == FifoRun(gs, s).qty
    ensures var b, c := AvgRun(fs, s), AvgRun(gs, s);
            MarkedPnl(b.realized, b.avg, b.qty, mark) == MarkedPnl(c.realized, c.avg, c.qty, mark)
    ensures FifoPnl(FifoRun(fs, s), mark) == FifoPnl(FifoRun(gs, s), mark)
  {
    hide Worth, Mean;
    SumPermuted(fs, gs, NetOf(s));
    SumPermuted(fs, gs, GainAt(s, mark));
    AvgIdentity(fs, s, mark);
    AvgIdentity(gs, s, mark);
    FifoIdentity(fs, s, mark);
    FifoIdentity(gs, s, mark);
  }

  // Realized P&L alone does depend on the order: buy, sell, buy realizes 10; buy, buy, sell
  // realizes nothing.
  lemma RealizedMoves()
    ensures exists fs: seq<Fill>, gs: seq<Fill> ::
      multiset(fs) == multiset(gs) && AvgRun(fs, "X").realized != AvgRun(gs, "X").realized
  {
    hide AvgStep;
    var a: Fill := Execution(0, "X", Buy, 1.0, 10.0, 0.0, 0, None, 0);
    var b: Fill := Execution(0, "X", Sell, 1.0, 20.0, 0.0, 1, None, 1);
    var c: Fill := Execution(0, "X", Buy, 1.0, 30.0, 0.0, 2, None, 2);
    ThreeSteps();
    RunOfThree(a, b, c);
    RunOfThree(a, c, b);
    assert multiset([a, b, c]) == multiset([a, c, b]);
  }

  lemma ThreeSteps()
    ensures AvgStep(AvgStep(AvgStep(FLAT, 1.0, 10.0), -1.0, 20.0), 1.0, 30.0).realized == 10.0
    ensures AvgStep(AvgStep(AvgStep(FLAT, 1.0, 10.0), 1.0, 30.0), -1.0, 20.0).realized == 0.0
  {
    var open := AvgStep(FLAT, 1.0, 10.0);
    assert open == Basis(1.0, 10.0, 0.0);
    assert AvgStep(open, -1.0, 20.0) == Basis(0.0, 0.0, 10.0);
    assert AvgStep(open, 1.0, 30.0) == Basis(2.0, 20.0, 0.0);
  }

  lemma RunOfThree(a: Fill, b: Fill, c: Fill)
    requires a.symbol == b.symbol == c.symbol == "X"
    ensures AvgRun([a, b, c], "X")
         == AvgStep(AvgStep(AvgStep(FLAT, a.SignedQty(), a.price), b.SignedQty(), b.price), c.SignedQty(), c.price)
  {
    RunOneMore([], a, "X");
    RunOneMore([a], b, "X");
    RunOneMore([a, b], c, "X");
    assert [] + [a] == [a] && [a] + [b] == [a, b] && [a, b] + [c] == [a, b, c];
  }

  // ----- Splitting a fill anywhere in a ledger -----

  ghost predicate Splits(whole: Fill, a: Fill, b: Fill) {
    && a.symbol == b.symbol == whole.symbol && a.side == b.side == whole.side
    && a.price == b.price == whole.price && a.qty + b.qty == whole.qty && a.fee + b.fee == whole.fee
  }

  // Replays nothing can tell apart.
  ghost predicate SameReplay(fs: seq<Fill>, gs: seq<Fill>, s: Symbol) {
    AvgRun(fs, s) == AvgRun(gs, s) && Alike(FifoRun(fs, s), FifoRun(gs, s))
  }

  // One fill, or two at the same price, with any ledger before and after: the same blended
  // book, and FIFO queues nothing can tell apart.
  lemma {:induction false} LedgerSplit(fs: seq<Fill>, whole: Fill, a: Fill, b: Fill, gs: seq<Fill>, s: Symbol)
    requires Splits(whole, a, b)
    ensures SameReplay(fs + [a, b] + gs, fs + [whole] + gs, s)
    decreases |gs|
  {
    if gs == [] {
      assert fs + [a, b] + gs == fs + [a] + [b] && fs + [whole] + gs == fs + [whole];
      SplitHere(fs, whole, a, b, s);
    } else {
      var before, g := gs[..|gs| - 1], gs[|gs| - 1];
      assert fs + [a, b] + gs == fs + [a, b] + before + [g] && fs + [whole] + gs == fs + [whole] + before + [g];
      LedgerSplit(fs, whole, a, b, before, s);
      SameReplayGoesOn(fs + [a, b] + before, fs + [whole] + before, g, s);
    }
  }

  lemma SameReplayGoesOn(fs: seq<Fill>, gs: seq<Fill>, f: Fill, s: Symbol)
    requires SameReplay(fs, gs, s)
    ensures SameReplay(fs + [f], gs + [f], s)
  {
    hide AvgStep, FifoStep, Alike, Fifo.Valid;
    RunOneMore(fs, f, s);
    RunOneMore(gs, f, s);
    FifoRunValid(fs, s);
    FifoRunValid(gs, s);
    if f.symbol == s {
      FifoStepKeepsAlike(FifoRun(fs, s), FifoRun(gs, s), f.SignedQty(), f.price);
    }
  }

  lemma SplitHere(fs: seq<Fill>, whole: Fill, a: Fill, b: Fill, s: Symbol)
    requires Splits(whole, a, b)
    ensures SameReplay(fs + [a] + [b], fs + [whole], s)
  {
    hide Worth, Mean;
    RunOneMore(fs, a, s);
    RunOneMore(fs + [a], b, s);
    RunOneMore(fs, whole, s);
    FifoRunValid(fs, s);
    if whole.symbol == s {
      AvgSplit(AvgRun(fs, s), a.SignedQty(), b.SignedQty(), whole.price);
      FifoSplit(FifoRun(fs, s), a.SignedQty(), b.SignedQty(), whole.price);
    }
  }
}
