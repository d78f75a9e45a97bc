// When a ledger replayed in timestamp order gives what it gave in the order it was written.

module Reloading {
  import opened Models
  import opened Money
  import opened Sums
  import opened CostBasis
  import opened CostBasisTheory
  import opened Ledger
  import opened Positions
  import opened Settings
  import opened Pnl
  import opened Store

  // The symbol's position and P&L entry come out of the reloaded ledger as they were.
  ghost predicate SymbolReloadsAlike(c: Config, fs: seq<Fill>, s: Symbol) {
    PosRun(ByTs(fs), s) == PosRun(fs, s) && EntryRun(c, ByTs(fs), s) == EntryRun(c, fs, s)
  }

  ghost predicate ReloadsAlike(c: Config, fs: seq<Fill>) {
    forall s: Symbol :: SymbolReloadsAlike(c, fs, s)
  }

  // ----- The fills of one symbol -----

  function OfSymbol(fs: seq<Fill>, s: Symbol): seq<Fill> {
    if fs == [] then []
    else
      var f := fs[|fs| - 1];
      OfSymbol(fs[..|fs| - 1], s) + if f.symbol == s then [f] else []
  }

  lemma OfSymbolOneMore(fs: seq<Fill>, f: Fill, s: Symbol)
    ensures OfSymbol(fs + [f], s) == OfSymbol(fs, s) + if f.symbol == s then [f] else []
  {
    assert (fs + [f])[..|fs|] == fs;
  }

  // A replay of a symbol looks at its own fills only.
  lemma {:induction false} ReplayOfSymbol(fs: seq<Fill>, s: Symbol)
    ensures AvgRun(OfSymbol(fs, s), s) == AvgRun(fs, s) && FifoRun(OfSymbol(fs, s), s) == FifoRun(fs, s)
  {
    hide AvgStep, FifoStep;
    if fs != [] {
      var before, f := fs[..|fs| - 1], fs[|fs| - 1];
      ReplayOfSymbol(before, s);
      if f.symbol == s {
        RunOneMore(OfSymbol(before, s), f, s);
      } else {
        assert OfSymbol(fs, s) == OfSymbol(before, s);
      }
    }
  }

  // The symbol's own fills were written in timestamp order, whatever the others were.
  ghost predicate Timely(fs: seq<Fill>, s: Symbol) {
    forall i, j :: 0 <= i < j < |fs| && fs[i].symbol == s && fs[j].symbol == s ==> fs[i].ts <= fs[j].ts
  }

  lemma {:induction false} InsertOfOther(f: Fill, sorted: seq<Fill>, s: Symbol)
    requires f.symbol != s
    ensures OfSymbol(Insert(f, sorted), s) == OfSymbol(sorted, s)
  {
    if sorted == [] {
      OfSymbolOneMore([], f, s);
      assert [] + [f] == [f];
    } else if f.ts < sorted[|sorted| - 1].ts {
      InsertOfOther(f, sorted[..|sorted| - 1], s);
      OfSymbolOneMore(Insert(f, sorted[..|sorted| - 1]), sorted[|sorted| - 1], s);
    } else {
      OfSymbolOneMore(sorted, f, s);
    }
  }

  // A fill not before its symbol's others is put behind them.
  lemma {:induction false} InsertOfLatest(f: Fill, sorted: seq<Fill>)
    requires forall g :: g in sorted && g.symbol == f.symbol ==> g.ts <= f.ts
    ensures OfSymbol(Insert(f, sorted), f.symbol) == OfSymbol(sorted, f.symbol) + [f]
  {
    if sorted == [] {
      OfSymbolOneMore([], f, f.symbol);
      assert [] + [f] == [f];
    } else if f.ts < sorted[|sorted| - 1].ts {
      var front, last := sorted[..|sorted| - 1], sorted[|sorted| - 1];
      assert last in sorted && forall g :: g in front ==> g in sorted;
      InsertOfLatest(f, front);
      OfSymbolOneMore(Insert(f, front), last, f.symbol);
      assert OfSymbol(sorted, f.symbol) == OfSymbol(front, f.symbol);
    } else {
      OfSymbolOneMore(sorted, f, f.symbol);
    }
  }

  lemma SameFills(fs: seq<Fill>)
    ensures multiset(ByTs(fs)) == multiset(fs) && forall f :: f in ByTs(fs) <==> f in fs
  {
    ByTsSorts(fs);
    forall f ensures f in ByTs(fs) <==> f in fs {
      assert f in ByTs(fs) <==> f in multiset(ByTs(fs));
      assert f in fs <==> f in multiset(fs);
    }
  }

  lemma {:induction false} TimelyKeepsOrder(fs: seq<Fill>, s: Symbol)
    requires Timely(fs, s)
    ensures OfSymbol(ByTs(fs), s) == OfSymbol(fs, s)
  {
    hide Insert;
    if fs == [] {
    } else {
      var before, f := fs[..|fs| - 1], fs[|fs| - 1];
      TimelyKeepsOrder(before, s);
      if f.symbol == s {
        SameFills(before);
        forall g | g in ByTs(before) && g.symbol == f.symbol ensures g.ts <= f.ts {
          var i :| 0 <= i < |before| && before[i] == g;
          assert fs[i].ts <= fs[|fs| - 1].ts;
        }
        InsertOfLatest(f, ByTs(before));
      } else {
        InsertOfOther(f, ByTs(before), s);
      }
    }
  }

  // ----- Two conditions on timestamps and quantities -----

  // A symbol whose own fills were written in timestamp order reloads alike.
  lemma TimelyReloadsAlike(c: Config, fs: seq<Fill>, s: Symbol)
    requires Timely(fs, s)
    ensures SymbolReloadsAlike(c, fs, s)
  {
    hide AvgRun, FifoRun, ByTs, OfSymbol;
    SameFills(fs);
    TimelyKeepsOrder(fs, s);
    ReplayOfSymbol(fs, s);
    ReplayOfSymbol(ByTs(fs), s);
    SumPermuted(ByTs(fs), fs, FeesOf(s));
    SumPermuted(ByTs(fs), fs, ChargesOf(c, s));
  }

  // So does a symbol that is flat in the end, whatever its timestamps.
  lemma FlatReloadsAlike(c: Config, fs: seq<Fill>, s: Symbol)
    requires Net(fs, s) == 0.0
    ensures SymbolReloadsAlike(c, fs, s)
  {
    hide AvgRun, FifoRun, ByTs, Net;
    SameFills(fs);
    ReplayOrder(ByTs(fs), fs, s, 0.0);
    FlatReplays(fs, s);
    FlatReplays(ByTs(fs), s);
    SumPermuted(ByTs(fs), fs, FeesOf(s));
    SumPermuted(ByTs(fs), fs, ChargesOf(c, s));
    AvgIdentity(fs, s, 0.0);
    FifoIdentity(fs, s, 0.0);
  }

  // A flat replay is its realized P&L and nothing else.
  lemma FlatReplays(fs: seq<Fill>, s: Symbol)
    ensures var b := AvgRun(fs, s); b.qty == 0.0 ==> b == Basis(0.0, 0.0, MarkedPnl(b.realized, b.avg, b.qty, 0.0))
    ensures var q := FifoRun(fs, s); q.qty == 0.0 ==> q == Fifo([], 0, 0.0, FifoPnl(q, 0.0))
  {
    hide AvgRun, FifoRun, Worth;
    var b, q := AvgRun(fs, s), FifoRun(fs, s);
    FlatHasNoBasis(fs, s);
    FifoRunValid(fs, s);
    LotSumPositive(q.lots);
    WorthOfZero(0.0 - b.avg);
    WorthOfZero(0.0 - q.AvgCost());
  }

  // Every symbol is flat or its fills were written in timestamp order.
  ghost predicate FlatOrTimely(fs: seq<Fill>) {
    forall s: Symbol :: Net(fs, s) == 0.0 || Timely(fs, s)
  }

  lemma FlatOrTimelyReloadsAlike(c: Config, fs: seq<Fill>)
    requires FlatOrTimely(fs)
    ensures ReloadsAlike(c, fs)
  {
    hide SymbolReloadsAlike, Net, Timely;
    forall s: Symbol ensures SymbolReloadsAlike(c, fs, s) {
      if Timely(fs, s) {
        TimelyReloadsAlike(c, fs, s);
      } else {
        FlatReloadsAlike(c, fs, s);
      }
    }
  }

  // A ledger wholly in timestamp order, in particular.
  lemma SortedReloadsAlike(c: Config, fs: seq<Fill>)
    requires InTsOrder(fs)
    ensures ReloadsAlike(c, fs)
  {
    ByTsOfSorted(fs);
  }

  // ----- What decides the rest -----

  ghost predicate RealizedReloadsAlike(fs: seq<Fill>, s: Symbol) {
    AvgRun(ByTs(fs), s).realized == AvgRun(fs, s).realized
  }

  // A symbol's position comes back as it was if and only if its realized P&L does: what the
  // order moves between realized P&L and average cost is all it can change.
  lemma PositionReloadsExactly(fs: seq<Fill>, s: Symbol)
    ensures PosRun(ByTs(fs), s) == PosRun(fs, s) <==> RealizedReloadsAlike(fs, s)
  {
    hide AvgRun, ByTs, Worth;
    SameFills(fs);
    var a, b := AvgRun(ByTs(fs), s), AvgRun(fs, s);
    ReplayOrder(ByTs(fs), fs, s, 0.0);
    SumPermuted(ByTs(fs), fs, FeesOf(s));
    FlatHasNoBasis(fs, s);
    FlatHasNoBasis(ByTs(fs), s);
    if a.realized == b.realized && a.qty != 0.0 {
      SameWorthSameAverage(a.avg, b.avg, a.qty);
    }
  }

  lemma SameWorthSameAverage(x: real, y: real, qty: real)
    requires qty != 0.0 && Worth(0.0 - x, qty) == Worth(0.0 - y, qty)
    ensures x == y
  {
    assert (x - y) * qty == 0.0;
  }

  // Under AVERAGE a ledger reloads alike if and only if every symbol's realized P&L does.
  lemma AverageReloadsExactly(c: Config, fs: seq<Fill>)
    requires c.basis.AVERAGE?
    ensures ReloadsAlike(c, fs) <==> forall s: Symbol :: RealizedReloadsAlike(fs, s)
  {
    hide SymbolReloadsAlike, RealizedReloadsAlike;
    forall s: Symbol ensures SymbolReloadsAlike(c, fs, s) <==> RealizedReloadsAlike(fs, s) {
      AverageSymbolReloads(c, fs, s);
    }
  }

  lemma AverageSymbolReloads(c: Config, fs: seq<Fill>, s: Symbol)
    requires c.basis.AVERAGE?
    ensures SymbolReloadsAlike(c, fs, s) <==> RealizedReloadsAlike(fs, s)
  {
    hide AvgRun, ByTs;
    SameFills(fs);
    PositionReloadsExactly(fs, s);
    SumPermuted(ByTs(fs), fs, ChargesOf(c, s));
  }
}
