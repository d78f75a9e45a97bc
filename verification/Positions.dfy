// The position book (app/positions.py): one position per symbol, updated by each fill.

module Positions {
  import opened Models
  import opened Money
  import opened Sums
  import opened CostBasis
  import opened Ledger

  datatype Position = Position(basis: Basis, fees: real)

  type Book = map<Symbol, Position>

  const FLAT_POSITION := Position(FLAT, 0.0)

  function PosStep(p: Position, f: Fill): Position {
    Position(AvgStep(p.basis, f.SignedQty(), f.price), p.fees + f.fee)
  }

  // A symbol the book has no entry for is flat.
  function Lookup(book: Book, s: Symbol): Position {
    if s in book then book[s] else FLAT_POSITION
  }

  // get() creates the entry it does not find.
  function Touched(book: Book, s: Symbol): Book {
    if s in book then book else book[s := FLAT_POSITION]
  }

  function BookStep(book: Book, f: Fill): Book {
    book[f.symbol := PosStep(Lookup(book, f.symbol), f)]
  }

  // ----- What a book must say about a ledger -----

  function FeesOf(s: Symbol): Fill -> real {
    (f: Fill) => if f.symbol == s then f.fee else 0.0
  }

  function PosRun(fs: seq<Fill>, s: Symbol): Position {
    Position(AvgRun(fs, s), Sum(fs, FeesOf(s)))
  }

  function Symbols(fs: seq<Fill>): set<Symbol> {
    set f | f in fs :: f.symbol
  }

  ghost predicate Replays(book: Book, fs: seq<Fill>) {
    && Symbols(fs) <= book.Keys
    && forall s: Symbol :: Lookup(book, s) == PosRun(fs, s)
  }

  lemma PosRunOneMore(fs: seq<Fill>, f: Fill, s: Symbol)
    ensures PosRun(fs + [f], s) == if f.symbol == s then PosStep(PosRun(fs, s), f) else PosRun(fs, s)
  {
    RunOneMore(fs, f, s);
    SumOneMore(fs, f, FeesOf(s));
  }

  lemma BookStepReplays(book: Book, fs: seq<Fill>, f: Fill)
    requires Replays(book, fs)
    ensures Replays(BookStep(book, f), fs + [f])
  {
    forall s: Symbol ensures Lookup(BookStep(book, f), s) == PosRun(fs + [f], s) {
      PosRunOneMore(fs, f, s);
    }
  }

  lemma {:induction false} UntradedIsFlat(fs: seq<Fill>, s: Symbol)
    requires s !in Symbols(fs)
    ensures PosRun(fs, s) == FLAT_POSITION && FifoRun(fs, s) == EMPTY_QUEUE
  {
    if fs != [] {
      var n := |fs| - 1;
      assert fs[n] in fs && forall f :: f in fs[..n] ==> f in fs;
      UntradedIsFlat(fs[..n], s);
      assert fs == fs[..n] + [fs[n]];
      PosRunOneMore(fs[..n], fs[n], s);
    }
  }

  // One fill, or two at the same price that share its fee, with any ledger before and after:
  // the same position in every field.
  lemma PositionSplit(fs: seq<Fill>, whole: Fill, a: Fill, b: Fill, gs: seq<Fill>, s: Symbol)
    requires Splits(whole, a, b)
    ensures PosRun(fs + [a, b] + gs, s) == PosRun(fs + [whole] + gs, s)
  {
    var w := FeesOf(s);
    LedgerSplit(fs, whole, a, b, gs, s);
    SumConcat(fs + [a, b], gs, w);
    SumConcat(fs + [whole], gs, w);
    assert fs + [a, b] == fs + [a] + [b];
    SumOneMore(fs + [a], b, w);
    SumOneMore(fs, a, w);
    SumOneMore(fs, whole, w);
  }

  class PositionBook {
    var positions: Book

    constructor ()
      ensures positions == map[] && Replays(positions, [])
    {
      positions := map[];
    }

    method Get(s: Symbol) returns (p: Position)
      modifies this
      ensures positions == Touched(old(positions), s) && p == Lookup(old(positions), s)
    {
      if s !in positions {
        positions := positions[s := FLAT_POSITION];
      }
      p := positions[s];
    }

    method Apply(fill: Fill) returns (p: Position)
      modifies this
      ensures positions == BookStep(old(positions), fill) && p == positions[fill.symbol]
    {
      var pos := Get(fill.symbol);
      var qty, avg, realized := pos.basis.qty, pos.basis.avg, pos.basis.realized;
      var delta := fill.SignedQty();
      var oldQty := qty;
      if oldQty == 0.0 || (oldQty > 0.0) == (delta > 0.0) {
        avg := Mean(avg, Abs(oldQty), fill.price, fill.qty);
        qty := oldQty + delta;
      } else {
        var direction := if oldQty > 0.0 then 1 else -1;
        var closed := Min(fill.qty, Abs(oldQty));
        realized := realized + PieceGain(fill.price, avg, closed, direction);
        var newQty := oldQty + delta;
        if newQty == 0.0 {
          avg := 0.0;
        } else if (newQty > 0.0) != (oldQty > 0.0) {
          avg := fill.price;
        }
        qty := newQty;
      }
      p := Position(Basis(qty, avg, realized), pos.fees + fill.fee);
      positions := positions[fill.symbol := p];
    }

    method ApplyMany(fills: seq<Fill>, ghost before: seq<Fill>)
      requires Replays(positions, before)
      modifies this
      ensures Replays(positions, before + fills)
    {
      assert before + [] == before;
      for i := 0 to |fills|
        invariant Replays(positions, before + fills[..i])
      {
        BookStepReplays(positions, before + fills[..i], fills[i]);
        assert before + fills[..i] + [fills[i]] == before + fills[..i + 1];
        var _ := Apply(fills[i]);
      }
      assert fills[..|fills|] == fills;
    }
  }
}
