// P&L from the fill ledger (app/pnl.py): one cost basis and one fee total per symbol.

module Pnl {
  import opened Models
  import opened Money
  import opened Sums
  import opened CostBasis
  import opened CostBasisTheory
  import opened Ledger
  import opened Positions
  import opened Settings

  datatype BasisState = Blended(basis: Basis) | Queued(fifo: Fifo) {
    function Qty(): real {
      if Blended? then basis.qty else fifo.qty
    }

    function AvgCost(): real {
      if Blended? then basis.avg else fifo.AvgCost()
    }

    function Realized(): real {
      if Blended? then basis.realized else fifo.realized
    }
  }

  datatype Entry = Entry(basis: BasisState, fees: real, adjust: real)

  type Entries = map<Symbol, Entry>

  function FlatBasis(kind: CostBasisMethod): BasisState {
    if kind.AVERAGE? then Blended(FLAT) else Queued(EMPTY_QUEUE)
  }

  function BasisStep(b: BasisState, f: Fill): BasisState {
    if b.Blended? then Blended(AvgStep(b.basis, f.SignedQty(), f.price))
    else Queued(FifoStep(b.fifo, f.SignedQty(), f.price))
  }

  // A fee that is not positive is replaced by the schedule's.
  function ChargedFee(schedule: FeeSchedule, f: Fill): real {
    if f.fee > 0.0 then f.fee else schedule.Compute(f.qty, f.price)
  }

  function EntryOf(c: Config, entries: Entries, s: Symbol): Entry {
    if s in entries then entries[s] else Entry(FlatBasis(c.basis), 0.0, 0.0)
  }

  function EntryStep(c: Config, e: Entry, f: Fill): Entry {
    var fee := ChargedFee(c.fees, f);
    Entry(BasisStep(e.basis, f), e.fees + fee, e.adjust + fee)
  }

  function PnlStep(c: Config, entries: Entries, f: Fill): Entries {
    entries[f.symbol := EntryStep(c, EntryOf(c, entries, f.symbol), f)]
  }

  // ----- What the entries must say about a ledger -----

  function ChargesOf(c: Config, s: Symbol): Fill -> real {
    (f: Fill) => if f.symbol == s then ChargedFee(c.fees, f) else 0.0
  }

  function BasisRun(kind: CostBasisMethod, fs: seq<Fill>, s: Symbol): BasisState {
    if kind.AVERAGE? then Blended(AvgRun(fs, s)) else Queued(FifoRun(fs, s))
  }

  function EntryRun(c: Config, fs: seq<Fill>, s: Symbol): Entry {
    Entry(BasisRun(c.basis, fs, s), Sum(fs, ChargesOf(c, s)), Sum(fs, ChargesOf(c, s)))
  }

  ghost predicate Books(c: Config, entries: Entries, fs: seq<Fill>) {
    && entries.Keys == Symbols(fs)
    && forall s: Symbol :: EntryOf(c, entries, s) == EntryRun(c, fs, s)
  }

  lemma EntryRunOneMore(c: Config, fs: seq<Fill>, f: Fill, s: Symbol)
    ensures EntryRun(c, fs + [f], s)
         == if f.symbol == s then EntryStep(c, EntryRun(c, fs, s), f) else EntryRun(c, fs, s)
  {
    RunOneMore(fs, f, s);
    SumOneMore(fs, f, ChargesOf(c, s));
  }

  lemma PnlStepBooks(c: Config, entries: Entries, fs: seq<Fill>, f: Fill)
    requires Books(c, entries, fs)
    ensures Books(c, PnlStep(c, entries, f), fs + [f])
  {
    forall s: Symbol ensures EntryOf(c, PnlStep(c, entries, f), s) == EntryRun(c, fs + [f], s) {
      EntryRunOneMore(c, fs, f, s);
    }
    assert Symbols(fs + [f]) == Symbols(fs) + {f.symbol};
  }

  // ----- What a fill is charged -----

  // A fill with a fee adds that fee to its symbol's fees and deductions, one without adds the
  // schedule's, which is within its bounds; and no other symbol is charged.
  lemma FillIsCharged(c: Config, entries: Entries, f: Fill, s: Symbol)
    ensures var e, r := EntryOf(c, entries, s), EntryOf(c, PnlStep(c, entries, f), s);
            var full := c.fees.perOrder + c.fees.perShare * f.qty + f.qty * f.price * c.fees.bps / 10000.0;
            && r.fees - e.fees == r.adjust - e.adjust
            && (s != f.symbol ==> r == e)
            && (s == f.symbol && f.fee > 0.0 ==> r.fees == e.fees + f.fee)
            && (s == f.symbol && f.fee <= 0.0 ==>
                  && r.fees <= e.fees + c.fees.maximum
                  && (c.fees.minimum <= c.fees.maximum ==> e.fees + c.fees.minimum <= r.fees)
                  && (c.fees.minimum <= full <= c.fees.maximum ==> r.fees == e.fees + full))
  {
    hide BasisStep, FeeSchedule.Compute;
    FeeIsClamped(c.fees, f.qty, f.price);
  }

  function PaidIn(s: Symbol): Fill -> real {
    (f: Fill) => if f.symbol == s && f.fee > 0.0 then f.fee else 0.0
  }

  function Unpaid(s: Symbol): Fill -> real {
    (f: Fill) => if f.symbol == s && f.fee <= 0.0 then 1.0 else 0.0
  }

  // Over every ledger a symbol is charged the fees its fills carry and, for each fill that
  // carries none, something between the schedule's bounds.
  lemma {:induction false} ChargesAreBounded(c: Config, fs: seq<Fill>, s: Symbol)
    requires c.fees.minimum <= c.fees.maximum
    ensures var e := EntryRun(c, fs, s);
            && e.fees == e.adjust
            && Worth(c.fees.minimum, Sum(fs, Unpaid(s))) <= e.fees - Sum(fs, PaidIn(s))
                 <= Worth(c.fees.maximum, Sum(fs, Unpaid(s)))
  {
    hide Worth, BasisRun, FeeSchedule.Compute;
    if fs == [] {
      WorthOfZero(c.fees.minimum);
      WorthOfZero(c.fees.maximum);
    } else {
      var before, f := fs[..|fs| - 1], fs[|fs| - 1];
      ChargesAreBounded(c, before, s);
      FeeIsClamped(c.fees, f.qty, f.price);
      WorthAdds(c.fees.minimum, Sum(before, Unpaid(s)), 1.0);
      WorthAdds(c.fees.maximum, Sum(before, Unpaid(s)), 1.0);
      WorthOfOne(c.fees.minimum);
      WorthOfOne(c.fees.maximum);
    }
  }

  lemma WorthOfOne(p: real)
    ensures Worth(p, 1.0) == p
  {
  }

  // ----- The report -----

  datatype PnlLine = PnlLine(symbol: Symbol, qty: real, avgCost: real, mark: real, realized: real, unrealized: real,
                             fees: real)

  // Without a mark the average cost stands in, which zeroes unrealized P&L.
  function ResolveMark(marks: map<Symbol, real>, s: Symbol, avgCost: real): real {
    if s in marks then marks[s] else avgCost
  }

  function LineOf(marks: map<Symbol, real>, s: Symbol, e: Entry): PnlLine {
    var mark := ResolveMark(marks, s, e.basis.AvgCost());
    PnlLine(s, e.basis.Qty(), e.basis.AvgCost(), mark, e.basis.Realized() - e.adjust,
            Worth(mark - e.basis.AvgCost(), e.basis.Qty()), e.fees)
  }

  function RealizedTotal(lines: seq<PnlLine>): real {
    if lines == [] then 0.0 else RealizedTotal(lines[..|lines| - 1]) + lines[|lines| - 1].realized
  }

  function UnrealizedTotal(lines: seq<PnlLine>): real {
    if lines == [] then 0.0 else UnrealizedTotal(lines[..|lines| - 1]) + lines[|lines| - 1].unrealized
  }

  function LineSymbols(lines: seq<PnlLine>): set<Symbol> {
    set l | l in lines :: l.symbol
  }

  // One line for every entry among the keys, in some order.
  ghost predicate ReportsOn(lines: seq<PnlLine>, marks: map<Symbol, real>, entries: Entries, keys: set<Symbol>) {
    && keys <= entries.Keys
    && LineSymbols(lines) == keys
    && (forall i :: 0 <= i < |lines| ==>
          lines[i].symbol in keys && lines[i] == LineOf(marks, lines[i].symbol, entries[lines[i].symbol]))
    && (forall i, j :: 0 <= i < j < |lines| ==> lines[i].symbol != lines[j].symbol)
  }

  ghost predicate Reports(lines: seq<PnlLine>, marks: map<Symbol, real>, entries: Entries) {
    ReportsOn(lines, marks, entries, entries.Keys)
  }

  function RealizedAt(marks: map<Symbol, real>, entries: Entries): Symbol -> real {
    (s: Symbol) => if s in entries then LineOf(marks, s, entries[s]).realized else 0.0
  }

  function UnrealizedAt(marks: map<Symbol, real>, entries: Entries): Symbol -> real {
    (s: Symbol) => if s in entries then LineOf(marks, s, entries[s]).unrealized else 0.0
  }

  // The report's totals are sums over the entries, whatever the order of the lines.
  lemma {:induction false} TotalsAreSums(lines: seq<PnlLine>, marks: map<Symbol, real>, entries: Entries,
                                         keys: set<Symbol>)
    requires ReportsOn(lines, marks, entries, keys)
    ensures RealizedTotal(lines) == Over(keys, RealizedAt(marks, entries))
    ensures UnrealizedTotal(lines) == Over(keys, UnrealizedAt(marks, entries))
  {
    if lines == [] {
      assert keys == {};
    } else {
      var before, last := lines[..|lines| - 1], lines[|lines| - 1];
      var rest := keys - {last.symbol};
      assert last in lines;
      assert LineSymbols(before) == rest by {
        forall s | s in rest ensures s in LineSymbols(before) {
          var l :| l in lines && l.symbol == s;
          assert l in before;
        }
      }
      TotalsAreSums(before, marks, entries, rest);
      OverPick(keys, RealizedAt(marks, entries), last.symbol);
      OverPick(keys, UnrealizedAt(marks, entries), last.symbol);
    }
  }

  // ----- The engine object -----

  // The cost-basis objects live in one dictionary and nowhere else, so they are held as the
  // values AverageCostBasis.Apply and FifoCostBasis.Apply were proved to compute.
  class PnlEngine {
    const config: Config
    var marks: map<Symbol, real>
    var basis: map<Symbol, BasisState>
    var fees: map<Symbol, real>
    var adjust: map<Symbol, real>

    ghost var entries: Entries   // what the three dictionaries hold together

    ghost predicate Valid()
      reads this
    {
      && basis.Keys == fees.Keys == adjust.Keys == entries.Keys
      && forall s :: s in basis ==> entries[s] == Entry(basis[s], fees[s], adjust[s])
    }

    constructor (config: Config)
      ensures Valid() && entries == map[] && marks == map[] && this.config == config
    {
      this.config := config;
      marks, basis, fees, adjust := map[], map[], map[], map[];
      entries := map[];
    }

    method For(s: Symbol) returns (cb: BasisState)
      requires Valid()
      modifies this`basis, this`fees, this`adjust, this`entries
      ensures Valid() && entries == old(entries)[s := EntryOf(config, old(entries), s)]
      ensures s in basis && cb == basis[s]
    {
      if s !in basis {
        basis := basis[s := FlatBasis(config.basis)];
        fees := fees[s := 0.0];
        adjust := adjust[s := 0.0];
        entries := entries[s := Entry(basis[s], 0.0, 0.0)];
      }
      cb := basis[s];
    }

    method Apply(fill: Fill)
      requires Valid()
      modifies this`basis, this`fees, this`adjust, this`entries
      ensures Valid() && entries == PnlStep(config, old(entries), fill)
    {
      hide BasisStep, FeeSchedule.Compute, FlatBasis;
      var s := fill.symbol;
      var cb := For(s);
      var fee := if fill.fee > 0.0 then fill.fee else config.fees.Compute(fill.qty, fill.price);
      Post(s, BasisStep(cb, fill), fee);
    }

    method Post(s: Symbol, after: BasisState, fee: real)
      requires Valid() && s in basis
      modifies this`basis, this`fees, this`adjust, this`entries
      ensures Valid()
      ensures entries == old(entries)[s := Entry(after, old(entries)[s].fees + fee, old(entries)[s].adjust + fee)]
    {
      fees := fees[s := fees[s] + fee];
      basis := basis[s := after];
      adjust := adjust[s := adjust[s] + fee];
      entries := entries[s := Entry(basis[s], fees[s], adjust[s])];
    }

    method Report() returns (lines: seq<PnlLine>)
      requires Valid()
      ensures Reports(lines, marks, entries)
    {
      hide LineOf, ReportsOn;
      lines := [];
      var todo := basis.Keys;
      ghost var done: set<Symbol> := {};
      NothingReported(marks, entries);
      while todo != {}
        invariant done + todo == basis.Keys && done !! todo
        invariant ReportsOn(lines, marks, entries, done)
        decreases |todo|
      {
        var s :| s in todo;
        var line := Line(s);
        ReportOneMore(lines, marks, entries, done, s);
        lines := lines + [line];
        todo, done := todo - {s}, done + {s};
      }
      assert done == basis.Keys;
    }

    method Line(s: Symbol) returns (line: PnlLine)
      requires Valid() && s in basis
      ensures line == LineOf(marks, s, entries[s])
    {
      hide Worth;
      var cb := basis[s];
      var mark := ResolveMark(marks, s, cb.AvgCost());
      var unrealized := Worth(mark - cb.AvgCost(), cb.Qty());
      line := PnlLine(s, cb.Qty(), cb.AvgCost(), mark, cb.Realized() - adjust[s], unrealized, fees[s]);
    }
  }

  lemma NothingReported(marks: map<Symbol, real>, entries: Entries)
    ensures ReportsOn([], marks, entries, {})
  {
  }

  lemma ReportOneMore(lines: seq<PnlLine>, marks: map<Symbol, real>, entries: Entries, keys: set<Symbol>, s: Symbol)
    requires ReportsOn(lines, marks, entries, keys) && s in entries && s !in keys
    ensures ReportsOn(lines + [LineOf(marks, s, entries[s])], marks, entries, keys + {s})
  {
    hide LineOf;
    LineIsFor(marks, s, entries[s]);
    var line := LineOf(marks, s, entries[s]);
    assert forall l :: l in lines + [line] <==> l in lines || l == line;
  }

  lemma LineIsFor(marks: map<Symbol, real>, s: Symbol, e: Entry)
    ensures LineOf(marks, s, e).symbol == s
  {
  }

  // ----- What a line says -----

  // The line of a symbol over the ledger its entry books: its quantity is the net of the
  // fills; its realized P&L is after all charges; with a mark, realized and unrealized make
  // up the distance of every fill to that mark, less the charges; without one, the average
  // stands in and nothing is unrealized.
  lemma LineTells(c: Config, marks: map<Symbol, real>, entries: Entries, fs: seq<Fill>, s: Symbol)
    requires Books(c, entries, fs) && s in entries
    ensures var l := LineOf(marks, s, entries[s]);
            && l.symbol == s && l.qty == Net(fs, s) && l.fees == Sum(fs, ChargesOf(c, s))
            && (c.basis.AVERAGE? ==> l.avgCost == AvgRun(fs, s).avg && l.realized == AvgRun(fs, s).realized - l.fees)
            && (c.basis.FIFO? ==>
                  && Worth(l.avgCost, Abs(l.qty)) == LotCost(FifoRun(fs, s).lots)
                  && l.realized == FifoRun(fs, s).realized - l.fees)
            && (s in marks ==>
                  && l.mark == marks[s] && l.unrealized == Worth(marks[s] - l.avgCost, Net(fs, s))
                  && l.realized + l.unrealized == Sum(fs, GainAt(s, marks[s])) - l.fees)
            && (s !in marks ==> l.mark == l.avgCost && l.unrealized == 0.0)
  {
    hide Worth, AvgRun, FifoRun, Net, Fifo.AvgCost, Fifo.Valid, Sum;
    var e := EntryRun(c, fs, s);
    assert entries[s] == EntryOf(c, entries, s) == e;
    var mark := if s in marks then marks[s] else e.basis.AvgCost();
    AvgIdentity(fs, s, mark);
    FifoIdentity(fs, s, mark);
    WorthOfZero(0.0);
    WorthOfZero(Net(fs, s));
    if c.basis.FIFO? {
      QueueCost(FifoRun(fs, s));
    }
  }

  lemma QueueCost(q: Fifo)
    requires q.Valid()
    ensures Worth(q.AvgCost(), Abs(q.qty)) == LotCost(q.lots)
  {
    LotSumPositive(q.lots);
    if q.lots != [] {
      assert q.AvgCost() * LotSum(q.lots) == LotCost(q.lots);
    }
  }
}
