// What the reconciler reports on a drained system: nothing but the fee schedule's excess,
// or exactly an injected drift.

module Reconciliation {
  import opened Models
  import opened Money
  import opened Sums
  import opened CostBasis
  import opened Ledger
  import opened Positions
  import opened Settings
  import opened Pnl
  import opened EngineSpec
  import opened EngineObject
  import opened Views
  import BrokerBook
  import opened MockBroker
  import opened ClosedSystem
  import opened EndToEnd
  import opened R = Reconcile

  // ----- The engine's side of a comparison -----

  lemma {:induction false} IndexEngineIs(rows: seq<EngineRow>, book: Book)
    requires forall i :: 0 <= i < |rows| ==> rows[i] == RowAt(book, rows[i].symbol)
    ensures IndexEngine(rows).Keys == (set r | r in rows :: r.symbol)
    ensures forall s :: s in IndexEngine(rows) ==> IndexEngine(rows)[s] == RowAt(book, s)
  {
    if rows != [] {
      IndexEngineIs(rows[..|rows| - 1], book);
      assert rows == rows[..|rows| - 1] + [rows[|rows| - 1]];
    }
  }

  lemma {:induction false} IndexBrokerIs(rows: seq<BrokerRow>, c: MockConfig, b: Broker)
    requires forall i :: 0 <= i < |rows| ==> rows[i] == RowFor(c, b, rows[i].symbol)
    ensures IndexBroker(rows).Keys == (set r | r in rows :: r.symbol)
    ensures forall s :: s in IndexBroker(rows) ==> IndexBroker(rows)[s] == RowFor(c, b, s)
  {
    hide RowFor;
    if rows != [] {
      IndexBrokerIs(rows[..|rows| - 1], c, b);
      assert rows == rows[..|rows| - 1] + [rows[|rows| - 1]];
    }
  }

  lemma {:induction false} IndexUnrealizedIs(lines: seq<PnlLine>, marks: map<Symbol, real>, entries: Entries)
    requires forall i :: 0 <= i < |lines| ==>
      lines[i].symbol in entries && lines[i] == LineOf(marks, lines[i].symbol, entries[lines[i].symbol])
    ensures IndexUnrealized(lines).Keys == LineSymbols(lines)
    ensures forall s :: s in IndexUnrealized(lines) ==>
      s in entries && IndexUnrealized(lines)[s] == LineOf(marks, s, entries[s]).unrealized
  {
    hide LineOf;
    if lines != [] {
      IndexUnrealizedIs(lines[..|lines| - 1], marks, entries);
      assert lines == lines[..|lines| - 1] + [lines[|lines| - 1]];
    }
  }

  // What the reconciler is given for a state of the system.
  ghost predicate Compares(p: Setup, x: Sys, rows: seq<EngineRow>, lines: seq<PnlLine>, snap: Snapshot,
                           order: seq<Symbol>) {
    && PositionRows(rows, x.eng.book)
    && Reports(lines, x.eng.marks, x.eng.entries)
    && IsSnapshot(snap, p.mock, x.brk)
    && Lists(order, InputsOf(rows, lines, snap).engine.Keys + InputsOf(rows, lines, snap).broker.Keys)
  }

  // Both sides mark every traded symbol at the same price.
  ghost predicate SameMarks(x: Sys) {
    forall s :: s in Symbols(x.emitted) ==> s in x.eng.marks && x.eng.marks[s] == PriceFor(x.brk, s)
  }

  // ----- Fees: what the engine charges beyond what was filled with -----

  function Charged(c: Config): Fill -> real {
    (f: Fill) => ChargedFee(c.fees, f)
  }

  function Excess(c: Config): Fill -> real {
    (f: Fill) => ChargedFee(c.fees, f) - f.fee
  }

  // The schedule fees put in place of fees that are not positive, less those fees.
  function FeeExcess(c: Config, fs: seq<Fill>): real {
    Sum(fs, Excess(c))
  }

  lemma {:induction false} ExcessIsDifference(c: Config, fs: seq<Fill>)
    ensures FeeExcess(c, fs) == Sum(fs, Charged(c)) - Sum(fs, Fee())
  {
    hide ChargedFee;
    if fs != [] {
      ExcessIsDifference(c, fs[..|fs| - 1]);
    }
  }

  lemma {:induction false} NoExcess(c: Config, fs: seq<Fill>)
    requires forall f :: f in fs ==> f.fee > 0.0
    ensures FeeExcess(c, fs) == 0.0
  {
    if fs != [] {
      NoExcess(c, fs[..|fs| - 1]);
    }
  }

  function ChargedIn(c: Config, fs: seq<Fill>): Symbol -> real {
    (s: Symbol) => Sum(fs, ChargesOf(c, s))
  }

  // Charges summed symbol by symbol are the charges of the ledger.
  lemma {:induction false} ChargesBySymbol(c: Config, fs: seq<Fill>, keys: set<Symbol>)
    requires Symbols(fs) <= keys
    ensures Over(keys, ChargedIn(c, fs)) == Sum(fs, Charged(c))
  {
    hide ChargedFee;
    if fs == [] {
      OverIgnoresZeros({}, keys, ChargedIn(c, fs));
    } else {
      var before, f := fs[..|fs| - 1], fs[|fs| - 1];
      assert f in fs && forall g :: g in before ==> g in fs;
      ChargesBySymbol(c, before, keys);
      OverChanged(keys, ChargedIn(c, before), ChargedIn(c, fs), f.symbol);
    }
  }

  // ----- The broker's side -----

  function ValueAt(x: Sys): Symbol -> real {
    (s: Symbol) => Worth(PriceFor(x.brk, s) - AvgRun(x.emitted, s).avg, AvgRun(x.emitted, s).qty)
  }

  // What the broker shows of a symbol, drift applied: nothing if it then looks flat.
  predicate Hidden(p: Setup, x: Sys, s: Symbol) {
    s !in Symbols(x.emitted) || AvgRun(x.emitted, s).qty + DriftQty(p.mock, s) == 0.0
  }

  function ShownQty(p: Setup, x: Sys, s: Symbol): real {
    if Hidden(p, x, s) then 0.0 else AvgRun(x.emitted, s).qty + DriftQty(p.mock, s)
  }

  function ShownAvg(p: Setup, x: Sys, s: Symbol): real {
    if Hidden(p, x, s) then 0.0 else AvgRun(x.emitted, s).avg + DriftAvg(p.mock, s)
  }

  function ShownValue(p: Setup, x: Sys): Symbol -> real {
    (s: Symbol) =>
      if Hidden(p, x, s) then 0.0
      else Worth(PriceFor(x.brk, s) - (AvgRun(x.emitted, s).avg + DriftAvg(p.mock, s)),
                 AvgRun(x.emitted, s).qty + DriftQty(p.mock, s))
  }

  function RealizedDelta(c: MockConfig): real {
    if c.drift.Some? then c.drift.value.realizedDelta else 0.0
  }

  function UnrealizedDelta(c: MockConfig): real {
    if c.drift.Some? then c.drift.value.unrealizedDelta else 0.0
  }

  lemma BrokerRowIs(p: Setup, x: Sys, s: Symbol)
    requires BrokerBook.SameOpen(BrokerBook.At(x.brk.account, s), AvgRun(x.emitted, s))
    requires x.brk.account.positions.Keys == Symbols(x.emitted)
    ensures s in Reported(p.mock, x.brk) <==> !Hidden(p, x, s)
    ensures var row := RowFor(p.mock, x.brk, s);
            !Hidden(p, x, s) ==>
              row.qty == ShownQty(p, x, s) && row.avgCost == ShownAvg(p, x, s) && row.unrealized == ShownValue(p, x)(s)
  {
    hide Worth, AvgRun;
  }

  lemma BrokerTotals(p: Setup, x: Sys)
    requires SysInv(p, x) && BrokerBook.BrokerAgrees(x.emitted)
    ensures var keys := Symbols(x.emitted);
            && x.brk.account.realized == Over(keys, BrokerBook.RealizedIn(x.emitted))
            && x.brk.account.fees == Sum(x.emitted, Fee())
            && Over(Reported(p.mock, x.brk), UnrealizedFor(p.mock, x.brk)) == Over(keys, ShownValue(p, x))
  {
    hide Worth, Sum, Agrees, Linked, AvgRun, RowFor, Over, BrokerBook.AccountRun;
    var keys := Symbols(x.emitted);
    BrokerBook.BrokerQuantity(x.emitted, "");
    forall s ensures s in Reported(p.mock, x.brk) <==> !Hidden(p, x, s)
             ensures !Hidden(p, x, s) ==> UnrealizedFor(p.mock, x.brk)(s) == ShownValue(p, x)(s)
    {
      BrokerRowIs(p, x, s);
    }
    OverSame(Reported(p.mock, x.brk), UnrealizedFor(p.mock, x.brk), ShownValue(p, x));
    OverIgnoresZeros(Reported(p.mock, x.brk), keys, ShownValue(p, x));
  }

  // ----- The engine's totals -----

  lemma LedgerFacts(p: Setup, x: Sys)
    requires Drained(p, x)
    ensures x.eng.disk.fills == x.emitted
    ensures Replays(x.eng.book, x.emitted) && Books(p.config, x.eng.entries, x.emitted)
  {
    hide Linked, Streams;
    DrainedLedger(p, x);
  }

  lemma EngineRealizedTotal(p: Setup, x: Sys, lines: seq<PnlLine>)
    requires Drained(p, x) && Reports(lines, x.eng.marks, x.eng.entries) && p.config.basis.AVERAGE?
    ensures RealizedTotal(lines)
         == Over(Symbols(x.emitted), BrokerBook.RealizedIn(x.emitted)) - Sum(x.emitted, Charged(p.config))
  {
    hide Worth, Sum, Agrees, Linked, Streams, AvgRun, Over, ReportsOn;
    var keys := Symbols(x.emitted);
    LedgerFacts(p, x);
    TotalsAreSums(lines, x.eng.marks, x.eng.entries, keys);
    ChargesBySymbol(p.config, x.emitted, keys);
    forall s | s in keys
      ensures RealizedAt(x.eng.marks, x.eng.entries)(s)
           == BrokerBook.RealizedIn(x.emitted)(s) - ChargedIn(p.config, x.emitted)(s)
    {
      assert EntryOf(p.config, x.eng.entries, s) == EntryRun(p.config, x.emitted, s);
    }
    OverMinus(keys, BrokerBook.RealizedIn(x.emitted), ChargedIn(p.config, x.emitted),
              RealizedAt(x.eng.marks, x.eng.entries));
  }

  lemma EngineUnrealizedTotal(p: Setup, x: Sys, lines: seq<PnlLine>)
    requires Drained(p, x) && Reports(lines, x.eng.marks, x.eng.entries) && p.config.basis.AVERAGE? && SameMarks(x)
    ensures UnrealizedTotal(lines) == Over(Symbols(x.emitted), ValueAt(x))
    ensures forall s :: s in x.eng.entries ==> LineOf(x.eng.marks, s, x.eng.entries[s]).unrealized == ValueAt(x)(s)
  {
    hide Worth, Sum, Agrees, Linked, Streams, AvgRun, Over, ReportsOn;
    var keys := Symbols(x.emitted);
    LedgerFacts(p, x);
    TotalsAreSums(lines, x.eng.marks, x.eng.entries, keys);
    forall s | s in keys ensures LineOf(x.eng.marks, s, x.eng.entries[s]).unrealized == ValueAt(x)(s) {
      assert EntryOf(p.config, x.eng.entries, s) == EntryRun(p.config, x.emitted, s);
    }
    OverSame(keys, UnrealizedAt(x.eng.marks, x.eng.entries), ValueAt(x));
  }

  // ----- The figures that are compared -----

  // A drained system under AVERAGE in which no fill flipped the broker's book, both sides
  // marking alike.
  ghost predicate Matched(p: Setup, x: Sys) {
    && Drained(p, x) && p.config.basis.AVERAGE? && BrokerBook.NeverFlips(x.emitted)
    && SameMarks(x)
  }

  lemma FiguresAt(p: Setup, x: Sys, rows: seq<EngineRow>, lines: seq<PnlLine>, snap: Snapshot, order: seq<Symbol>,
                  s: Symbol)
    requires Matched(p, x) && Compares(p, x, rows, lines, snap, order)
    ensures var b := AvgRun(x.emitted, s);
            CompareAt(InputsOf(rows, lines, snap), s)
              == Compared(b.qty, ShownQty(p, x, s), b.avg, ShownAvg(p, x, s),
                          if s in Symbols(x.emitted) then ValueAt(x)(s) else 0.0, ShownValue(p, x)(s))
  {
    hide Worth, Sum, Agrees, Linked, Streams, AvgRun, Over, RowFor, BrokerBook.AccountRun;
    EngineFigures(p, x, rows, lines, snap, order, s);
    BrokerFigures(p, x, rows, lines, snap, order, s);
  }

  lemma EngineFigures(p: Setup, x: Sys, rows: seq<EngineRow>, lines: seq<PnlLine>, snap: Snapshot, order: seq<Symbol>,
                      s: Symbol)
    requires Matched(p, x) && Compares(p, x, rows, lines, snap, order)
    ensures var v, b := CompareAt(InputsOf(rows, lines, snap), s), AvgRun(x.emitted, s);
            && v.engineQty == b.qty && v.engineAvg == b.avg
            && v.engineUnreal == if s in Symbols(x.emitted) then ValueAt(x)(s) else 0.0
  {
    hide Worth, AvgRun, LineOf, IndexBroker, IndexEngine, IndexUnrealized, Compares, Matched;
    hide RealizedTotal, UnrealizedTotal, ValueAt, Books, Replays;
    ListedPositions(p, x, rows, lines, snap, order);
    ListedLines(p, x, rows, lines, snap, order);
    MatchedEngine(p, x, lines, s);
    if s !in Symbols(x.emitted) {
      UntradedIsFlat(x.emitted, s);
    }
  }

  lemma MatchedEngine(p: Setup, x: Sys, lines: seq<PnlLine>, s: Symbol)
    requires Matched(p, x) && Reports(lines, x.eng.marks, x.eng.entries)
    ensures Positions.Lookup(x.eng.book, s).basis == AvgRun(x.emitted, s)
    ensures x.eng.entries.Keys == Symbols(x.emitted)
    ensures s in x.eng.entries ==> LineOf(x.eng.marks, s, x.eng.entries[s]).unrealized == ValueAt(x)(s)
  {
    hide Worth, Sum, Agrees, Linked, Streams, AvgRun, Over, LineOf, ReportsOn;
    LedgerFacts(p, x);
    EngineUnrealizedTotal(p, x, lines);
    assert Positions.Lookup(x.eng.book, s) == PosRun(x.emitted, s);
  }

  lemma ListedPositions(p: Setup, x: Sys, rows: seq<EngineRow>, lines: seq<PnlLine>, snap: Snapshot, order: seq<Symbol>)
    requires Compares(p, x, rows, lines, snap, order)
    ensures IndexEngine(rows).Keys == x.eng.book.Keys
    ensures forall s :: s in IndexEngine(rows) ==> IndexEngine(rows)[s] == RowAt(x.eng.book, s)
  {
    hide IndexEngine, Reports, IsSnapshot, RowAt;
    IndexEngineIs(rows, x.eng.book);
  }

  lemma ListedLines(p: Setup, x: Sys, rows: seq<EngineRow>, lines: seq<PnlLine>, snap: Snapshot, order: seq<Symbol>)
    requires Compares(p, x, rows, lines, snap, order)
    ensures Reports(lines, x.eng.marks, x.eng.entries)
    ensures IndexUnrealized(lines).Keys == x.eng.entries.Keys
    ensures forall s :: s in IndexUnrealized(lines) ==>
      IndexUnrealized(lines)[s] == LineOf(x.eng.marks, s, x.eng.entries[s]).unrealized
  {
    hide IndexUnrealized, PositionRows, IsSnapshot, LineOf;
    IndexUnrealizedIs(lines, x.eng.marks, x.eng.entries);
  }

  lemma BrokerFigures(p: Setup, x: Sys, rows: seq<EngineRow>, lines: seq<PnlLine>, snap: Snapshot, order: seq<Symbol>,
                      s: Symbol)
    requires Matched(p, x) && Compares(p, x, rows, lines, snap, order)
    ensures var v := CompareAt(InputsOf(rows, lines, snap), s);
            v.brokerQty == ShownQty(p, x, s) && v.brokerAvg == ShownAvg(p, x, s)
              && v.brokerUnreal == ShownValue(p, x)(s)
  {
    hide Worth, AvgRun, RowFor, IndexEngine, IndexUnrealized, IndexBroker, Compares, Matched;
    hide Reported, RealizedTotal, UnrealizedTotal;
    MatchedBroker(p, x, s);
    SnapshotIndex(p, x, rows, lines, snap, order);
    BrokerRowIs(p, x, s);
  }

  lemma MatchedBroker(p: Setup, x: Sys, s: Symbol)
    requires Matched(p, x)
    ensures BrokerBook.SameOpen(BrokerBook.At(x.brk.account, s), AvgRun(x.emitted, s))
    ensures x.brk.account.positions.Keys == Symbols(x.emitted)
  {
    hide Worth, Sum, Agrees, Linked, AvgRun, BrokerBook.AccountRun, BrokerBook.At;
    BrokerBook.NeverFlipsAgrees(x.emitted);
    BrokerBook.BrokerQuantity(x.emitted, s);
  }

  lemma SnapshotIndex(p: Setup, x: Sys, rows: seq<EngineRow>, lines: seq<PnlLine>, snap: Snapshot, order: seq<Symbol>)
    requires Compares(p, x, rows, lines, snap, order)
    ensures IndexBroker(snap.rows).Keys == Reported(p.mock, x.brk)
    ensures forall s :: s in IndexBroker(snap.rows) ==> IndexBroker(snap.rows)[s] == RowFor(p.mock, x.brk, s)
  {
    hide RowFor, Reported, PositionRows, Reports, IndexBroker;
    IndexBrokerIs(snap.rows, p.mock, x.brk);
  }

  lemma AccountFigures(p: Setup, x: Sys, rows: seq<EngineRow>, lines: seq<PnlLine>, snap: Snapshot, order: seq<Symbol>)
    requires Matched(p, x) && Compares(p, x, rows, lines, snap, order)
    ensures var v := InputsOf(rows, lines, snap);
            && v.engineRealized - v.brokerRealized == -FeeExcess(p.config, x.emitted) - RealizedDelta(p.mock)
            && v.engineUnrealized - v.brokerUnrealized
                 == Over(Symbols(x.emitted), ValueAt(x)) - Over(Symbols(x.emitted), ShownValue(p, x))
                      - UnrealizedDelta(p.mock)
  {
    hide Worth, Sum, Agrees, Linked, Streams, AvgRun, Over, RowFor, BrokerBook.AccountRun, Reported, ReportsOn, RowsFor;
    BrokerBook.NeverFlipsAgrees(x.emitted);
    BrokerTotals(p, x);
    EngineRealizedTotal(p, x, lines);
    EngineUnrealizedTotal(p, x, lines);
    ExcessIsDifference(p.config, x.emitted);
  }

  // A symbol without drift shows what the engine has.
  lemma Undrifted(p: Setup, x: Sys, s: Symbol)
    requires p.mock.drift.None? || p.mock.drift.value.symbol != s
    ensures var b := AvgRun(x.emitted, s);
            ShownQty(p, x, s) == b.qty && ShownAvg(p, x, s) == b.avg
            && ShownValue(p, x)(s) == if s in Symbols(x.emitted) then ValueAt(x)(s) else 0.0
  {
    hide Worth, AvgRun;
    FlatHasNoBasis(x.emitted, s);
    WorthOfZero(PriceFor(x.brk, s) - AvgRun(x.emitted, s).avg);
    if s !in Symbols(x.emitted) {
      UntradedIsFlat(x.emitted, s);
    }
  }

  // ----- Clean -----

  lemma {:induction false} NoSymbolRows(v: Inputs, order: seq<Symbol>, t: Tolerances)
    requires forall s: Symbol :: s in order ==> BreaksAt(s, CompareAt(v, s), t) == []
    ensures SymbolRows(v, order, t) == []
  {
    if order != [] {
      NoSymbolRows(v, order[..|order| - 1], t);
      assert order[|order| - 1] in order;
    }
  }

  ghost predicate Sensible(t: Tolerances) {
    t.qty >= 0.0 && t.price >= 0.0 && t.pnl >= 0.0
  }

  // ----- The quantity leg, in any reachable state -----

  lemma QuantitiesAt(p: Setup, x: Sys, rows: seq<EngineRow>, lines: seq<PnlLine>, snap: Snapshot, order: seq<Symbol>,
                     s: Symbol)
    requires Compares(p, x, rows, lines, snap, order) && p.mock.drift.None?
    ensures var v := InputsOf(rows, lines, snap);
            && CompareAt(v, s).engineQty == Held(x.eng, s)
            && CompareAt(v, s).brokerQty == BrokerBook.At(x.brk.account, s).qty
            && (CompareAt(v, s).engineQty != CompareAt(v, s).brokerQty ==> s in v.engine || s in v.broker)
  {
    hide Worth, IndexEngine, IndexBroker, IndexUnrealized, RealizedTotal, UnrealizedTotal, Compares;
    ListedPositions(p, x, rows, lines, snap, order);
    SnapshotIndex(p, x, rows, lines, snap, order);
  }

  // With zero quantity tolerance a quantity break of a symbol is reported exactly when the
  // net of its fills queued or dropped is not zero, at any point of any run; and then every
  // row of that symbol says a fill is missing.
  lemma QtyBreakReportedExactly(p: Setup, x: Sys, rows: seq<EngineRow>, lines: seq<PnlLine>, snap: Snapshot,
                                order: seq<Symbol>, s: Symbol)
    requires SysInv(p, x) && Compares(p, x, rows, lines, snap, order)
    requires p.mock.drift.None? && p.config.tolerances.qty == 0.0
    ensures var r := Reconciled(InputsOf(rows, lines, snap), order, p.config.tolerances);
            var missing := Net(x.brk.queue, s) + Net(Dropped(x), s) != 0.0;
            && (Shows(r, s, QtyLeg) <==> missing)
            && (missing <==> exists b :: b in r.breaks && b.place == At(s) && b.cause == MissingFill)
            && (missing ==> forall b :: b in r.breaks && b.place == At(s) ==> b.cause == MissingFill)
  {
    hide SysInv, Compares, InputsOf, Reconciled, CompareAt, Shows, Held, BrokerBook.At, Sum, Dropped;
    var v, t := InputsOf(rows, lines, snap), p.config.tolerances;
    var r := Reconciled(v, order, t);
    SysKept(p, x);
    GapIsInFlight(p, x, s);
    QuantitiesAt(p, x, rows, lines, snap, order, s);
    ComparesLists(p, x, rows, lines, snap, order);
    ShownExactly(v, order, t, s, QtyLeg);
    forall b | b in r.breaks && b.place == At(s) ensures b.cause == MissingFill <==> Shows(r, s, QtyLeg) {
      CausesExactly(v, order, t, b);
    }
    SomeShown(r, s);
  }

  lemma SomeShown(r: Result, s: Symbol)
    ensures Shows(r, s, QtyLeg) ==> exists b :: b in r.breaks && b.place == At(s)
  {
  }

  lemma SysKept(p: Setup, x: Sys)
    requires SysInv(p, x)
    ensures |x.kept| <= |x.emitted|
  {
    hide Agrees, Linked;
  }

  // In every drained, matched state without drift, whatever orders and symbols led there, the
  // reconciler reports nothing but, at most, the account's realized row, and that exactly
  // when the fee excess is beyond tolerance.
  lemma ReconcilesExactly(p: Setup, x: Sys, rows: seq<EngineRow>, lines: seq<PnlLine>, snap: Snapshot,
                          order: seq<Symbol>)
    requires Matched(p, x) && p.mock.drift.None? && Compares(p, x, rows, lines, snap, order)
    requires Sensible(p.config.tolerances)
    ensures var v, t := InputsOf(rows, lines, snap), p.config.tolerances;
            && v.engineRealized - v.brokerRealized == -FeeExcess(p.config, x.emitted)
            && Reconciled(v, order, t).breaks ==
                 if Abs(FeeExcess(p.config, x.emitted)) > t.pnl
                 then [Break(Account, RealizedLeg, v.engineRealized, v.brokerRealized, t.pnl, FeeTreatment)] else []
  {
    hide Worth, Sum, Agrees, Linked, Streams, AvgRun, Over, InputsOf, CompareAt, Compares, Matched, FeeExcess;
    hide ShownQty, ShownAvg, ShownValue, ValueAt;
    var v, t := InputsOf(rows, lines, snap), p.config.tolerances;
    AccountFigures(p, x, rows, lines, snap, order);
    NoDriftSameValue(p, x);
    forall s: Symbol | s in order ensures BreaksAt(s, CompareAt(v, s), t) == [] {
      FiguresAt(p, x, rows, lines, snap, order, s);
      Undrifted(p, x, s);
    }
    NoSymbolRows(v, order, t);
  }

  lemma NoDriftSameValue(p: Setup, x: Sys)
    requires p.mock.drift.None?
    ensures Over(Symbols(x.emitted), ValueAt(x)) == Over(Symbols(x.emitted), ShownValue(p, x))
  {
    hide Over, AvgRun, ValueAt, ShownValue;
    forall s | s in Symbols(x.emitted) ensures ValueAt(x)(s) == ShownValue(p, x)(s) {
      Undrifted(p, x, s);
    }
    OverSame(Symbols(x.emitted), ValueAt(x), ShownValue(p, x));
  }

  // With every fee positive a matched book reconciles to nothing.
  lemma MatchedBookIsClean(p: Setup, x: Sys, rows: seq<EngineRow>, lines: seq<PnlLine>, snap: Snapshot,
                           order: seq<Symbol>)
    requires Matched(p, x) && p.mock.drift.None? && Compares(p, x, rows, lines, snap, order)
    requires Sensible(p.config.tolerances)
    requires forall f :: f in x.emitted ==> f.fee > 0.0
    ensures Reconciled(InputsOf(rows, lines, snap), order, p.config.tolerances).breaks == []
  {
    ReconcilesExactly(p, x, rows, lines, snap, order);
    NoExcess(p.config, x.emitted);
  }

  // The same over runs: start both sides empty, let confirmations wait until nothing of
  // their order is left to come, drain the stream, mark alike.
  lemma EveryDrainedRunIsClean(p: Setup, transients: nat, prices: map<Symbol, real>, evs: seq<SysEvent>,
                               rows: seq<EngineRow>, lines: seq<PnlLine>, snap: Snapshot, order: seq<Symbol>)
    requires QuietConfirms(p, Begin(transients, prices), evs)
    requires p.config.basis.AVERAGE? && p.mock.drift.None? && Sensible(p.config.tolerances)
    requires var x := SysRun(p, Begin(transients, prices), evs);
             && x.brk.queue == [] && BrokerBook.NeverFlips(x.emitted) && SameMarks(x)
             && (forall f :: f in x.emitted ==> f.fee > 0.0)
             && Compares(p, x, rows, lines, snap, order)
    ensures Reconciled(InputsOf(rows, lines, snap), order, p.config.tolerances).breaks == []
  {
    hide SysInv, SysStep, SysRun, Compares;
    BeginsWell(p, transients, prices);
    NothingIsDropped(p, Begin(transients, prices), evs);
    MatchedBookIsClean(p, SysRun(p, Begin(transients, prices), evs), rows, lines, snap, order);
  }

  // ----- Total P&L, under either method -----

  function TotalAt(x: Sys): Symbol -> real {
    (s: Symbol) => BrokerBook.RealizedIn(x.emitted)(s) + ValueAt(x)(s)
  }

  function LineTotalAt(marks: map<Symbol, real>, entries: Entries): Symbol -> real {
    (s: Symbol) => RealizedAt(marks, entries)(s) + UnrealizedAt(marks, entries)(s)
  }

  lemma {:induction false} OverPlus(keys: set<Symbol>, g: Symbol -> real, h: Symbol -> real, t: Symbol -> real)
    requires forall k :: k in keys ==> t(k) == g(k) + h(k)
    ensures Over(keys, t) == Over(keys, g) + Over(keys, h)
    decreases |keys|
  {
    if keys != {} {
      var k :| k in keys;
      OverPick(keys, g, k);
      OverPick(keys, h, k);
      OverPick(keys, t, k);
      OverPlus(keys - {k}, g, h, t);
    }
  }

  // Whatever cost-basis method the engine uses, drained and marking alike, its account total
  // is the broker's less the fee excess; the method only moves P&L between the two rows.
  lemma TotalsAgree(p: Setup, x: Sys, lines: seq<PnlLine>, snap: Snapshot)
    requires Drained(p, x) && BrokerBook.NeverFlips(x.emitted) && SameMarks(x) && p.mock.drift.None?
    requires Reports(lines, x.eng.marks, x.eng.entries) && IsSnapshot(snap, p.mock, x.brk)
    ensures RealizedTotal(lines) + UnrealizedTotal(lines) - (snap.realized + snap.unrealized)
         == -FeeExcess(p.config, x.emitted)
  {
    hide Worth, Sum, Agrees, Linked, Streams, AvgRun, FifoRun, Over, ReportsOn, RowsFor, Reported;
    hide BrokerBook.AccountRun;
    var keys := Symbols(x.emitted);
    BrokerBook.NeverFlipsAgrees(x.emitted);
    BrokerTotals(p, x);
    NoDriftSameValue(p, x);
    LedgerFacts(p, x);
    TotalsAreSums(lines, x.eng.marks, x.eng.entries, keys);
    OverPlus(keys, RealizedAt(x.eng.marks, x.eng.entries), UnrealizedAt(x.eng.marks, x.eng.entries),
             LineTotalAt(x.eng.marks, x.eng.entries));
    OverPlus(keys, BrokerBook.RealizedIn(x.emitted), ValueAt(x), TotalAt(x));
    forall s | s in keys
      ensures LineTotalAt(x.eng.marks, x.eng.entries)(s) == TotalAt(x)(s) - ChargedIn(p.config, x.emitted)(s)
    {
      LineTotal(p, x, s);
    }
    OverMinus(keys, TotalAt(x), ChargedIn(p.config, x.emitted), LineTotalAt(x.eng.marks, x.eng.entries));
    ChargesBySymbol(p.config, x.emitted, keys);
    ExcessIsDifference(p.config, x.emitted);
  }

  lemma LineTotal(p: Setup, x: Sys, s: Symbol)
    requires Books(p.config, x.eng.entries, x.emitted) && SameMarks(x) && s in Symbols(x.emitted)
    ensures LineTotalAt(x.eng.marks, x.eng.entries)(s) == TotalAt(x)(s) - ChargedIn(p.config, x.emitted)(s)
  {
    hide Worth, Sum, AvgRun, FifoRun, Fifo.AvgCost;
    var e, mark := x.eng.entries[s], PriceFor(x.brk, s);
    assert EntryOf(p.config, x.eng.entries, s) == EntryRun(p.config, x.emitted, s) == e;
    MarkedAlike(p.config, x.emitted, s, mark);
    assert RealizedAt(x.eng.marks, x.eng.entries)(s) == e.basis.Realized() - e.adjust;
    assert UnrealizedAt(x.eng.marks, x.eng.entries)(s) == Worth(mark - e.basis.AvgCost(), e.basis.Qty());
    assert LineTotalAt(x.eng.marks, x.eng.entries)(s) == BasisPnl(e.basis, mark) - e.adjust;
    assert e.basis == BasisRun(p.config.basis, x.emitted, s);
    assert BrokerBook.RealizedIn(x.emitted)(s) == AvgRun(x.emitted, s).realized;
    assert ValueAt(x)(s) == Worth(mark - AvgRun(x.emitted, s).avg, AvgRun(x.emitted, s).qty);
    assert TotalAt(x)(s) == BasisPnl(e.basis, mark);
    assert e.adjust == ChargedIn(p.config, x.emitted)(s);
  }

  function BasisPnl(b: BasisState, mark: real): real {
    b.Realized() + Worth(mark - b.AvgCost(), b.Qty())
  }

  lemma MarkedAlike(c: Config, fs: seq<Fill>, s: Symbol, mark: real)
    ensures var b := AvgRun(fs, s);
            BasisPnl(BasisRun(c.basis, fs, s), mark) == b.realized + Worth(mark - b.avg, b.qty)
  {
    hide Worth, Sum, AvgRun, FifoRun, Fifo.AvgCost;
    MethodsAgree(fs, s, mark);
  }

  // ----- Drift is located exactly -----

  // How far engine and broker are apart on a leg: on the drifted symbol by what its drift
  // shows, in the account by the fee excess, by what that symbol's value differs, and by the
  // account deltas.
  function Gap(p: Setup, x: Sys, s: Symbol, place: Place, leg: Leg): real {
    match (place, leg)
    case (At(r), QtyLeg) => if r == s then AvgRun(x.emitted, s).qty - ShownQty(p, x, s) else 0.0
    case (At(r), AvgCostLeg) => if r == s then AvgRun(x.emitted, s).avg - ShownAvg(p, x, s) else 0.0
    case (At(r), UnrealizedLeg) => if r == s then ValueGap(p, x, s) else 0.0
    case (Account, RealizedLeg) => -FeeExcess(p.config, x.emitted) - RealizedDelta(p.mock)
    case (Account, UnrealizedLeg) => ValueGap(p, x, s) - UnrealizedDelta(p.mock)
    case _ => 0.0
  }

  function ValueGap(p: Setup, x: Sys, s: Symbol): real {
    if s in Symbols(x.emitted) then ValueAt(x)(s) - ShownValue(p, x)(s) else 0.0
  }

  // On a symbol the most fundamental of its gaps names the cause; the account's rows name
  // theirs by leg.
  function GapCause(p: Setup, x: Sys, s: Symbol, place: Place, leg: Leg, t: Tolerances): Cause {
    match place
    case At(r) =>
      if Abs(Gap(p, x, s, place, QtyLeg)) > t.qty then MissingFill
      else if Abs(Gap(p, x, s, place, AvgCostLeg)) > t.price then FeeTreatment
      else if Abs(Gap(p, x, s, place, UnrealizedLeg)) > t.pnl then MarkSource
      else Unknown
    case Account => if leg.RealizedLeg? then FeeTreatment else MarkSource
  }

  // Whatever drift is injected at a symbol, quantity, average cost or account deltas, even
  // one that hides the position: a row is reported if and only if its leg's gap is beyond
  // tolerance, with that gap between its figures and that cause; so nothing about any other
  // symbol.
  lemma AnyDriftIsLocated(p: Setup, x: Sys, rows: seq<EngineRow>, lines: seq<PnlLine>, snap: Snapshot,
                          order: seq<Symbol>, b: Break)
    requires Matched(p, x) && Compares(p, x, rows, lines, snap, order) && Sensible(p.config.tolerances)
    requires p.mock.drift.Some?
    ensures var v, t, s := InputsOf(rows, lines, snap), p.config.tolerances, p.mock.drift.value.symbol;
            b in Reconciled(v, order, t).breaks <==>
              && (b.engine, b.broker) == LegOf(v, b.place, b.leg) && b.engine - b.broker == Gap(p, x, s, b.place, b.leg)
              && b.tolerance == ToleranceOf(t, b.leg) && Abs(Gap(p, x, s, b.place, b.leg)) > b.tolerance
              && b.cause == GapCause(p, x, s, b.place, b.leg, t)
  {
    hide Matched, Compares, InputsOf, Reconciled, Gap, GapCause, LegOf, CompareAt, IsCompared, CauseFor;
    var v, t, s := InputsOf(rows, lines, snap), p.config.tolerances, p.mock.drift.value.symbol;
    ComparesLists(p, x, rows, lines, snap, order);
    ReportedExactly(v, order, t, b);
    GapsAre(p, x, rows, lines, snap, order, b.place, b.leg);
    if IsCompared(v, b.place, b.leg) {
      CauseIs(p, x, rows, lines, snap, order, b.place, b.leg);
    } else {
      NoGapUncompared(p, x, rows, lines, snap, order, b.place, b.leg);
    }
  }

  lemma GapsAre(p: Setup, x: Sys, rows: seq<EngineRow>, lines: seq<PnlLine>, snap: Snapshot, order: seq<Symbol>,
                place: Place, leg: Leg)
    requires Matched(p, x) && Compares(p, x, rows, lines, snap, order) && p.mock.drift.Some?
    ensures var figures := LegOf(InputsOf(rows, lines, snap), place, leg);
            figures.0 - figures.1 == Gap(p, x, p.mock.drift.value.symbol, place, leg)
  {
    hide Matched, Compares, InputsOf, CompareAt, ShownQty, ShownAvg, ShownValue, ValueAt, AvgRun, Over, FeeExcess;
    var s := p.mock.drift.value.symbol;
    match place {
      case At(r) =>
        FiguresAt(p, x, rows, lines, snap, order, r);
        if r != s {
          Undrifted(p, x, r);
        } else if s !in Symbols(x.emitted) {
          UntradedShowsNothing(p, x, s);
        }
      case Account =>
        AccountFigures(p, x, rows, lines, snap, order);
        OneDriftGap(p, x, s);
    }
  }

  lemma UntradedShowsNothing(p: Setup, x: Sys, s: Symbol)
    requires s !in Symbols(x.emitted)
    ensures ShownQty(p, x, s) == ShownAvg(p, x, s) == ShownValue(p, x)(s) == 0.0
    ensures AvgRun(x.emitted, s).qty == AvgRun(x.emitted, s).avg == 0.0
  {
    hide Worth, AvgRun;
    UntradedIsFlat(x.emitted, s);
  }

  // The account's unrealized figures are apart by the drifted symbol's gap alone.
  lemma OneDriftGap(p: Setup, x: Sys, s: Symbol)
    requires p.mock.drift.Some? && p.mock.drift.value.symbol == s
    ensures Over(Symbols(x.emitted), ValueAt(x)) - Over(Symbols(x.emitted), ShownValue(p, x)) == ValueGap(p, x, s)
  {
    hide Over, AvgRun, ValueAt, ShownValue;
    var keys := Symbols(x.emitted);
    forall r | r in keys && r != s ensures ValueAt(x)(r) == ShownValue(p, x)(r) {
      Undrifted(p, x, r);
    }
    if s in keys {
      OverChanged(keys, ValueAt(x), ShownValue(p, x), s);
    } else {
      OverSame(keys, ValueAt(x), ShownValue(p, x));
    }
  }

  lemma CauseIs(p: Setup, x: Sys, rows: seq<EngineRow>, lines: seq<PnlLine>, snap: Snapshot, order: seq<Symbol>,
                place: Place, leg: Leg)
    requires Matched(p, x) && Compares(p, x, rows, lines, snap, order) && p.mock.drift.Some?
    ensures var t := p.config.tolerances;
            CauseFor(InputsOf(rows, lines, snap), place, leg, t)
                 == GapCause(p, x, p.mock.drift.value.symbol, place, leg, t)
  {
    hide Matched, Compares, InputsOf, CompareAt, Gap;
    if place.At? {
      GapsAre(p, x, rows, lines, snap, order, place, QtyLeg);
      GapsAre(p, x, rows, lines, snap, order, place, AvgCostLeg);
      GapsAre(p, x, rows, lines, snap, order, place, UnrealizedLeg);
    }
  }

  // A leg that is not compared has no gap.
  lemma NoGapUncompared(p: Setup, x: Sys, rows: seq<EngineRow>, lines: seq<PnlLine>, snap: Snapshot, order: seq<Symbol>,
                        place: Place, leg: Leg)
    requires Matched(p, x) && Compares(p, x, rows, lines, snap, order) && p.mock.drift.Some?
    requires !IsCompared(InputsOf(rows, lines, snap), place, leg)
    ensures Gap(p, x, p.mock.drift.value.symbol, place, leg) == 0.0
  {
    hide Matched, Compares, InputsOf, CompareAt, ShownQty, ShownAvg, ShownValue, ValueAt, AvgRun;
    if place.At? && place.symbol == p.mock.drift.value.symbol && !leg.RealizedLeg? {
      TradedIsCompared(p, x, rows, lines, snap, order, place.symbol);
      UntradedShowsNothing(p, x, place.symbol);
    }
  }

  lemma ComparesLists(p: Setup, x: Sys, rows: seq<EngineRow>, lines: seq<PnlLine>, snap: Snapshot, order: seq<Symbol>)
    requires Compares(p, x, rows, lines, snap, order)
    ensures Lists(order, InputsOf(rows, lines, snap).engine.Keys + InputsOf(rows, lines, snap).broker.Keys)
  {
    hide InputsOf, PositionRows, Reports, IsSnapshot;
  }

  // A traded symbol is in the engine's book.
  lemma TradedIsCompared(p: Setup, x: Sys, rows: seq<EngineRow>, lines: seq<PnlLine>, snap: Snapshot,
                         order: seq<Symbol>, s: Symbol)
    requires Matched(p, x) && Compares(p, x, rows, lines, snap, order)
    ensures s in Symbols(x.emitted) ==> s in InputsOf(rows, lines, snap).engine
  {
    hide Worth, Sum, Agrees, Linked, Streams, AvgRun, Over, RowFor, LineOf, IndexBroker, IndexUnrealized;
    LedgerFacts(p, x);
    IndexEngineIs(rows, x.eng.book);
  }

  // At most an average-cost drift.
  predicate DriftsInAverageOnly(c: MockConfig) {
    c.drift.Some? && c.drift.value.qtyDelta == 0.0 && c.drift.value.realizedDelta == 0.0
      && c.drift.value.unrealizedDelta == 0.0
  }

  // The rows an average-cost drift d on the open symbol s must show, and nothing else.
  predicate IsDriftRow(b: Break, s: Symbol, d: real, worth: real, t: Tolerances) {
    match (b.place, b.leg)
    case (At(r), AvgCostLeg) =>
      r == s && b.engine - b.broker == -d && Abs(d) > t.price && b.tolerance == t.price && b.cause == FeeTreatment
    case (At(r), UnrealizedLeg) =>
      r == s && b.engine - b.broker == worth && Abs(worth) > t.pnl && b.tolerance == t.pnl
      && b.cause == if Abs(d) > t.price then FeeTreatment else MarkSource
    case (Account, UnrealizedLeg) =>
      b.engine - b.broker == worth && Abs(worth) > t.pnl && b.tolerance == t.pnl && b.cause == MarkSource
    case _ => false
  }

  // In particular an average-cost drift alone, with every fee positive: every reported row is
  // one of the drifted symbol's average row, its unrealized row and the account's unrealized
  // row, and each of them is reported when it is beyond tolerance.
  lemma DriftIsLocated(p: Setup, x: Sys, rows: seq<EngineRow>, lines: seq<PnlLine>, snap: Snapshot, order: seq<Symbol>,
                       b: Break)
    requires Matched(p, x) && Compares(p, x, rows, lines, snap, order) && Sensible(p.config.tolerances)
    requires DriftsInAverageOnly(p.mock) && forall f :: f in x.emitted ==> f.fee > 0.0
    requires AvgRun(x.emitted, p.mock.drift.value.symbol).qty != 0.0
    ensures var v, t, s := InputsOf(rows, lines, snap), p.config.tolerances, p.mock.drift.value.symbol;
            var d := p.mock.drift.value.avgDelta;
            b in Reconciled(v, order, t).breaks <==>
              (b.engine, b.broker) == LegOf(v, b.place, b.leg)
                && IsDriftRow(b, s, d, Worth(d, AvgRun(x.emitted, s).qty), t)
  {
    hide Matched, Compares, InputsOf, Reconciled, LegOf, AvgRun, Worth, FeeExcess, ShownQty;
    hide ShownAvg, ShownValue, ValueAt;
    NoExcess(p.config, x.emitted);
    AverageDriftShows(p, x, p.mock.drift.value.symbol);
    AnyDriftIsLocated(p, x, rows, lines, snap, order, b);
  }

  lemma AverageDriftShows(p: Setup, x: Sys, s: Symbol)
    requires DriftsInAverageOnly(p.mock) && p.mock.drift.value.symbol == s && AvgRun(x.emitted, s).qty != 0.0
    ensures var b, d := AvgRun(x.emitted, s), p.mock.drift.value.avgDelta;
            && s in Symbols(x.emitted) && ShownQty(p, x, s) == b.qty && ShownAvg(p, x, s) == b.avg + d
            && ValueAt(x)(s) - ShownValue(p, x)(s) == Worth(d, b.qty)
  {
    hide Worth, AvgRun;
    if s !in Symbols(x.emitted) {
      UntradedIsFlat(x.emitted, s);
    }
    var b := AvgRun(x.emitted, s);
    WorthMoves(PriceFor(x.brk, s) - b.avg, p.mock.drift.value.avgDelta, b.qty);
    assert PriceFor(x.brk, s) - b.avg - p.mock.drift.value.avgDelta
         == PriceFor(x.brk, s) - (b.avg + p.mock.drift.value.avgDelta);
  }

  // At most a quantity drift.
  predicate DriftsInQuantityOnly(c: MockConfig) {
    c.drift.Some? && c.drift.value.avgDelta == 0.0 && c.drift.value.realizedDelta == 0.0
      && c.drift.value.unrealizedDelta == 0.0
  }

  // The rows a quantity drift d on the symbol s must show, and nothing else.
  predicate IsQtyDriftRow(b: Break, s: Symbol, d: real, worth: real, t: Tolerances) {
    match (b.place, b.leg)
    case (At(r), QtyLeg) =>
      r == s && b.engine - b.broker == -d && Abs(d) > t.qty && b.tolerance == t.qty && b.cause == MissingFill
    case (At(r), UnrealizedLeg) =>
      r == s && b.engine - b.broker == -worth && Abs(worth) > t.pnl && b.tolerance == t.pnl
      && b.cause == if Abs(d) > t.qty then MissingFill else MarkSource
    case (Account, UnrealizedLeg) =>
      b.engine - b.broker == -worth && Abs(worth) > t.pnl && b.tolerance == t.pnl && b.cause == MarkSource
    case _ => false
  }

  // A quantity drift alone, on a traded symbol that it does not make look flat: the quantity
  // row as a missing fill, and the unrealized rows of what the extra quantity is worth.
  lemma QtyDriftIsLocated(p: Setup, x: Sys, rows: seq<EngineRow>, lines: seq<PnlLine>, snap: Snapshot,
                          order: seq<Symbol>, b: Break)
    requires Matched(p, x) && Compares(p, x, rows, lines, snap, order) && Sensible(p.config.tolerances)
    requires DriftsInQuantityOnly(p.mock) && forall f :: f in x.emitted ==> f.fee > 0.0
    requires var s, d := p.mock.drift.value.symbol, p.mock.drift.value.qtyDelta;
             s in Symbols(x.emitted) && AvgRun(x.emitted, s).qty + d != 0.0
    ensures var v, t, s := InputsOf(rows, lines, snap), p.config.tolerances, p.mock.drift.value.symbol;
            var d := p.mock.drift.value.qtyDelta;
            b in Reconciled(v, order, t).breaks <==>
              (b.engine, b.broker) == LegOf(v, b.place, b.leg)
                && IsQtyDriftRow(b, s, d, Worth(PriceFor(x.brk, s) - AvgRun(x.emitted, s).avg, d), t)
  {
    hide Matched, Compares, InputsOf, Reconciled, LegOf, AvgRun, Worth, FeeExcess, ShownQty;
    hide ShownAvg, ShownValue, ValueAt;
    NoExcess(p.config, x.emitted);
    QuantityDriftShows(p, x, p.mock.drift.value.symbol);
    AnyDriftIsLocated(p, x, rows, lines, snap, order, b);
  }

  lemma QuantityDriftShows(p: Setup, x: Sys, s: Symbol)
    requires DriftsInQuantityOnly(p.mock) && p.mock.drift.value.symbol == s && s in Symbols(x.emitted)
    requires AvgRun(x.emitted, s).qty + p.mock.drift.value.qtyDelta != 0.0
    ensures var b, d := AvgRun(x.emitted, s), p.mock.drift.value.qtyDelta;
            && ShownQty(p, x, s) == b.qty + d && ShownAvg(p, x, s) == b.avg
            && ValueAt(x)(s) - ShownValue(p, x)(s) == -Worth(PriceFor(x.brk, s) - b.avg, d)
  {
    hide Worth, AvgRun;
    var b := AvgRun(x.emitted, s);
    WorthAdds(PriceFor(x.brk, s) - b.avg, b.qty, p.mock.drift.value.qtyDelta);
    assert b.avg + 0.0 == b.avg;
  }

  // ----- What a snapshot says of what was sent -----

  function DriftedBy(c: MockConfig, s: Symbol): real {
    match c.drift
    case Some(d) => if d.symbol == s then d.qtyDelta else 0.0
    case None => 0.0
  }

  // In every reachable state: the broker reports exactly the traded symbols whose net quantity
  // of what was sent is not zero, drift added, with that quantity valued at its price and the
  // account's realized figure as of its last fill; and the fees of all that was sent.
  lemma SnapshotTells(p: Setup, x: Sys, snap: Snapshot, s: Symbol)
    requires SysInv(p, x) && IsSnapshot(snap, p.mock, x.brk)
    ensures var qty := Net(x.emitted, s) + DriftedBy(p.mock, s);
            && ((exists row :: row in snap.rows && row.symbol == s) <==> s in Symbols(x.emitted) && qty != 0.0)
            && (forall row :: row in snap.rows && row.symbol == s ==>
                  && row.qty == qty && row.realized == BrokerBook.RealizedAtLast(x.emitted, s)
                  && row.unrealized == Worth((if s in x.brk.prices then x.brk.prices[s] else 100.0) - row.avgCost, qty))
    ensures snap.fees == Sum(x.emitted, Fee()) + match p.mock.drift case Some(d) => d.feeDelta case None => 0.0
  {
    hide Worth, Sum, SysInv, IsSnapshot, Reported, Symbols, BrokerBook.AccountRun, BrokerBook.RealizedAtLast;
    AccountIsSent(p, x);
    BrokerBook.RealizedIsAccounts(x.emitted, s);
    BrokerBook.BrokerQuantity(x.emitted, s);
    SnapshotListed(p.mock, x.brk, snap, s);
    SnapshotFees(p.mock, x.brk, snap);
    ReportedIs(p.mock, x.brk, s);
  }

  lemma AccountIsSent(p: Setup, x: Sys)
    requires SysInv(p, x)
    ensures x.brk.account == BrokerBook.AccountRun(x.emitted)
  {
    hide Agrees, Linked;
  }

  lemma SnapshotFees(c: MockConfig, b: Broker, snap: Snapshot)
    requires IsSnapshot(snap, c, b)
    ensures snap.fees == b.account.fees + match c.drift case Some(d) => d.feeDelta case None => 0.0
  {
    hide RowsFor, Reported, Over, UnrealizedFor;
  }

  lemma ReportedIs(c: MockConfig, b: Broker, s: Symbol)
    ensures s in Reported(c, b) <==>
      s in b.account.positions && BrokerBook.At(b.account, s).qty + DriftedBy(c, s) != 0.0
  {
    hide Worth;
  }

  lemma SnapshotListed(c: MockConfig, b: Broker, snap: Snapshot, s: Symbol)
    requires IsSnapshot(snap, c, b)
    ensures (exists row :: row in snap.rows && row.symbol == s) <==> s in Reported(c, b)
    ensures forall row :: row in snap.rows && row.symbol == s ==> row == RowFor(c, b, s)
  {
    hide RowFor, Reported, Over, UnrealizedFor;
  }
}
