// The reconciler (app/reconcile.py): engine against broker, symbol by symbol and account-wide.

module Reconcile {
  import opened Models
  import opened Settings
  import opened Pnl

  datatype EngineRow = EngineRow(symbol: Symbol, qty: real, avgCost: real)

  datatype BrokerRow = BrokerRow(symbol: Symbol, qty: real, avgCost: real, realized: real, unrealized: real)

  datatype Snapshot = Snapshot(realized: real, unrealized: real, fees: real, rows: seq<BrokerRow>)

  datatype Cause = MissingFill | FeeTreatment | MarkSource | Unknown

  datatype Leg = QtyLeg | AvgCostLeg | RealizedLeg | UnrealizedLeg

  // A row is about one symbol or about the whole account.
  datatype Place = At(symbol: Symbol) | Account

  datatype Break = Break(place: Place, leg: Leg, engine: real, broker: real, tolerance: real, cause: Cause)

  datatype Result = Result(breaks: seq<Break>, checked: nat)

  // ----- Symbols in order -----

  predicate Before(a: Symbol, b: Symbol) {
    if a == "" then b != ""
    else if b == "" then false
    else if a[0] != b[0] then a[0] < b[0]
    else Before(a[1..], b[1..])
  }

  lemma {:induction false} BeforeIsTotal(a: Symbol, b: Symbol)
    ensures a == b || Before(a, b) || Before(b, a)
    ensures !(Before(a, b) && Before(b, a)) && !Before(a, a)
  {
    if a != "" {
      BeforeIsTotal(a[1..], a[1..]);
      if b != "" && a[0] == b[0] {
        BeforeIsTotal(a[1..], b[1..]);
        assert a == [a[0]] + a[1..] && b == [b[0]] + b[1..];
      }
    }
  }

  lemma {:induction false} BeforeIsTransitive(a: Symbol, b: Symbol, d: Symbol)
    requires Before(a, b) && Before(b, d)
    ensures Before(a, d)
  {
    if a != "" && b != "" && d != "" && a[0] == b[0] == d[0] {
      BeforeIsTransitive(a[1..], b[1..], d[1..]);
    }
  }

  // sorted(set): the symbols of the set, each once, in ascending order.
  ghost predicate Ascending(order: seq<Symbol>) {
    forall i, j :: 0 <= i < j < |order| ==> Before(order[i], order[j])
  }

  ghost predicate Lists(order: seq<Symbol>, symbols: set<Symbol>) {
    Ascending(order) && (set s | s in order) == symbols
  }

  function InsertSymbol(order: seq<Symbol>, s: Symbol): seq<Symbol> {
    if order == [] then [s]
    else if Before(s, order[0]) then [s] + order
    else [order[0]] + InsertSymbol(order[1..], s)
  }

  lemma {:induction false} InsertSymbolKeeps(order: seq<Symbol>, s: Symbol)
    requires Ascending(order) && s !in order
    ensures Ascending(InsertSymbol(order, s))
    ensures forall x :: x in InsertSymbol(order, s) <==> x in order || x == s
    ensures |InsertSymbol(order, s)| == |order| + 1
  {
    if order != [] {
      BeforeIsTotal(s, order[0]);
      if Before(s, order[0]) {
        forall j | 0 < j < |order| ensures Before(s, order[j]) {
          BeforeIsTransitive(s, order[0], order[j]);
        }
      } else {
        InsertSymbolKeeps(order[1..], s);
        var rest := InsertSymbol(order[1..], s);
        forall k | 0 <= k < |rest| ensures Before(order[0], rest[k]) {
          assert rest[k] in order[1..] || rest[k] == s;
        }
      }
    }
  }

  method SortSymbols(symbols: set<Symbol>) returns (order: seq<Symbol>)
    ensures Lists(order, symbols)
  {
    order := [];
    var todo := symbols;
    while todo != {}
      invariant Ascending(order) && todo <= symbols
      invariant (set s | s in order) == symbols - todo
      decreases |todo|
    {
      var s :| s in todo;
      InsertSymbolKeeps(order, s);
      assert (set x | x in InsertSymbol(order, s)) == (set x | x in order) + {s};
      order := InsertSymbol(order, s);
      todo := todo - {s};
    }
  }

  lemma ListsLength(order: seq<Symbol>, symbols: set<Symbol>)
    requires Lists(order, symbols)
    ensures |order| == |symbols|
    decreases |order|
  {
    if order != [] {
      var n := |order| - 1;
      BeforeIsTotal(order[n], order[n]);
      assert order[n] !in order[..n];
      assert (set s | s in order[..n]) == symbols - {order[n]} by {
        forall s | s in symbols && s != order[n] ensures s in order[..n] {
          assert s in order;
        }
      }
      ListsLength(order[..n], symbols - {order[n]});
    }
  }

  // ----- One symbol -----

  // What both sides say about a symbol; a side without an entry says zero.
  datatype Compared = Compared(engineQty: real, brokerQty: real, engineAvg: real, brokerAvg: real, engineUnreal: real,
                               brokerUnreal: real)

  predicate Off(engine: real, broker: real, tolerance: real) {
    Abs(engine - broker) > tolerance
  }

  function CauseOf(qtyOff: bool, avgOff: bool, unrealOff: bool): Cause {
    if qtyOff then MissingFill else if avgOff then FeeTreatment else if unrealOff then MarkSource else Unknown
  }

  function CauseAt(v: Compared, t: Tolerances): Cause {
    CauseOf(Off(v.engineQty, v.brokerQty, t.qty), Off(v.engineAvg, v.brokerAvg, t.price),
            Off(v.engineUnreal, v.brokerUnreal, t.pnl))
  }

  function BreaksAt(s: Symbol, v: Compared, t: Tolerances): seq<Break> {
    var cause := CauseAt(v, t);
    (if Off(v.engineQty, v.brokerQty, t.qty) then [Break(At(s), QtyLeg, v.engineQty, v.brokerQty, t.qty, cause)]
     else [])
    + (if Off(v.engineAvg, v.brokerAvg, t.price)
       then [Break(At(s), AvgCostLeg, v.engineAvg, v.brokerAvg, t.price, cause)]
       else [])
    + (if Off(v.engineUnreal, v.brokerUnreal, t.pnl)
       then [Break(At(s), UnrealizedLeg, v.engineUnreal, v.brokerUnreal, t.pnl, cause)]
       else [])
  }

  // ----- The inputs, indexed -----

  datatype Inputs = Inputs(
    engine: map<Symbol, EngineRow>,
    unrealized: map<Symbol, real>,
    broker: map<Symbol, BrokerRow>,
    engineRealized: real,
    engineUnrealized: real,
    brokerRealized: real,
    brokerUnrealized: real)

  function CompareAt(x: Inputs, s: Symbol): Compared {
    Compared(if s in x.engine then x.engine[s].qty else 0.0, if s in x.broker then x.broker[s].qty else 0.0,
             if s in x.engine then x.engine[s].avgCost else 0.0, if s in x.broker then x.broker[s].avgCost else 0.0,
             if s in x.unrealized then x.unrealized[s] else 0.0, if s in x.broker then x.broker[s].unrealized else 0.0)
  }

  function SymbolRows(x: Inputs, order: seq<Symbol>, t: Tolerances): seq<Break> {
    if order == [] then []
    else SymbolRows(x, order[..|order| - 1], t) + BreaksAt(order[|order| - 1], CompareAt(x, order[|order| - 1]), t)
  }

  function AccountRows(x: Inputs, t: Tolerances): seq<Break> {
    (if Off(x.engineRealized, x.brokerRealized, t.pnl)
     then [Break(Account, RealizedLeg, x.engineRealized, x.brokerRealized, t.pnl, FeeTreatment)] else [])
    + (if Off(x.engineUnrealized, x.brokerUnrealized, t.pnl)
       then [Break(Account, UnrealizedLeg, x.engineUnrealized, x.brokerUnrealized, t.pnl, MarkSource)] else [])
  }

  function Reconciled(x: Inputs, order: seq<Symbol>, t: Tolerances): Result {
    Result(SymbolRows(x, order, t) + AccountRows(x, t), 3 * |order| + 2)
  }

  // The result over the symbols of either book, in ascending order.
  ghost predicate IsReconciled(x: Inputs, order: seq<Symbol>, t: Tolerances, r: Result) {
    Lists(order, x.engine.Keys + x.broker.Keys) && r == Reconciled(x, order, t)
  }

  // The last entry of a symbol wins, as in a dictionary built from a list.
  function IndexEngine(rows: seq<EngineRow>): map<Symbol, EngineRow> {
    if rows == [] then map[] else IndexEngine(rows[..|rows| - 1])[rows[|rows| - 1].symbol := rows[|rows| - 1]]
  }

  function IndexBroker(rows: seq<BrokerRow>): map<Symbol, BrokerRow> {
    if rows == [] then map[] else IndexBroker(rows[..|rows| - 1])[rows[|rows| - 1].symbol := rows[|rows| - 1]]
  }

  function IndexUnrealized(lines: seq<PnlLine>): map<Symbol, real> {
    if lines == [] then map[]
    else IndexUnrealized(lines[..|lines| - 1])[lines[|lines| - 1].symbol := lines[|lines| - 1].unrealized]
  }

  function InputsOf(positions: seq<EngineRow>, lines: seq<PnlLine>, broker: Snapshot): Inputs {
    Inputs(IndexEngine(positions), IndexUnrealized(lines), IndexBroker(broker.rows),
           RealizedTotal(lines), UnrealizedTotal(lines), broker.realized, broker.unrealized)
  }

  // ----- The reconciler object -----

  class Reconciler {
    const tolerances: Tolerances

    constructor (tolerances: Tolerances)
      ensures this.tolerances == tolerances
    {
      this.tolerances := tolerances;
    }

    // One break row of a symbol, with its cause still unknown.
    static method Classify(rows: seq<Break>, qtyOff: bool, avgOff: bool, unrealOff: bool)
      returns (classified: seq<Break>)
      ensures |classified| == |rows|
      ensures forall i :: 0 <= i < |rows| ==> classified[i] == rows[i].(cause := CauseOf(qtyOff, avgOff, unrealOff))
    {
      var cause := if qtyOff then MissingFill
                   else if avgOff then FeeTreatment else if unrealOff then MarkSource else Unknown;
      classified := [];
      for i := 0 to |rows|
        invariant |classified| == i
        invariant forall k :: 0 <= k < i ==> classified[k] == rows[k].(cause := cause)
      {
        classified := classified + [rows[i].(cause := cause)];
      }
    }

    method CompareSymbol(x: Inputs, s: Symbol) returns (rows: seq<Break>)
      ensures rows == BreaksAt(s, CompareAt(x, s), tolerances)
    {
      var v := CompareAt(x, s);
      var qtyOff := Off(v.engineQty, v.brokerQty, tolerances.qty);
      var avgOff := Off(v.engineAvg, v.brokerAvg, tolerances.price);
      var unrealOff := Off(v.engineUnreal, v.brokerUnreal, tolerances.pnl);
      var found := [];
      if qtyOff {
        found := found + [Break(At(s), QtyLeg, v.engineQty, v.brokerQty, tolerances.qty, Unknown)];
      }
      if avgOff {
        found := found + [Break(At(s), AvgCostLeg, v.engineAvg, v.brokerAvg, tolerances.price, Unknown)];
      }
      if unrealOff {
        found := found + [Break(At(s), UnrealizedLeg, v.engineUnreal, v.brokerUnreal, tolerances.pnl, Unknown)];
      }
      rows := Classify(found, qtyOff, avgOff, unrealOff);
    }

    method CompareAccount(x: Inputs) returns (rows: seq<Break>)
      ensures rows == AccountRows(x, tolerances)
    {
      rows := [];
      if Off(x.engineRealized, x.brokerRealized, tolerances.pnl) {
        rows := rows + [Break(Account, RealizedLeg, x.engineRealized, x.brokerRealized, tolerances.pnl, FeeTreatment)];
      }
      if Off(x.engineUnrealized, x.brokerUnrealized, tolerances.pnl) {
        rows := rows + [Break(Account, UnrealizedLeg, x.engineUnrealized, x.brokerUnrealized, tolerances.pnl,
                              MarkSource)];
      }
    }

    method Reconcile(positions: seq<EngineRow>, lines: seq<PnlLine>, broker: Snapshot) returns (r: Result)
      ensures exists order :: IsReconciled(InputsOf(positions, lines, broker), order, tolerances, r)
    {
      hide InputsOf, BreaksAt, CompareAt, AccountRows, Lists;
      var x := InputsOf(positions, lines, broker);
      var symbols := SortSymbols(x.engine.Keys + x.broker.Keys);
      var breaks: seq<Break> := [];
      var checked: nat := 0;
      for i := 0 to |symbols|
        invariant breaks == SymbolRows(x, symbols[..i], tolerances) && checked == 3 * i
      {
        checked := checked + 3;
        var rows := CompareSymbol(x, symbols[i]);
        assert symbols[..i + 1][..i] == symbols[..i];
        breaks := breaks + rows;
      }
      assert symbols[..|symbols|] == symbols;
      var rows := CompareAccount(x);
      r := Result(breaks + rows, checked + 2);
      assert IsReconciled(x, symbols, tolerances, r);
    }
  }

  // ----- What a result says -----

  // The figures of one leg, in both books.
  function LegOf(x: Inputs, p: Place, leg: Leg): (real, real) {
    match (p, leg)
    case (At(s), QtyLeg) => (CompareAt(x, s).engineQty, CompareAt(x, s).brokerQty)
    case (At(s), AvgCostLeg) => (CompareAt(x, s).engineAvg, CompareAt(x, s).brokerAvg)
    case (At(s), UnrealizedLeg) => (CompareAt(x, s).engineUnreal, CompareAt(x, s).brokerUnreal)
    case (Account, RealizedLeg) => (x.engineRealized, x.brokerRealized)
    case (Account, UnrealizedLeg) => (x.engineUnrealized, x.brokerUnrealized)
    case _ => (0.0, 0.0)
  }

  function ToleranceOf(t: Tolerances, leg: Leg): real {
    if leg.QtyLeg? then t.qty else if leg.AvgCostLeg? then t.price else t.pnl
  }

  // The legs that are compared: three for every symbol of either book, two for the account.
  predicate IsCompared(x: Inputs, p: Place, leg: Leg) {
    match p
    case At(s) => (s in x.engine || s in x.broker) && !leg.RealizedLeg?
    case Account => leg.RealizedLeg? || leg.UnrealizedLeg?
  }

  // The most fundamental leg of the symbol that is off names the cause of all its rows.
  function CauseFor(x: Inputs, p: Place, leg: Leg, t: Tolerances): Cause {
    match p
    case At(s) =>
      var v := CompareAt(x, s);
      if Off(v.engineQty, v.brokerQty, t.qty) then MissingFill
      else if Off(v.engineAvg, v.brokerAvg, t.price) then FeeTreatment
      else if Off(v.engineUnreal, v.brokerUnreal, t.pnl) then MarkSource
      else Unknown
    case Account => if leg.RealizedLeg? then FeeTreatment else MarkSource
  }

  lemma {:induction false} SymbolRowsExactly(x: Inputs, order: seq<Symbol>, t: Tolerances, b: Break)
    ensures b in SymbolRows(x, order, t) <==>
      b.place.At? && b.place.symbol in order && b in BreaksAt(b.place.symbol, CompareAt(x, b.place.symbol), t)
  {
    hide BreaksAt, CompareAt;
    if order != [] {
      var before, s := order[..|order| - 1], order[|order| - 1];
      SymbolRowsExactly(x, before, t, b);
      BreaksAtPlace(s, CompareAt(x, s), t, b);
      assert order == before + [s];
    }
  }

  lemma BreaksAtPlace(s: Symbol, v: Compared, t: Tolerances, b: Break)
    ensures b in BreaksAt(s, v, t) ==> b.place == At(s)
  {
  }

  // A row is reported exactly for the compared legs whose figures differ by more than the
  // leg's tolerance, with both figures and the most fundamental cause; and every leg of
  // either book is checked, three a symbol and two for the account.
  lemma ReportedExactly(x: Inputs, order: seq<Symbol>, t: Tolerances, b: Break)
    requires Lists(order, x.engine.Keys + x.broker.Keys)
    ensures b in Reconciled(x, order, t).breaks <==>
      && IsCompared(x, b.place, b.leg)
      && (b.engine, b.broker) == LegOf(x, b.place, b.leg)
      && Off(b.engine, b.broker, b.tolerance)
      && b.tolerance == ToleranceOf(t, b.leg)
      && b.cause == CauseFor(x, b.place, b.leg, t)
    ensures Reconciled(x, order, t).checked == 3 * |x.engine.Keys + x.broker.Keys| + 2
  {
    hide Off, CompareAt, BreaksAt, Ascending;
    SymbolRowsExactly(x, order, t, b);
    ListsLength(order, x.engine.Keys + x.broker.Keys);
    if b.place.At? {
      assert b.place.symbol in order <==> b.place.symbol in x.engine.Keys + x.broker.Keys;
      LegRow(b.place.symbol, CompareAt(x, b.place.symbol), t, b);
    }
  }

  ghost predicate Shows(r: Result, s: Symbol, leg: Leg) {
    exists b :: b in r.breaks && b.place == At(s) && b.leg == leg
  }

  lemma ShownExactly(x: Inputs, order: seq<Symbol>, t: Tolerances, s: Symbol, leg: Leg)
    requires Lists(order, x.engine.Keys + x.broker.Keys) && !leg.RealizedLeg?
    ensures Shows(Reconciled(x, order, t), s, leg) <==>
      && (s in x.engine || s in x.broker)
      && Off(LegOf(x, At(s), leg).0, LegOf(x, At(s), leg).1, ToleranceOf(t, leg))
  {
    hide Off, Reconciled, LegOf, CauseFor;
    var figures := LegOf(x, At(s), leg);
    ReportedExactly(x, order, t,
                    Break(At(s), leg, figures.0, figures.1, ToleranceOf(t, leg), CauseFor(x, At(s), leg, t)));
    if b :| b in Reconciled(x, order, t).breaks && b.place == At(s) && b.leg == leg {
      ReportedExactly(x, order, t, b);
    }
  }

  // The cause of a symbol's row, told by the rows reported of that symbol: a missing fill
  // whenever its quantity is reported, else the fee treatment whenever its average is, else
  // the mark source; and never unknown. The account's rows name theirs by leg.
  lemma CausesExactly(x: Inputs, order: seq<Symbol>, t: Tolerances, b: Break)
    requires Lists(order, x.engine.Keys + x.broker.Keys) && b in Reconciled(x, order, t).breaks
    ensures var r := Reconciled(x, order, t);
            match b.place
            case At(s) =>
              && (b.cause == MissingFill <==> Shows(r, s, QtyLeg))
              && (b.cause == FeeTreatment <==> !Shows(r, s, QtyLeg) && Shows(r, s, AvgCostLeg))
              && (b.cause == MarkSource <==>
                    !Shows(r, s, QtyLeg) && !Shows(r, s, AvgCostLeg) && Shows(r, s, UnrealizedLeg))
              && b.cause != Unknown
            case Account =>
              b.cause == if b.leg == RealizedLeg then FeeTreatment else MarkSource
  {
    hide Off, Reconciled, Shows, CompareAt;
    ReportedExactly(x, order, t, b);
    if b.place.At? {
      ShownExactly(x, order, t, b.place.symbol, QtyLeg);
      ShownExactly(x, order, t, b.place.symbol, AvgCostLeg);
      ShownExactly(x, order, t, b.place.symbol, UnrealizedLeg);
    }
  }

  lemma LegRow(s: Symbol, v: Compared, t: Tolerances, b: Break)
    ensures b in BreaksAt(s, v, t) <==>
      && b.place == At(s) && !b.leg.RealizedLeg?
      && (match b.leg
          case QtyLeg => (b.engine, b.broker) == (v.engineQty, v.brokerQty)
          case AvgCostLeg => (b.engine, b.broker) == (v.engineAvg, v.brokerAvg)
          case _ => (b.engine, b.broker) == (v.engineUnreal, v.brokerUnreal))
      && Off(b.engine, b.broker, b.tolerance)
      && b.tolerance == ToleranceOf(t, b.leg)
      && b.cause == CauseAt(v, t)
  {
    hide Off;
  }

  // Nothing is reported exactly when every compared leg is within tolerance.
  lemma CleanExactly(x: Inputs, order: seq<Symbol>, t: Tolerances)
    requires Lists(order, x.engine.Keys + x.broker.Keys)
    ensures Reconciled(x, order, t).breaks == [] <==>
      forall p: Place, leg: Leg :: IsCompared(x, p, leg) ==>
        !Off(LegOf(x, p, leg).0, LegOf(x, p, leg).1, ToleranceOf(t, leg))
  {
    hide Off, LegOf, Reconciled;
    var r := Reconciled(x, order, t);
    if r.breaks == [] {
      forall p: Place, leg: Leg | IsCompared(x, p, leg)
        ensures !Off(LegOf(x, p, leg).0, LegOf(x, p, leg).1, ToleranceOf(t, leg))
      {
        ReportedExactly(x, order, t,
                        Break(p, leg, LegOf(x, p, leg).0, LegOf(x, p, leg).1, ToleranceOf(t, leg),
                              CauseFor(x, p, leg, t)));
      }
    } else {
      ReportedExactly(x, order, t, r.breaks[0]);
    }
  }
}
