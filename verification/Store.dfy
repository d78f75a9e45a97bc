// Persistence (app/store.py): three tables behind transactions, with a crash possible
// between any two statements.

module Store {
  import opened Models
  import opened Orders
  import opened Positions

  datatype Tables = Tables(orders: map<OrderId, OrderRow>, fills: seq<Fill>, positions: Book)

  const EMPTY_TABLES := Tables(map[], [], map[])

  // ----- Single statements, with the schema's constraints -----

  predicate KnowsExec(t: Tables, exec: Option<ExecId>) {
    exec.Some? && exists i :: 0 <= i < |t.fills| && t.fills[i].exec == exec
  }

  // PRIMARY KEY (fill_id), UNIQUE (broker_exec_id), FOREIGN KEY (order_id)
  predicate FillFits(t: Tables, f: Fill) {
    && (forall i :: 0 <= i < |t.fills| ==> t.fills[i].fillId != f.fillId)
    && !KnowsExec(t, f.exec)
    && f.orderId in t.orders
  }

  // UNIQUE (client_order_id)
  predicate OrderFits(t: Tables, o: OrderRow) {
    forall id :: id in t.orders && id != o.orderId && t.orders[id].clientId == o.clientId ==> o.clientId.None?
  }

  // ON CONFLICT(order_id) DO UPDATE leaves the identifying columns as they were inserted.
  function WrittenRow(t: Tables, o: OrderRow): OrderRow {
    if o.orderId in t.orders then
      t.orders[o.orderId].(brokerId := o.brokerId, status := o.status, filled := o.filled, avgPrice := o.avgPrice,
                           fees := o.fees, reason := o.reason, confirmed := o.confirmed)
    else o
  }

  function WithFill(t: Tables, f: Fill): Tables {
    t.(fills := t.fills + [f])
  }

  function WithOrder(t: Tables, o: OrderRow): Tables {
    t.(orders := t.orders[o.orderId := WrittenRow(t, o)])
  }

  function WithPosition(t: Tables, s: Symbol, p: Position): Tables {
    t.(positions := t.positions[s := p])
  }

  // ----- A connection: the durable tables and the open transaction, if any -----

  datatype Conn = Conn(disk: Tables, txn: Option<Tables>)

  datatype Stmt =
    | Begin
    | InsertFill(fill: Fill)
    | WriteOrder(order: OrderRow)
    | WritePosition(symbol: Symbol, position: Position)
    | Commit

  predicate Runs(c: Conn, stmt: Stmt) {
    match stmt
    case Begin => c.txn.None?
    case InsertFill(f) => c.txn.Some? && FillFits(c.txn.value, f)
    case WriteOrder(o) => c.txn.Some? && OrderFits(c.txn.value, o)
    case WritePosition(_, _) => c.txn.Some?
    case Commit => c.txn.Some?
  }

  function Execute(c: Conn, stmt: Stmt): Conn
    requires Runs(c, stmt)
  {
    match stmt
    case Begin => c.(txn := Some(c.disk))
    case InsertFill(f) => c.(txn := Some(WithFill(c.txn.value, f)))
    case WriteOrder(o) => c.(txn := Some(WithOrder(c.txn.value, o)))
    case WritePosition(s, p) => c.(txn := Some(WithPosition(c.txn.value, s, p)))
    case Commit => Conn(c.txn.value, None)
  }

  // The first n statements of a program. A statement that raises rolls back and ends it.
  function After(c: Conn, program: seq<Stmt>, n: nat): Conn
    requires n <= |program|
    decreases |program|
  {
    if n == 0 then c
    else if Runs(c, program[0]) then After(Execute(c, program[0]), program[1..], n - 1)
    else c.(txn := None)
  }

  // A crash forgets the open transaction.
  function Crashed(c: Conn): Tables {
    c.disk
  }

  function FillTransaction(f: Fill): seq<Stmt> {
    [Begin, InsertFill(f), Commit]
  }

  function OrderTransaction(o: OrderRow): seq<Stmt> {
    [Begin, WriteOrder(o), Commit]
  }

  function PositionTransaction(s: Symbol, p: Position): seq<Stmt> {
    [Begin, WritePosition(s, p), Commit]
  }

  // Store.apply_fill, past its duplicate check.
  function ApplyFillTransaction(f: Fill, o: OrderRow, s: Symbol, p: Position): seq<Stmt> {
    [Begin, InsertFill(f), WriteOrder(o), WritePosition(s, p), Commit]
  }

  // ----- Atomicity -----

  // Nothing reaches the disk before a commit.
  lemma {:induction false} NoCommitNoChange(c: Conn, program: seq<Stmt>, n: nat)
    requires n <= |program| && Commit !in program[..n]
    ensures After(c, program, n).disk == c.disk
    decreases |program|
  {
    if n > 0 {
      assert program[0] == program[..n][0];
      assert program[1..][..n - 1] == program[..n][1..];
      if Runs(c, program[0]) {
        NoCommitNoChange(Execute(c, program[0]), program[1..], n - 1);
      }
    }
  }

  lemma {:induction false} AfterSplit(c: Conn, a: seq<Stmt>, b: seq<Stmt>, n: nat)
    requires n <= |b| && forall k :: 0 <= k < |a| ==> Runs(After(c, a, k), a[k])
    ensures After(c, a + b, |a| + n) == After(After(c, a, |a|), b, n)
    decreases |a|
  {
    if a == [] {
      assert a + b == b;
    } else {
      assert (a + b)[1..] == a[1..] + b;
      assert Runs(After(c, a, 0), a[0]);
      var d := Execute(c, a[0]);
      forall k | 0 <= k < |a[1..]| ensures Runs(After(d, a[1..], k), a[1..][k]) {
        assert Runs(After(c, a, k + 1), a[k + 1]);
      }
      AfterSplit(d, a[1..], b, n);
    }
  }

  // Crashed at any internal point, Store.apply_fill has written all three rows or none.
  lemma ApplyFillIsAtomic(t: Tables, f: Fill, o: OrderRow, s: Symbol, p: Position, n: nat)
    requires n <= 5
    ensures var all := WithPosition(WithOrder(WithFill(t, f), o), s, p);
            Crashed(After(Conn(t, None), ApplyFillTransaction(f, o, s, p), n))
              == if n == 5 && FillFits(t, f) && OrderFits(t, o) then all else t
  {
    var program := ApplyFillTransaction(f, o, s, p);
    var c := Conn(t, None);
    if n < 5 {
      assert program[..n] == [Begin, InsertFill(f), WriteOrder(o), WritePosition(s, p)][..n];
      NoCommitNoChange(c, program, n);
    } else {
      OneStatement(c, program, 5);
      var c1 := Execute(c, Begin);
      assert program[1..] == [InsertFill(f), WriteOrder(o), WritePosition(s, p), Commit];
      OneStatement(c1, program[1..], 4);
      if FillFits(t, f) {
        var c2 := Execute(c1, InsertFill(f));
        var rest := [WriteOrder(o), WritePosition(s, p), Commit];
        assert program[1..][1..] == rest;
        OneStatement(c2, rest, 3);
        if OrderFits(t, o) {
          var c3 := Execute(c2, WriteOrder(o));
          assert rest[1..] == [WritePosition(s, p), Commit];
          OneStatement(c3, [WritePosition(s, p), Commit], 2);
          assert [WritePosition(s, p), Commit][1..] == [Commit];
          OneStatement(Execute(c3, WritePosition(s, p)), [Commit], 1);
        }
      }
    }
  }

  lemma OneStatement(c: Conn, program: seq<Stmt>, n: nat)
    requires 0 < n <= |program|
    ensures After(c, program, n)
         == if Runs(c, program[0]) then After(Execute(c, program[0]), program[1..], n - 1) else c.(txn := None)
  {
  }

  // ----- Recovery: the ledger in timestamp order -----

  function Insert(f: Fill, sorted: seq<Fill>): seq<Fill> {
    if sorted == [] then [f]
    else if f.ts < sorted[|sorted| - 1].ts then Insert(f, sorted[..|sorted| - 1]) + [sorted[|sorted| - 1]]
    else sorted + [f]
  }

  // SELECT ... ORDER BY ts; equal timestamps keep their insertion order.
  function ByTs(fs: seq<Fill>): seq<Fill> {
    if fs == [] then [] else Insert(fs[|fs| - 1], ByTs(fs[..|fs| - 1]))
  }

  ghost predicate InTsOrder(fs: seq<Fill>) {
    forall i, j :: 0 <= i < j < |fs| ==> fs[i].ts <= fs[j].ts
  }

  lemma {:induction false} InsertKeeps(f: Fill, sorted: seq<Fill>)
    ensures multiset(Insert(f, sorted)) == multiset(sorted) + multiset{f}
  {
    if sorted != [] && f.ts < sorted[|sorted| - 1].ts {
      assert sorted == sorted[..|sorted| - 1] + [sorted[|sorted| - 1]];
      InsertKeeps(f, sorted[..|sorted| - 1]);
    }
  }

  lemma {:induction false} InsertSorts(f: Fill, sorted: seq<Fill>)
    requires InTsOrder(sorted)
    ensures InTsOrder(Insert(f, sorted))
  {
    if sorted != [] && f.ts < sorted[|sorted| - 1].ts {
      var front, last := sorted[..|sorted| - 1], sorted[|sorted| - 1];
      InsertSorts(f, front);
      InsertKeeps(f, front);
      forall i | 0 <= i < |Insert(f, front)| ensures Insert(f, front)[i].ts <= last.ts {
        assert Insert(f, front)[i] in multiset(Insert(f, front));
        assert Insert(f, front)[i] in front || Insert(f, front)[i] == f;
      }
    }
  }

  // Recovery loads a permutation of the ledger, in timestamp order.
  lemma {:induction false} ByTsSorts(fs: seq<Fill>)
    ensures multiset(ByTs(fs)) == multiset(fs) && InTsOrder(ByTs(fs))
  {
    hide Insert, InTsOrder;
    if fs == [] {
      NothingInTsOrder();
    } else {
      var before, f := fs[..|fs| - 1], fs[|fs| - 1];
      ByTsSorts(before);
      InsertKeeps(f, ByTs(before));
      InsertSorts(f, ByTs(before));
      assert fs == before + [f];
    }
  }

  lemma NothingInTsOrder()
    ensures InTsOrder([])
  {
  }

  // A ledger already in timestamp order is loaded as it was written.
  lemma {:induction false} ByTsOfSorted(fs: seq<Fill>)
    requires InTsOrder(fs)
    ensures ByTs(fs) == fs
  {
    if fs != [] {
      ByTsOfSorted(fs[..|fs| - 1]);
      assert fs == fs[..|fs| - 1] + [fs[|fs| - 1]];
    }
  }

  // ----- The store object -----

  class Store {
    var disk: Tables
    var txn: Option<Tables>

    constructor ()
      ensures disk == EMPTY_TABLES && txn.None?
    {
      disk, txn := EMPTY_TABLES, None;
    }

    // One statement of the open program; false means it raised and rolled back.
    method Do(stmt: Stmt) returns (ok: bool)
      modifies this
      ensures ok == Runs(old(Conn(disk, txn)), stmt)
      ensures Conn(disk, txn) == if ok then Execute(old(Conn(disk, txn)), stmt) else old(Conn(disk, None))
    {
      ok := Runs(Conn(disk, txn), stmt);
      if ok {
        var next := Execute(Conn(disk, txn), stmt);
        disk, txn := next.disk, next.txn;
      } else {
        txn := None;
      }
    }

    // record_fill: None when it raises, Some(false) when the execution is already recorded.
    method RecordFill(f: Fill) returns (recorded: Option<bool>)
      requires txn.None?
      modifies this
      ensures txn.None?
      ensures recorded
           == if KnowsExec(old(disk), f.exec) then Some(false) else if FillFits(old(disk), f) then Some(true) else None
      ensures disk == if recorded == Some(true) then WithFill(old(disk), f) else old(disk)
    {
      if KnowsExec(disk, f.exec) {
        return Some(false);
      }
      var _ := Do(Begin);
      var ok := Do(InsertFill(f));
      if !ok {
        return None;
      }
      var _ := Do(Commit);
      return Some(true);
    }

    method UpsertOrder(o: OrderRow) returns (ok: bool)
      requires txn.None?
      modifies this
      ensures txn.None? && ok == OrderFits(old(disk), o)
      ensures disk == if ok then WithOrder(old(disk), o) else old(disk)
    {
      var _ := Do(Begin);
      ok := Do(WriteOrder(o));
      if ok {
        var _ := Do(Commit);
      }
    }

    method UpsertPosition(s: Symbol, p: Position)
      requires txn.None?
      modifies this
      ensures txn.None? && disk == WithPosition(old(disk), s, p)
    {
      var _ := Do(Begin);
      var _ := Do(WritePosition(s, p));
      var _ := Do(Commit);
    }

    // apply_fill: the ledger, the order and the position in one transaction.
    method ApplyFill(f: Fill, o: OrderRow, p: Position) returns (applied: Option<bool>)
      requires txn.None?
      modifies this
      ensures txn.None?
      ensures applied == Some(false) <==> KnowsExec(old(disk), f.exec)
      ensures applied == Some(true) <==> FillFits(old(disk), f) && OrderFits(old(disk), o)
      ensures disk == if applied == Some(true) then WithPosition(WithOrder(WithFill(old(disk), f), o), f.symbol, p)
                      else old(disk)
    {
      if KnowsExec(disk, f.exec) {
        return Some(false);
      }
      var _ := Do(Begin);
      var ok := Do(InsertFill(f));
      if !ok {
        return None;
      }
      ok := Do(WriteOrder(o));
      if !ok {
        return None;
      }
      var _ := Do(WritePosition(f.symbol, p));
      var _ := Do(Commit);
      return Some(true);
    }

    method LoadFills() returns (fs: seq<Fill>)
      ensures fs == ByTs(disk.fills)
    {
      fs := ByTs(disk.fills);
    }
  }
}
