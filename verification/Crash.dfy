// A crash at any statement of on_fill's three store transactions, and the restart after it.

module Crash {
  import opened Models
  import opened Money
  import opened Sums
  import opened Orders
  import opened Positions
  import opened Settings
  import opened Pnl
  import opened Store
  import opened EngineSpec
  import opened Views
  import opened Recovery

  // record_fill, upsert_order, upsert_position, one after the other.
  function FillProgram(f: Fill, row: OrderRow, s: Symbol, p: Position): seq<Stmt> {
    FillTransaction(f) + (OrderTransaction(row) + PositionTransaction(s, p))
  }

  // The tables a crash after n statements of that program leaves.
  lemma ProgramPoints(t: Tables, f: Fill, row: OrderRow, s: Symbol, p: Position, n: nat)
    requires n <= 9 && FillFits(t, f) && OrderFits(WithFill(t, f), row)
    ensures var t1 := WithFill(t, f);
            var t2 := WithOrder(t1, row);
            Crashed(After(Conn(t, None), FillProgram(f, row, s, p), n))
              == if n < 3 then t else if n < 6 then t1 else if n < 9 then t2 else WithPosition(t2, s, p)
  {
    var t1 := WithFill(t, f);
    var t2 := WithOrder(t1, row);
    OneTransaction(t, InsertFill(f));
    OneTransaction(t1, WriteOrder(row));
    OneTransaction(t2, WritePosition(s, p));
    var rest := OrderTransaction(row) + PositionTransaction(s, p);
    if n < 3 {
      Prefix(Conn(t, None), FillTransaction(f), rest, n);
    } else {
      AfterSplit(Conn(t, None), FillTransaction(f), rest, n - 3);
      if n < 6 {
        Prefix(Conn(t1, None), OrderTransaction(row), PositionTransaction(s, p), n - 3);
      } else {
        AfterSplit(Conn(t1, None), OrderTransaction(row), PositionTransaction(s, p), n - 6);
      }
    }
  }

  // A program's first statements are the same whatever follows them.
  lemma {:induction false} Prefix(c: Conn, a: seq<Stmt>, b: seq<Stmt>, n: nat)
    requires n <= |a|
    ensures After(c, a + b, n) == After(c, a, n)
    decreases |a|
  {
    if n > 0 {
      assert (a + b)[1..] == a[1..] + b;
      if Runs(c, a[0]) {
        Prefix(Execute(c, a[0]), a[1..], b, n - 1);
      }
    }
  }

  // A transaction of one write reaches the disk with its commit and not before.
  lemma OneTransaction(t: Tables, write: Stmt)
    requires !write.Begin? && !write.Commit? && Runs(Conn(t, Some(t)), write)
    ensures var program := [Begin, write, Commit];
            var done := Execute(Conn(t, Some(t)), write).txn.value;
            && (forall k :: 0 <= k < 3 ==>
                  Runs(After(Conn(t, None), program, k), program[k]) && After(Conn(t, None), program, k).disk == t)
            && After(Conn(t, None), program, 3) == Conn(done, None)
  {
    var program := [Begin, write, Commit];
    var c0, c1 := Conn(t, None), Conn(t, Some(t));
    var c2 := Execute(c1, write);
    assert program[1..] == [write, Commit] && [write, Commit][1..] == [Commit];
    assert After(c0, program, 1) == After(c1, program[1..], 0) == c1;
    assert After(c0, program, 2) == After(c1, [write, Commit], 1) == After(c2, [Commit], 0) == c2;
    assert After(c0, program, 3) == After(c1, [write, Commit], 2) == After(c2, [Commit], 1);
  }

  // ----- The restart -----

  // The engine after a crash at statement n of a fill that would have been applied.
  ghost function CrashedInFill(c: Config, e: State, f: Fill, n: nat): State
    requires n <= 9 && f.orderId in e.orders
    requires UniqueClients(DiskAt(c, e, f, n).orders)
  {
    Load(c, DiskAt(c, e, f, n))
  }

  function DiskAt(c: Config, e: State, f: Fill, n: nat): Tables
    requires n <= 9 && f.orderId in e.orders
  {
    var row := Filling(e.orders[f.orderId], f).row;
    Crashed(After(Conn(e.disk, None), FillProgram(f, row, f.symbol, BookStep(e.book, f)[f.symbol]), n))
  }

  // The state of a restart that found the fill recorded but not yet its order.
  ghost predicate OneFillShort(c: Config, r: State, f: Fill) {
    var fs := r.disk.fills;
    && Keyed(r.orders, r.registry, r.disk.orders) && r.disk.orders == r.orders
    && Replays(r.book, fs) && Books(c, r.entries, fs)
    && f.orderId in r.orders
    && r.orders[f.orderId].filled == Sum(fs, QtyFor(f.orderId)) - f.qty
    && (forall id :: id in r.orders && id != f.orderId ==> OrderAgrees(r.orders[id], fs))
    && (f.HasExec() ==> Seen(r, f))
  }

  // Crashed anywhere in the three transactions and restarted, the engine's positions and
  // P&L are the replay of its ledger. The views agree exactly when the crash did not fall
  // between the ledger's commit and the order's; there the order stays short of its ledger
  // sum by this one fill, and the fill's redelivery will be taken for a duplicate. The stored
  // positions are the book's exactly when the crash did not fall between the ledger's commit
  // and the position's; there the one of the fill's symbol is missing or stale, and no other.
  lemma CrashInFill(c: Config, e: State, f: Fill, n: nat)
    requires n <= 9 && Agrees(c, e) && Whole(e, f) && !Seen(e, f) && Fits(e, f)
    requires InTsOrder(e.disk.fills + [f])
    ensures UniqueClients(DiskAt(c, e, f, n).orders)
    ensures var r := CrashedInFill(c, e, f, n);
            && r.disk.fills == (if n < 3 then e.disk.fills else e.disk.fills + [f])
            && (Agrees(c, r) <==> !(3 <= n < 6))
            && (3 <= n < 6 ==> OneFillShort(c, r, f))
            && (n < 3 ==> SameViews(c, r, e))
            && (n >= 6 ==> SameViews(c, r, OnFill(c, e, f).0))
            && (PositionsStored(e) ==> (PositionsStored(r) <==> !(3 <= n < 9)))
            && (PositionsStored(e) && n < 9 ==>
                  forall s :: s in r.disk.positions && s != f.symbol ==> r.disk.positions[s] == Lookup(r.book, s))
  {
    hide Agrees, Load, OnFill, Filling, After, SameViews, OneFillShort, PositionsStored, IsApplied, Replays;
    DiskPoints(c, e, f, n);
    if n < 3 {
      InTsOrderPrefix(e.disk.fills, f);
      LoadAgrees(c, e);
      SameViewsSymmetric(c, e, Load(c, e.disk));
      SameTablesStored(c, e, Load(c, e.disk));
      StoredIsBook(Load(c, e.disk));
    } else if n < 6 {
      LoadShort(c, e, f);
      AgreesReplays(c, e);
      ShortReplays(c, Load(c, WithFill(e.disk, f)), f);
      if PositionsStored(e) {
        AheadIsStale(e, f, Load(c, WithFill(e.disk, f)));
      }
    } else {
      var r := OnFill(c, e, f).0;
      OnFillApplies(c, e, f);
      AppliedAgrees(c, e, f, r);
      AppliedLedger(c, e, f, r);
      LoadWithoutPositions(c, r, DiskAt(c, e, f, n));
      if PositionsStored(e) {
        if n < 9 {
          AgreesReplays(c, e);
          AgreesReplays(c, Load(c, DiskAt(c, e, f, n)));
          AheadIsStale(e, f, Load(c, DiskAt(c, e, f, n)));
        } else {
          AppliedStores(c, e, f, r);
          SameTablesStored(c, r, Load(c, DiskAt(c, e, f, n)));
        }
      }
    }
  }

  lemma StoredIsBook(e: State)
    ensures PositionsStored(e) ==> forall s :: s in e.disk.positions ==> e.disk.positions[s] == Lookup(e.book, s)
  {
  }

  lemma AppliedLedger(c: Config, e: State, f: Fill, r: State)
    requires IsApplied(c, e, f, r)
    ensures r.disk.fills == e.disk.fills + [f]
  {
  }

  lemma StoredByFill(c: Config, e: State, f: Fill, r: State)
    requires IsApplied(c, e, f, r)
    ensures f.symbol in BookStep(e.book, f)
    ensures r.disk.positions == e.disk.positions[f.symbol := BookStep(e.book, f)[f.symbol]]
  {
  }

  lemma AgreesReplays(c: Config, e: State)
    requires Agrees(c, e)
    ensures Replays(e.book, e.disk.fills)
  {
  }

  lemma ShortReplays(c: Config, r: State, f: Fill)
    requires OneFillShort(c, r, f)
    ensures Replays(r.book, r.disk.fills)
  {
  }

  lemma InTsOrderPrefix(fs: seq<Fill>, f: Fill)
    requires InTsOrder(fs + [f])
    ensures InTsOrder(fs)
  {
    forall i, j | 0 <= i < j < |fs| ensures fs[i].ts <= fs[j].ts {
      assert (fs + [f])[i].ts <= (fs + [f])[j].ts;
    }
  }

  lemma SameViewsSymmetric(c: Config, a: State, b: State)
    requires SameViews(c, a, b)
    ensures SameViews(c, b, a)
  {
  }

  lemma DiskPoints(c: Config, e: State, f: Fill, n: nat)
    requires n <= 9 && Agrees(c, e) && Whole(e, f) && !Seen(e, f) && Fits(e, f)
    ensures var r := OnFill(c, e, f).0;
            var d := DiskAt(c, e, f, n);
            && (n < 3 ==> d == e.disk)
            && (3 <= n < 6 ==> d == WithFill(e.disk, f))
            && (n >= 6 ==> d.orders == r.disk.orders && d.fills == r.disk.fills)
            && d.positions == if n < 9 then e.disk.positions else r.disk.positions
  {
    hide BookStep, PnlStep, Replays, Books, OrderAgrees, Filling, After;
    var o := e.orders[f.orderId];
    if o.status.Filled? && !o.confirmed {
      FilledIsFull(o, e.disk.fills);
    }
    FittingFill(e, f);
    var row := Filling(o, f).row;
    NewToTheLedger(c, e, f);
    KeyedRowFits(e.orders, e.registry, e.disk, row);
    OnFillApplies(c, e, f);
    BookStepHas(e.book, f);
    var t1 := WithFill(e.disk, f);
    assert OrderFits(t1, row) && WrittenRow(t1, row) == row;
    ProgramPoints(e.disk, f, row, f.symbol, BookStep(e.book, f)[f.symbol], n);
  }

  // load() never reads the positions table.
  lemma LoadWithoutPositions(c: Config, e: State, d: Tables)
    requires Agrees(c, e) && InTsOrder(e.disk.fills)
    requires d.orders == e.disk.orders && d.fills == e.disk.fills
    ensures UniqueClients(d.orders) && Agrees(c, Load(c, d)) && SameViews(c, Load(c, d), e) && Load(c, d).disk == d
  {
    LoadAgrees(c, e);
    assert Load(c, d) == Load(c, e.disk).(disk := d);
  }

  // What load() rebuilds over a ledger one fill ahead of the orders.
  lemma LoadedAhead(c: Config, e: State, f: Fill)
    requires Agrees(c, e) && InTsOrder(e.disk.fills + [f])
    ensures UniqueClients(e.disk.orders)
    ensures var r, fs := Load(c, WithFill(e.disk, f)), e.disk.fills + [f];
            && r.disk == WithFill(e.disk, f) && r.orders == e.orders && Keyed(r.orders, r.registry, r.disk.orders)
            && Replays(r.book, fs) && Books(c, r.entries, fs) && (f.HasExec() ==> Seen(r, f))
  {
    hide Worth, Sum, Replays, Books, InTsOrder, Keyed, OrderAgrees, ClaimsOf, UniqueClients;
    var fs := e.disk.fills + [f];
    ByTsOfSorted(fs);
    ClaimsKeyed(e.orders, e.registry, e.disk.orders);
    BookOfReplays(fs);
    EntriesOfBooks(c, fs);
    assert f in fs;
  }

  lemma LoadShort(c: Config, e: State, f: Fill)
    requires Agrees(c, e) && Whole(e, f) && !Seen(e, f) && Fits(e, f) && InTsOrder(e.disk.fills + [f])
    ensures UniqueClients(e.disk.orders)
    ensures var r := Load(c, WithFill(e.disk, f));
            OneFillShort(c, r, f) && !Agrees(c, r) && r.disk == WithFill(e.disk, f)
  {
    hide Worth, Sum, Replays, Books, InTsOrder, Keyed, OrderAgrees, Load;
    var fs := e.disk.fills;
    LoadedAhead(c, e, f);
    var r := Load(c, WithFill(e.disk, f));
    OrderIds(e);
    OrderFilled(e.orders[f.orderId], fs);
    SumOneMore(fs, f, QtyFor(f.orderId));
    forall id | id in e.orders && id != f.orderId ensures OrderAgrees(r.orders[id], fs + [f]) {
      OtherOrderKept(e.orders[id], fs, f);
    }
    ShortDisagrees(c, r, f);
  }

  lemma OrderIds(e: State)
    requires Keyed(e.orders, e.registry, e.disk.orders)
    ensures forall id :: id in e.orders ==> e.orders[id].orderId == id
  {
  }

  lemma OrderFilled(o: OrderRow, fs: seq<Fill>)
    requires OrderAgrees(o, fs)
    ensures o.filled == Sum(fs, QtyFor(o.orderId))
  {
  }

  lemma ShortDisagrees(c: Config, r: State, f: Fill)
    requires OneFillShort(c, r, f)
    ensures !Agrees(c, r)
  {
    hide Worth, Sum, Replays, Books;
  }

  // With Store.apply_fill, one transaction for all three rows, every crash point restarts
  // into agreeing views.
  lemma AtomicFillRecovers(c: Config, e: State, f: Fill, n: nat)
    requires n <= 5 && Agrees(c, e) && Whole(e, f) && !Seen(e, f) && Fits(e, f)
    requires InTsOrder(e.disk.fills + [f])
    ensures var row := Filling(e.orders[f.orderId], f).row;
            var d := Crashed(After(Conn(e.disk, None),
                                   ApplyFillTransaction(f, row, f.symbol, BookStep(e.book, f)[f.symbol]), n));
            && UniqueClients(d.orders)
            && Agrees(c, Load(c, d))
            && SameViews(c, Load(c, d), if n < 5 then e else OnFill(c, e, f).0)
            && (PositionsStored(e) ==> PositionsStored(Load(c, d)))
  {
    hide Agrees, Load, OnFill, Filling, After, SameViews, PositionsStored;
    var row := Filling(e.orders[f.orderId], f).row;
    BookStepHas(e.book, f);
    RowFits(c, e, f);
    ApplyFillIsAtomic(e.disk, f, row, f.symbol, BookStep(e.book, f)[f.symbol], n);
    InTsOrderPrefix(e.disk.fills, f);
    if n < 5 {
      LoadAgrees(c, e);
      SameViewsSymmetric(c, e, Load(c, e.disk));
      SameTablesStored(c, e, Load(c, e.disk));
    } else {
      var r := OnFill(c, e, f).0;
      OnFillApplies(c, e, f);
      AppliedAgrees(c, e, f, r);
      assert r.disk.orders == e.orders[f.orderId := row] && e.disk.orders == e.orders by {
        AgreesOnDisk(c, e);
      }
      var d := WithPosition(WithOrder(WithFill(e.disk, f), row), f.symbol, BookStep(e.book, f)[f.symbol]);
      LoadWithoutPositions(c, r, d);
      StoredByFill(c, e, f, r);
      if PositionsStored(e) {
        AppliedStores(c, e, f, r);
        SameTablesStored(c, r, Load(c, d));
      }
    }
  }

  lemma AgreesOnDisk(c: Config, e: State)
    requires Agrees(c, e)
    ensures e.disk.orders == e.orders
  {
  }

  lemma RowFits(c: Config, e: State, f: Fill)
    requires Agrees(c, e) && Whole(e, f) && !Seen(e, f) && Fits(e, f)
    ensures var row := Filling(e.orders[f.orderId], f).row;
            && FillFits(e.disk, f) && OrderFits(e.disk, row) && OrderFits(WithFill(e.disk, f), row)
            && row.orderId == f.orderId
            && WrittenRow(e.disk, row) == row && WrittenRow(WithFill(e.disk, f), row) == row
  {
    hide Filling, Replays, Books, OrderAgrees;
    var o := e.orders[f.orderId];
    if o.status.Filled? && !o.confirmed {
      FilledIsFull(o, e.disk.fills);
    }
    FittingFill(e, f);
    NewToTheLedger(c, e, f);
    KeyedRowFits(e.orders, e.registry, e.disk, Filling(o, f).row);
  }
}
