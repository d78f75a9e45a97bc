// Over which runs of the engine its views agree: an exact condition, event by event.

module AgreementRuns {
  import opened Models
  import opened Sums
  import opened Ledger
  import opened Orders
  import opened Positions
  import opened Settings
  import opened Pnl
  import opened Store
  import opened EngineSpec
  import opened Views
  import opened Recovery
  import opened Reloading
  import opened EngineRuns

  // ----- Reloading a ledger -----

  lemma SameSymbols(fs: seq<Fill>)
    ensures Symbols(ByTs(fs)) == Symbols(fs)
  {
    hide ByTs;
    SameFills(fs);
  }

  // What load() rebuilds from a ledger is its replay exactly when it reloads alike.
  lemma RebuiltExactly(c: Config, fs: seq<Fill>)
    ensures Replays(BookOf(ByTs(fs)), fs) && Books(c, EntriesOf(c, ByTs(fs)), fs) <==> ReloadsAlike(c, fs)
  {
    hide PosRun, EntryRun, Symbols, ByTs, Lookup, EntryOf;
    var gs := ByTs(fs);
    SameSymbols(fs);
    BookOfReplays(gs);
    EntriesOfBooks(c, gs);
    if ReloadsAlike(c, fs) {
      forall s: Symbol
        ensures Lookup(BookOf(gs), s) == PosRun(fs, s) && EntryOf(c, EntriesOf(c, gs), s) == EntryRun(c, fs, s)
      {
        assert SymbolReloadsAlike(c, fs, s);
      }
    } else {
      var s: Symbol :| !SymbolReloadsAlike(c, fs, s);
      assert Lookup(BookOf(gs), s) == PosRun(gs, s) && EntryOf(c, EntriesOf(c, gs), s) == EntryRun(c, gs, s);
    }
  }

  // The parts of agreement that a reload carries over as they are.
  ghost predicate RowsAgree(orders: map<OrderId, OrderRow>, fs: seq<Fill>) {
    && (forall id :: id in orders ==> OrderAgrees(orders[id], fs))
    && (forall f :: f in fs ==> Matches(orders, f))
    && Distinct(fs)
  }

  lemma AgreesIsRows(c: Config, e: State)
    requires Agrees(c, e)
    ensures RowsAgree(e.orders, e.disk.fills) && e.disk.orders == e.orders && KeyedState(e)
    ensures Replays(e.book, e.disk.fills) && Books(c, e.entries, e.disk.fills)
  {
    hide Keyed, Replays, Books, OrderAgrees, Distinct;
  }

  lemma ExecsOfPermuted(fs: seq<Fill>)
    ensures ExecsOf(ByTs(fs)) == ExecsOf(fs)
  {
    hide ByTs;
    SameFills(fs);
  }

  // The engine reloaded from a disk agrees exactly when the disk's orders and ledger do and
  // the ledger reloads alike.
  lemma ReloadExactly(c: Config, e: State, d: Tables)
    requires Keyed(e.orders, e.registry, d.orders)
    ensures Agrees(c, Restarted(c, e, d)) <==> RowsAgree(d.orders, d.fills) && ReloadsAlike(c, d.fills)
  {
    hide Keyed, Replays, Books, OrderAgrees, Distinct, ReloadsAlike, ExecsOf, ByTs;
    RestartKeyed(c, e, d);
    RebuiltExactly(c, d.fills);
    ExecsOfPermuted(d.fills);
    var r := Restarted(c, e, d);
    assert r == Load(c, d);
    assert KeyedState(r);
  }

  // ----- One event -----

  // What an event must meet for the views to stay together, reloading apart.
  ghost predicate Fair(e: State, ev: Event) {
    match ev
    case BrokerAck(id, ack) =>
      id in e.orders ==> !AckRefused(e.orders[id], ack) || e.orders[id].brokerId.Some?
    case FillArrives(f) => Seen(e, f) || (!HalfApplies(e, f) && (Fits(e, f) ==> Whole(e, f)))
    case FillCrash(f, commits) => Takes(e, f) && commits > 0 ==>
      (commits == 1 && KnowsExec(e.disk, f.exec)) || (commits > 1 && Whole(e, f))
    case _ => true
  }

  // The event ends in a restart.
  predicate RestartsIn(e: State, ev: Event) {
    ev.Restarts? || ev.FillCrash? || (ev.SubmitCrash? && ev.crashId !in e.orders)
  }

  // The ledger that restart finds.
  function LedgerFound(e: State, ev: Event): seq<Fill> {
    if ev.FillCrash? && Takes(e, ev.crashFill) && ev.commits > 0 && !KnowsExec(e.disk, ev.crashFill.exec)
    then e.disk.fills + [ev.crashFill]
    else e.disk.fills
  }

  ghost predicate KeepsTogether(c: Config, e: State, ev: Event) {
    Fair(e, ev) && (RestartsIn(e, ev) ==> ReloadsAlike(c, LedgerFound(e, ev)))
  }

  lemma RestartAgreesExactly(c: Config, e: State)
    requires Agrees(c, e)
    ensures Agrees(c, Restarted(c, e, e.disk)) <==> ReloadsAlike(c, e.disk.fills)
  {
    hide Agrees, ReloadsAlike, RowsAgree, Restarted;
    AgreesIsRows(c, e);
    ReloadExactly(c, e, e.disk);
  }

  lemma SubmitCrashAgreesExactly(c: Config, e: State, req: Request, id: OrderId, committed: bool)
    requires Agrees(c, e) && id !in e.orders
    ensures Agrees(c, Step(c, e, SubmitCrash(req, id, committed))) <==> ReloadsAlike(c, e.disk.fills)
  {
    hide Agrees, ReloadsAlike, RowsAgree, Restarted, SubmitBegin;
    var r := SubmitBegin(e, req, id).0;
    SubmitAgrees(c, e, req, id);
    AgreesIsRows(c, e);
    AgreesIsRows(c, r);
    if committed {
      RestartAgreesExactly(c, r);
      RestartKeyed(c, r, r.disk);
      RestartedIs(c, e, r, r.disk);
    } else {
      RestartAgreesExactly(c, e);
    }
  }

  // Between the ledger's commit and the order's the disk's order is a fill short.
  lemma OrderShortOnDisk(c: Config, e: State, f: Fill)
    requires Agrees(c, e) && f.orderId in e.orders
    ensures !RowsAgree(e.disk.orders, e.disk.fills + [f])
  {
    hide Agrees, Replays, Books, Distinct;
    AgreesIsRows(c, e);
    FilledIsLedger(c, e, f.orderId);
    SumOneMore(e.disk.fills, f, QtyFor(f.orderId));
  }

  // What is on disk once ledger and order are committed.
  lemma DiskOfTaken(c: Config, e: State, f: Fill, commits: nat)
    requires Agrees(c, e) && Takes(e, f) && commits > 0
    ensures var d := CommittedDisk(c, e, f, commits);
            && d.fills == (if KnowsExec(e.disk, f.exec) then e.disk.fills else e.disk.fills + [f])
            && d.orders == if commits == 1 then e.disk.orders
                           else e.disk.orders[f.orderId := Filling(e.orders[f.orderId], f).row]
  {
    hide Agrees, Filling, Recorded, WrittenRow;
    AgreesIsRows(c, e);
    FitsTakes(c, e, f);
    RowWrites(e, f);
    OnFillDisk(c, e, f);
  }

  lemma OnFillDisk(c: Config, e: State, f: Fill)
    requires Agrees(c, e) && Takes(e, f)
    ensures OnFill(c, e, f).0.disk.orders == e.disk.orders[f.orderId := Filling(e.orders[f.orderId], f).row]
  {
    hide Agrees, Filling, BookStep, PnlStep;
    AgreesIsRows(c, e);
    FitsTakes(c, e, f);
    RowWrites(e, f);
    BookStepHas(e.book, f);
  }

  // With order and ledger both committed, the disk agrees exactly when the fill was whole.
  lemma CommittedAgreesExactly(c: Config, e: State, f: Fill)
    requires Agrees(c, e) && Takes(e, f)
    ensures var d := CommittedDisk(c, e, f, 2);
            RowsAgree(d.orders, d.fills) <==> Whole(e, f)
  {
    hide Agrees, OnFill, CommittedDisk, Filling, OrderAgrees, Distinct, Fits, Whole;
    DiskOfTaken(c, e, f, 2);
    AgreesIsRows(c, e);
    FitsTakes(c, e, f);
    var r := OnFill(c, e, f).0;
    if Whole(e, f) {
      OnFillApplies(c, e, f);
      AppliedAgrees(c, e, f, r);
      AgreesIsRows(c, r);
    } else {
      NotWholeRows(c, e, f);
    }
  }

  lemma NotWholeRows(c: Config, e: State, f: Fill)
    requires Agrees(c, e) && Takes(e, f) && !Whole(e, f)
    ensures var row := Filling(e.orders[f.orderId], f).row;
            !RowsAgree(e.orders[f.orderId := row],
                       if KnowsExec(e.disk, f.exec) then e.disk.fills else e.disk.fills + [f])
  {
    hide Agrees, Filling, Distinct;
    FitsTakes(c, e, f);
    FilledIsLedger(c, e, f.orderId);
    var row := Filling(e.orders[f.orderId], f).row;
    if !KnowsExec(e.disk, f.exec) {
      assert f in e.disk.fills + [f] && !Matches(e.orders[f.orderId := row], f);
    } else {
      assert !OrderAgrees(row, e.disk.fills) && e.orders[f.orderId := row][f.orderId] == row;
    }
  }

  lemma FillCrashAgreesExactly(c: Config, e: State, f: Fill, commits: nat)
    requires Agrees(c, e)
    ensures Agrees(c, Step(c, e, FillCrash(f, commits))) <==> KeepsTogether(c, e, FillCrash(f, commits))
  {
    hide Agrees, Takes, Whole, Restarted, ReloadsAlike, RowsAgree, OnFill, OnlyOwnRow, Filling;
    AgreesIsRows(c, e);
    FillKeyed(c, e, f, commits);
    var d := CommittedDisk(c, e, f, commits);
    OwnRowKeyed(e, f, d);
    ReloadExactly(c, e, d);
    OnFillAgreesExactly(c, e, f);
    if Takes(e, f) && commits > 0 {
      TakesOwn(e, f);
      DiskOfTaken(c, e, f, commits);
      if commits == 1 {
        OrderShortOnDisk(c, e, f);
      } else {
        DiskOfTaken(c, e, f, 2);
        CommittedAgreesExactly(c, e, f);
        WholeIsNew(c, e, f);
      }
    }
  }

  lemma TakesOwn(e: State, f: Fill)
    requires Takes(e, f)
    ensures f.orderId in e.orders && !Seen(e, f)
  {
  }

  lemma WholeIsNew(c: Config, e: State, f: Fill)
    requires Agrees(c, e) && Takes(e, f)
    ensures Whole(e, f) ==> !KnowsExec(e.disk, f.exec)
  {
    hide Agrees, Whole, Fits;
    if Whole(e, f) {
      NewToTheLedger(c, e, f);
    }
  }

  // From agreeing views one event leads to agreeing views exactly when it keeps together.
  lemma StepAgreesExactly(c: Config, e: State, ev: Event)
    requires Agrees(c, e)
    ensures Agrees(c, Step(c, e, ev)) <==> KeepsTogether(c, e, ev)
  {
    hide Agrees, SubmitBegin, SubmitAck, OnFill, CancelAck, ConfirmAck, Restarted, CommittedDisk;
    hide ReloadsAlike, AckRefused, Takes, Whole, Fits, HalfApplies;
    match ev {
      case SubmitOrder(req, id) =>
        if id !in e.orders {
          SubmitAgrees(c, e, req, id);
        }
      case SubmitCrash(req, id, committed) =>
        if id !in e.orders {
          SubmitCrashAgreesExactly(c, e, req, id, committed);
        }
      case BrokerAck(id, ack) =>
        if id in e.orders {
          AckAgreesExactly(c, e, id, ack);
        }
      case FillArrives(f) =>
        OnFillAgreesExactly(c, e, f);
      case FillCrash(f, commits) =>
        FillCrashAgreesExactly(c, e, f, commits);
      case CancelReply(id, ack) =>
        if id in e.orders {
          CancelAgrees(c, e, id, ack);
        }
      case ConfirmReply(id, verdict) =>
        if id in e.orders {
          ConfirmAgrees(c, e, id, verdict);
        }
      case MarkMoves(s, price) =>
        MarkAgrees(c, e, s, price);
      case Restarts =>
        RestartAgreesExactly(c, e);
    }
  }

  lemma MarkAgrees(c: Config, e: State, s: Symbol, price: real)
    requires Agrees(c, e)
    ensures Agrees(c, e.(marks := e.marks[s := price]))
  {
    hide Keyed, Replays, Books, OrderAgrees, Distinct;
  }

  // ----- Whole runs -----

  ghost predicate AlwaysAgrees(c: Config, evs: seq<Event>) {
    forall n :: 0 <= n <= |evs| ==> Agrees(c, Run(c, evs[..n]))
  }

  ghost predicate AlwaysKeepsTogether(c: Config, evs: seq<Event>) {
    forall n :: 0 <= n < |evs| ==> KeepsTogether(c, Run(c, evs[..n]), evs[n])
  }

  // Over every run, of any submits, acks, fills, verdicts, restarts and crashes in any
  // interleaving: the views agree all along if and only if every event keeps them together.
  lemma {:induction false} RunAgreesExactly(c: Config, evs: seq<Event>)
    ensures AlwaysAgrees(c, evs) <==> AlwaysKeepsTogether(c, evs)
  {
    hide Step, Agrees, KeepsTogether, AlwaysAgrees, AlwaysKeepsTogether;
    if evs == [] {
      AgreesAtStart(c);
    } else {
      var before := evs[..|evs| - 1];
      RunAgreesExactly(c, before);
      AgreesNow(c, before);
      AgreesOneMore(c, evs);
      if Agrees(c, Run(c, before)) {
        StepAgreesExactly(c, Run(c, before), evs[|evs| - 1]);
      }
    }
  }

  lemma AgreesAtStart(c: Config)
    ensures AlwaysAgrees(c, []) && AlwaysKeepsTogether(c, [])
  {
    hide Agrees;
    StartAgrees(c);
  }

  lemma AgreesNow(c: Config, evs: seq<Event>)
    ensures AlwaysAgrees(c, evs) ==> Agrees(c, Run(c, evs))
  {
    hide Agrees, Run;
    assert evs[..|evs|] == evs;
  }

  lemma AgreesOneMore(c: Config, evs: seq<Event>)
    requires evs != []
    ensures var before, last := evs[..|evs| - 1], evs[|evs| - 1];
            && (AlwaysAgrees(c, evs) <==> AlwaysAgrees(c, before) && Agrees(c, Run(c, evs)))
            && (AlwaysKeepsTogether(c, evs) <==>
                  AlwaysKeepsTogether(c, before) && KeepsTogether(c, Run(c, before), last))
  {
    hide Agrees, KeepsTogether, Run;
    var before := evs[..|evs| - 1];
    assert evs[..|evs|] == evs;
    forall k | 0 <= k <= |before| ensures before[..k] == evs[..k] {
    }
  }

  // In particular, fair events and restarts that find every symbol flat or written in
  // timestamp order keep all views together all along.
  lemma TimelyRunAgrees(c: Config, evs: seq<Event>)
    requires forall n :: 0 <= n < |evs| ==>
      Fair(Run(c, evs[..n]), evs[n])
      && (RestartsIn(Run(c, evs[..n]), evs[n]) ==> FlatOrTimely(LedgerFound(Run(c, evs[..n]), evs[n])))
    ensures AlwaysAgrees(c, evs)
  {
    hide Run, Fair, FlatOrTimely, ReloadsAlike, LedgerFound, RestartsIn;
    forall n | 0 <= n < |evs| ensures KeepsTogether(c, Run(c, evs[..n]), evs[n]) {
      var e, ev := Run(c, evs[..n]), evs[n];
      if RestartsIn(e, ev) {
        FlatOrTimelyReloadsAlike(c, LedgerFound(e, ev));
      }
    }
    RunAgreesExactly(c, evs);
  }

  // In every such run, at every point, for every symbol: position book, P&L basis, stored
  // ledger and order records give one net quantity.
  lemma RunHasOneQuantity(c: Config, evs: seq<Event>, n: nat, s: Symbol)
    requires AlwaysKeepsTogether(c, evs) && n <= |evs|
    ensures var e := Run(c, evs[..n]);
            && Held(e, s) == Net(e.disk.fills, s) == EntryOf(c, e.entries, s).basis.Qty()
                 == Over(e.orders.Keys, SignedFilled(e.orders, s))
            && (c.basis.AVERAGE? ==> EntryOf(c, e.entries, s).basis == Blended(Lookup(e.book, s).basis))
  {
    hide Agrees, KeepsTogether, Run, Net, EntryOf, Lookup, Held, Over;
    RunAgreesExactly(c, evs);
    OneQuantity(c, Run(c, evs[..n]), s);
  }
}
