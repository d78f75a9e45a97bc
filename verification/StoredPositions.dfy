// Over which runs the stored positions are the book's too: views and tables together.

module StoredPositions {
  import opened Models
  import opened Orders
  import opened Positions
  import opened Settings
  import opened Pnl
  import opened Store
  import opened Idempotency
  import opened EngineSpec
  import opened Views
  import opened Reloading
  import opened EngineRuns
  import opened AgreementRuns

  // A crash between the order's commit and the position's.
  predicate Strands(e: State, ev: Event) {
    ev.FillCrash? && ev.commits == 2 && Takes(e, ev.crashFill)
  }

  // ----- Events that write no fill -----

  predicate SameLedger(a: Tables, b: Tables) {
    a.fills == b.fills && a.positions == b.positions
  }

  lemma StoredKeepsLedger(e: State, row: OrderRow)
    ensures SameLedger(Stored(e, row).disk, e.disk)
  {
    hide OrderFits, WrittenRow;
  }

  lemma AckKeepsLedger(e: State, id: OrderId, ack: Ack)
    requires id in e.orders
    ensures SameLedger(SubmitAck(e, id, ack).disk, e.disk)
  {
    hide Acked, Stored, Sent, SameLedger;
    var r := Acked(e.orders[id], ack);
    if r.error.None? {
      var sent := if r.row.clientId.Some? then e.(registry := Sent(e.registry, r.row.clientId.value)) else e;
      StoredKeepsLedger(sent, r.row);
    }
    SameAsIs(e.disk);
  }

  lemma SameAsIs(d: Tables)
    ensures SameLedger(d, d)
  {
  }

  lemma CancelKeepsLedger(e: State, id: OrderId, ack: Ack)
    requires id in e.orders
    ensures SameLedger(CancelAck(e, id, ack).disk, e.disk)
  {
    hide Cancelling, Stored, SameLedger;
    var r := if ack.status.Cancelled? then Cancelling(e.orders[id], None, false) else Outcome(e.orders[id], None);
    StoredKeepsLedger(e, r.row);
    SameAsIs(e.disk);
  }

  lemma SubmitKeepsLedger(e: State, req: Request, id: OrderId)
    ensures SameLedger(SubmitBegin(e, req, id).0.disk, e.disk)
  {
    hide Available, OrderFits, WrittenRow, RequestedRow, Touched, Claimed;
  }

  lemma RestartHasDisk(c: Config, e: State, d: Tables)
    requires Keyed(e.orders, e.registry, d.orders)
    ensures Restarted(c, e, d).disk == d
  {
    RestartKeyed(c, e, d);
  }

  // Every event but a fill's leaves ledger and positions as they are on disk.
  lemma OthersKeepLedger(c: Config, e: State, ev: Event)
    requires KeyedState(e) && !ev.FillArrives? && !ev.FillCrash?
    ensures SameLedger(Step(c, e, ev).disk, e.disk)
  {
    hide Keyed, SubmitBegin, SubmitAck, CancelAck, ConfirmAck, Restarted, Confirming, SameLedger;
    SameAsIs(e.disk);
    match ev {
      case SubmitOrder(req, id) =>
        SubmitKeepsLedger(e, req, id);
      case SubmitCrash(req, id, committed) =>
        if id !in e.orders {
          SubmitKeepsLedger(e, req, id);
          SubmitKeyed(e, req, id);
          var r := SubmitBegin(e, req, id).0;
          RestartHasDisk(c, if committed then r else e, if committed then r.disk else e.disk);
          RestartKeyed(c, r, r.disk);
          RestartedIs(c, e, r, r.disk);
        }
      case BrokerAck(id, ack) =>
        if id in e.orders {
          AckKeepsLedger(e, id, ack);
        }
      case CancelReply(id, ack) =>
        if id in e.orders {
          CancelKeepsLedger(e, id, ack);
        }
      case ConfirmReply(id, verdict) =>
        if id in e.orders {
          ConfirmIsAWrite(e, id, verdict);
          StoredKeepsLedger(e, Confirming(e.orders[id], verdict));
        }
      case MarkMoves(_, _) =>
      case Restarts =>
        RestartHasDisk(c, e, e.disk);
    }
  }

  lemma ConfirmIsAWrite(e: State, id: OrderId, verdict: OrderStatus)
    requires id in e.orders
    ensures ConfirmAck(e, id, verdict) == Stored(e, Confirming(e.orders[id], verdict))
  {
    hide Stored, Confirming;
  }

  // ----- Fills -----

  // A fill that keeps the views together and writes anything is applied whole.
  lemma FillStores(c: Config, e: State, f: Fill)
    requires Agrees(c, e) && PositionsStored(e) && KeepsTogether(c, e, FillArrives(f))
    ensures PositionsStored(OnFill(c, e, f).0)
  {
    hide Agrees, OnFill, IsApplied, PositionsStored, Whole, Fits, HalfApplies;
    if Seen(e, f) {
      RepeatIsNothing(c, e, f);
    } else if Fits(e, f) {
      OnFillApplies(c, e, f);
      AppliedStores(c, e, f, OnFill(c, e, f).0);
    } else {
      Untouched(c, e, f);
      NotedStores(e, f);
    }
  }

  lemma NotedStores(e: State, f: Fill)
    requires PositionsStored(e)
    ensures PositionsStored(Noted(e, f))
  {
  }

  // Whatever was stored of its symbol before, the next fill that is applied stores the
  // position of the book.
  lemma NextFillStores(c: Config, e: State, f: Fill)
    requires Agrees(c, e) && Whole(e, f) && Fits(e, f) && !Seen(e, f)
    ensures var r := OnFill(c, e, f).0;
            f.symbol in r.disk.positions && r.disk.positions[f.symbol] == Lookup(r.book, f.symbol)
  {
    hide Agrees, OnFill, Whole, Fits, Filling, BookStep, PnlStep;
    OnFillApplies(c, e, f);
  }

  lemma CrashStoresExactly(c: Config, e: State, f: Fill, commits: nat)
    requires Agrees(c, e) && PositionsStored(e) && KeepsTogether(c, e, FillCrash(f, commits))
    ensures PositionsStored(Step(c, e, FillCrash(f, commits))) <==> !(commits == 2 && Takes(e, f))
  {
    hide Agrees, OnFill, Takes, Whole, Restarted, PositionsStored, CommittedDisk, ReloadsAlike;
    hide Replays, OnlyOwnRow, IsApplied, Fits, Filling;
    var d := CommittedDisk(c, e, f, commits);
    var r := Step(c, e, FillCrash(f, commits));
    AgreesIsRows(c, e);
    FillCrashAgreesExactly(c, e, f, commits);
    AgreesIsRows(c, r);
    FillKeyed(c, e, f, commits);
    OwnRowKeyed(e, f, d);
    RestartHasDisk(c, e, d);
    assert r.disk == d;
    if !Takes(e, f) || commits == 0 || (commits == 1 && KnowsExec(e.disk, f.exec)) {
      OnFillAgreesExactly(c, e, f);
      NothingCommitted(c, e, f, commits);
      SameTablesStored(c, e, r);
    } else {
      TakesFits(e, f);
      OnFillApplies(c, e, f);
      if commits == 2 {
        WholeIsNew(c, e, f);
        DiskOfTaken(c, e, f, commits);
        PositionNotCommitted(c, e, f, commits);
        AheadIsStale(e, f, r);
      } else {
        AllCommitted(c, e, f, commits);
        AllCommittedStores(c, e, f, r);
      }
    }
  }

  lemma AllCommittedStores(c: Config, e: State, f: Fill, r: State)
    requires Agrees(c, e) && PositionsStored(e) && Whole(e, f) && !Seen(e, f) && Fits(e, f)
    requires Agrees(c, r) && r.disk == CommittedDisk(c, e, f, 3)
    ensures PositionsStored(r)
  {
    hide Agrees, OnFill, Whole, PositionsStored, CommittedDisk, IsApplied, Fits;
    var applied := OnFill(c, e, f).0;
    OnFillApplies(c, e, f);
    AppliedStores(c, e, f, applied);
    AppliedAgrees(c, e, f, applied);
    AllCommitted(c, e, f, 3);
    SameTablesStored(c, applied, r);
  }

  lemma TakesFits(e: State, f: Fill)
    requires Takes(e, f)
    ensures Fits(e, f) && !Seen(e, f)
  {
  }

  lemma NothingCommitted(c: Config, e: State, f: Fill, commits: nat)
    requires !OnFill(c, e, f).1.Applied? || commits == 0 || (commits == 1 && KnowsExec(e.disk, f.exec))
    ensures CommittedDisk(c, e, f, commits) == e.disk
  {
    hide OnFill;
  }

  lemma PositionNotCommitted(c: Config, e: State, f: Fill, commits: nat)
    requires commits <= 2
    ensures CommittedDisk(c, e, f, commits).positions == e.disk.positions
  {
    hide OnFill;
  }

  lemma AllCommitted(c: Config, e: State, f: Fill, commits: nat)
    requires commits > 2 && OnFill(c, e, f).1.Applied?
    ensures CommittedDisk(c, e, f, commits) == OnFill(c, e, f).0.disk == CommittedDisk(c, e, f, 3)
  {
    hide OnFill;
  }

  // ----- One event -----

  // From agreeing views whose positions are stored, an event that keeps the views together
  // keeps the positions stored exactly when it does not strand one.
  lemma StepStoresExactly(c: Config, e: State, ev: Event)
    requires Agrees(c, e) && PositionsStored(e) && KeepsTogether(c, e, ev)
    ensures PositionsStored(Step(c, e, ev)) <==> !Strands(e, ev)
  {
    hide Agrees, PositionsStored, OnFill, Takes, KeepsTogether, Keyed;
    StepAgreesExactly(c, e, ev);
    match ev {
      case FillArrives(f) =>
        FillStores(c, e, f);
      case FillCrash(f, commits) =>
        CrashStoresExactly(c, e, f, commits);
      case _ =>
        AgreesIsRows(c, e);
        OthersKeepLedger(c, e, ev);
        SameTablesStored(c, e, Step(c, e, ev));
    }
  }

  // ----- Whole runs -----

  ghost predicate AllTogether(c: Config, e: State) {
    Agrees(c, e) && PositionsStored(e)
  }

  ghost predicate KeepsAllTogether(c: Config, e: State, ev: Event) {
    KeepsTogether(c, e, ev) && !Strands(e, ev)
  }

  ghost predicate AlwaysAllTogether(c: Config, evs: seq<Event>) {
    forall n :: 0 <= n <= |evs| ==> AllTogether(c, Run(c, evs[..n]))
  }

  ghost predicate AlwaysKeepsAllTogether(c: Config, evs: seq<Event>) {
    forall n :: 0 <= n < |evs| ==> KeepsAllTogether(c, Run(c, evs[..n]), evs[n])
  }

  lemma StepKeepsAllExactly(c: Config, e: State, ev: Event)
    requires AllTogether(c, e)
    ensures AllTogether(c, Step(c, e, ev)) <==> KeepsAllTogether(c, e, ev)
  {
    hide Agrees, PositionsStored, Step, KeepsTogether, Strands;
    StepAgreesExactly(c, e, ev);
    if KeepsTogether(c, e, ev) {
      StepStoresExactly(c, e, ev);
    }
  }

  // Over every run: all views agree and every stored position is the book's, all along, if
  // and only if every event keeps the views together and none strands a position.
  lemma {:induction false} RunStoresExactly(c: Config, evs: seq<Event>)
    ensures AlwaysAllTogether(c, evs) <==> AlwaysKeepsAllTogether(c, evs)
  {
    hide Step, AllTogether, KeepsAllTogether, AlwaysAllTogether, AlwaysKeepsAllTogether;
    if evs == [] {
      TogetherAtStart(c);
    } else {
      var before := evs[..|evs| - 1];
      RunStoresExactly(c, before);
      TogetherNow(c, before);
      TogetherOneMore(c, evs);
      if AllTogether(c, Run(c, before)) {
        StepKeepsAllExactly(c, Run(c, before), evs[|evs| - 1]);
      }
    }
  }

  lemma TogetherAtStart(c: Config)
    ensures AlwaysAllTogether(c, []) && AlwaysKeepsAllTogether(c, [])
  {
    hide Agrees, PositionsStored;
    StartAgrees(c);
  }

  lemma TogetherNow(c: Config, evs: seq<Event>)
    ensures AlwaysAllTogether(c, evs) ==> AllTogether(c, Run(c, evs))
  {
    hide AllTogether, Run;
    assert evs[..|evs|] == evs;
  }

  lemma TogetherOneMore(c: Config, evs: seq<Event>)
    requires evs != []
    ensures var before, last := evs[..|evs| - 1], evs[|evs| - 1];
            && (AlwaysAllTogether(c, evs) <==> AlwaysAllTogether(c, before) && AllTogether(c, Run(c, evs)))
            && (AlwaysKeepsAllTogether(c, evs) <==>
                  AlwaysKeepsAllTogether(c, before) && KeepsAllTogether(c, Run(c, before), last))
  {
    hide AllTogether, KeepsAllTogether, Run;
    var before := evs[..|evs| - 1];
    assert evs[..|evs|] == evs;
    forall k | 0 <= k <= |before| ensures before[..k] == evs[..k] {
    }
  }
}
