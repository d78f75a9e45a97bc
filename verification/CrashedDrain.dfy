// The closed system when the engine crashes while it applies the stream's next fill.

module CrashedDrain {
  import opened Models
  import opened Sums
  import opened Ledger
  import opened Orders
  import opened Store
  import opened EngineSpec
  import opened Views
  import opened Reloading
  import opened EngineRuns
  import opened AgreementRuns
  import opened StoredPositions
  import opened ClosedSystem
  import opened EndToEnd
  import Oversell
  import BrokerBook

  // Taken off the queue, the fill is lost to the engine: nothing of it was committed, or its
  // order was confirmed.
  predicate Lost(e: State, f: Fill, commits: nat) {
    commits == 0 || (f.orderId in e.orders && e.orders[f.orderId].confirmed)
  }

  lemma NextIsLater(x: Sys)
    requires Streams(x) && x.brk.queue != []
    ensures InTsOrder(x.eng.disk.fills + [x.brk.queue[0]])
  {
    hide Pick, BrokerBook.AccountRun;
    var kept := x.kept + [true];
    PickInOrder(x.emitted, kept, x.brk.counter, true);
    PickOneMore(x.emitted, x.kept);
  }

  lemma PickOneMore(fs: seq<Fill>, kept: seq<bool>)
    requires |kept| < |fs|
    ensures Pick(fs, kept + [true], true) == Pick(fs, kept, true) + [fs[|kept|]]
  {
    assert (kept + [true])[..|kept|] == kept;
  }

  // What the crash leaves in the ledger.
  lemma CrashLedger(p: Setup, x: Sys, commits: nat)
    requires SysInv(p, x) && x.brk.queue != []
    ensures var f := x.brk.queue[0];
            && f.orderId in x.eng.orders
            && CommittedDisk(p.config, x.eng, f, commits).fills
                 == (if Lost(x.eng, f, commits) then x.eng.disk.fills else x.eng.disk.fills + [f])
    ensures var f := x.brk.queue[0];
            Whole(x.eng, f) && !KnowsExec(x.eng.disk, f.exec)
              && (Takes(x.eng, f) <==> !x.eng.orders[f.orderId].confirmed)
  {
    hide Agrees, Streams, Linked, OnFill, Whole, Fits, Takes, CommittedDisk;
    var f := x.brk.queue[0];
    StreamsFacts(x);
    DrainExactly(p, x);
    HeadIsNew(p, x);
    NewToTheLedger(p.config, x.eng, f);
    OnFillAgreesExactly(p.config, x.eng, f);
    if Lost(x.eng, f, commits) {
      NothingCommitted(p.config, x.eng, f, commits);
    } else {
      DiskOfTaken(p.config, x.eng, f, commits);
    }
  }

  lemma CrashedEngine(p: Setup, x: Sys, commits: nat)
    requires SysInv(p, x) && x.brk.queue != []
    ensures var f, e := x.brk.queue[0], Step(p.config, x.eng, FillCrash(x.brk.queue[0], commits));
            && e.disk == CommittedDisk(p.config, x.eng, f, commits)
            && forall s: Symbol :: Held(e, s) == Net(e.disk.fills, s)
  {
    hide Agrees, Streams, Linked, OnlyOwnRow, Restarted, CommittedDisk, Filling, Held, Net;
    var f := x.brk.queue[0];
    AgreesIsRows(p.config, x.eng);
    FillKeyed(p.config, x.eng, f, commits);
    OwnRowKeyed(x.eng, f, CommittedDisk(p.config, x.eng, f, commits));
    Oversell.ReloadHolds(p.config, x.eng, CommittedDisk(p.config, x.eng, f, commits));
  }

  // In every reachable state, crashed after any number of on_fill's commits and restarted:
  // the engine's views agree unless exactly the ledger was committed, and the gap to the
  // broker's book is what is still queued, what was dropped, and the fill at hand if it is
  // lost.
  lemma GapAfterCrash(p: Setup, x: Sys, commits: nat, s: Symbol)
    requires SysInv(p, x) && x.brk.queue != []
    ensures var f := x.brk.queue[0];
            var e := Step(p.config, x.eng, FillCrash(f, commits));
            && (Agrees(p.config, e) <==> commits != 1 || Lost(x.eng, f, commits))
            && BrokerBook.At(x.brk.account, s).qty - Held(e, s)
                 == Net(x.brk.queue[1..], s) + Net(Dropped(x), s) + if Lost(x.eng, f, commits) then NetOf(s)(f) else 0.0
  {
    hide Agrees, Streams, Linked, Step, Held, Net, Takes, CommittedDisk, BrokerBook.At, ReloadsAlike, Pick, Whole;
    var f := x.brk.queue[0];
    CrashLedger(p, x, commits);
    CrashedEngine(p, x, commits);
    GapIsInFlight(p, x, s);
    OneQuantity(p.config, x.eng, s);
    NetOneMore(x.eng.disk.fills, f, s);
    HeadNet(x.brk.queue, s);
    StreamsLedger(x);
    NextIsLater(x);
    SortedReloadsAlike(p.config, x.eng.disk.fills);
    SortedReloadsAlike(p.config, x.eng.disk.fills + [f]);
    FillCrashAgreesExactly(p.config, x.eng, f, commits);
  }

  lemma NetOneMore(fs: seq<Fill>, f: Fill, s: Symbol)
    ensures Net(fs + [f], s) == Net(fs, s) + NetOf(s)(f)
  {
    SumOneMore(fs, f, NetOf(s));
  }

  lemma HeadNet(fs: seq<Fill>, s: Symbol)
    requires fs != []
    ensures Net(fs, s) == NetOf(s)(fs[0]) + Net(fs[1..], s)
  {
    assert fs == [fs[0]] + fs[1..];
    SumConcat([fs[0]], fs[1..], NetOf(s));
    SumOneMore([], fs[0], NetOf(s));
    assert [] + [fs[0]] == [fs[0]];
  }
}
