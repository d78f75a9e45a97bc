// Repeated deliveries over whole runs, among submits, acks, cancels, verdicts and crashes.

module Redelivery {
  import opened Models
  import opened Orders
  import opened Positions
  import opened Settings
  import opened Pnl
  import opened Store
  import opened Idempotency
  import opened EngineSpec
  import opened Views
  import opened EngineRuns
  import opened AgreementRuns
  import opened StoredPositions

  // The ledger has no execution twice, and whatever it has was seen.
  ghost predicate Ledgered(e: State) {
    Distinct(e.disk.fills) && ExecsOf(e.disk.fills) <= e.seen
  }

  // The event brings nothing that is not in the ledger already.
  ghost predicate Repeats(e: State, ev: Event) {
    ev.FillArrives? && ev.fill.HasExec() && ev.fill.exec.value in ExecsOf(e.disk.fills)
  }

  lemma RepeatDoesNothing(c: Config, e: State, ev: Event)
    requires Ledgered(e) && Repeats(e, ev)
    ensures Step(c, e, ev) == e
  {
    hide Distinct;
    RepeatIsNothing(c, e, ev.fill);
  }

  // ----- What a fill writes to the ledger -----

  // Nothing, or itself under an id and an execution that were not there.
  ghost predicate Extends(t: Tables, f: Fill, after: seq<Fill>) {
    after == t.fills || (after == t.fills + [f] && FillFits(t, f))
  }

  lemma FillExtends(c: Config, e: State, f: Fill)
    ensures var r := OnFill(c, e, f).0;
            && Extends(e.disk, f, r.disk.fills) && e.seen <= r.seen
            && (r.disk.fills != e.disk.fills && f.HasExec() ==> f.exec.value in r.seen)
    ensures OnFill(c, e, f).1.Applied? && !KnowsExec(e.disk, f.exec) ==> FillFits(e.disk, f)
  {
    hide Filling, BookStep, PnlStep, OrderFits, WrittenRow, KnowsExec, FillFits;
    BookStepHas(e.book, f);
  }

  lemma CommitsExtend(c: Config, e: State, f: Fill, commits: nat)
    ensures Extends(e.disk, f, CommittedDisk(c, e, f, commits).fills)
  {
    hide OnFill, WrittenRow, KnowsExec, FillFits;
    FillExtends(c, e, f);
  }

  lemma ExtendedIsDistinct(t: Tables, f: Fill, after: seq<Fill>)
    requires Distinct(t.fills) && Extends(t, f, after)
    ensures Distinct(after) && t.fills <= after
  {
    if after != t.fills {
      forall g | g in t.fills ensures g.fillId != f.fillId && (f.exec.Some? ==> g.exec != f.exec) {
        var i :| 0 <= i < |t.fills| && t.fills[i] == g;
        assert t.fills[i].fillId != f.fillId;
      }
      DistinctOneMore(t.fills, f);
    }
  }

  // ----- One event -----

  lemma FillKeepsLedgered(c: Config, e: State, f: Fill)
    requires Ledgered(e)
    ensures Ledgered(OnFill(c, e, f).0) && e.disk.fills <= OnFill(c, e, f).0.disk.fills
  {
    hide OnFill, Distinct, FillFits, ExecsOf;
    var r := OnFill(c, e, f).0;
    FillExtends(c, e, f);
    ExtendedIsDistinct(e.disk, f, r.disk.fills);
    ExecsOneMore(e.disk.fills, f);
  }

  lemma RestartLedgered(c: Config, e: State, d: Tables)
    requires Keyed(e.orders, e.registry, d.orders) && Distinct(d.fills)
    ensures Ledgered(Restarted(c, e, d)) && Restarted(c, e, d).disk == d
  {
    hide Keyed, Distinct, ExecsOf, ByTs;
    RestartKeyed(c, e, d);
    ExecsOfPermuted(d.fills);
  }

  // Only a restart forgets what was seen.
  lemma OthersKeepSeen(c: Config, e: State, ev: Event)
    requires !ev.FillArrives? && !ev.FillCrash? && !ev.SubmitCrash? && !ev.Restarts?
    ensures Step(c, e, ev).seen == e.seen
  {
    hide SubmitBegin, Stored, Acked, Cancelling, Confirming;
    match ev {
      case SubmitOrder(req, id) =>
        SubmitKeepsSeen(e, req, id);
      case BrokerAck(id, ack) =>
        if id in e.orders {
          var row := Acked(e.orders[id], ack).row;
          StoredKeepsSeen(e, row);
          if row.clientId.Some? {
            StoredKeepsSeen(e.(registry := Sent(e.registry, row.clientId.value)), row);
          }
        }
      case CancelReply(id, ack) =>
        if id in e.orders {
          StoredKeepsSeen(e, if ack.status.Cancelled? then Cancelling(e.orders[id], None, false).row else e.orders[id]);
        }
      case ConfirmReply(id, verdict) =>
        if id in e.orders {
          StoredKeepsSeen(e, Confirming(e.orders[id], verdict));
        }
      case MarkMoves(_, _) =>
    }
  }

  lemma SubmitKeepsSeen(e: State, req: Request, id: OrderId)
    ensures SubmitBegin(e, req, id).0.seen == e.seen
  {
    hide Available, OrderFits, WithOrder, RequestedRow, Touched;
  }

  lemma StoredKeepsSeen(e: State, row: OrderRow)
    ensures Stored(e, row).seen == e.seen && Stored(e, row).registry == e.registry
  {
    hide OrderFits, WithOrder;
  }

  // Every event keeps the ledger free of repetitions and only ever adds to it.
  lemma StepLedgered(c: Config, e: State, ev: Event)
    requires KeyedState(e) && Ledgered(e)
    ensures Ledgered(Step(c, e, ev)) && e.disk.fills <= Step(c, e, ev).disk.fills
  {
    hide Keyed, SubmitBegin, SubmitAck, OnFill, CancelAck, ConfirmAck, Restarted, CommittedDisk;
    hide OnlyOwnRow, Distinct, ExecsOf, Extends;
    match ev {
      case FillArrives(f) =>
        FillKeepsLedgered(c, e, f);
      case FillCrash(f, commits) =>
        FillKeyed(c, e, f, commits);
        OwnRowKeyed(e, f, CommittedDisk(c, e, f, commits));
        CommitsExtend(c, e, f, commits);
        ExtendedIsDistinct(e.disk, f, CommittedDisk(c, e, f, commits).fills);
        RestartLedgered(c, e, CommittedDisk(c, e, f, commits));
      case SubmitCrash(req, id, committed) =>
        OthersKeepLedger(c, e, ev);
        if id !in e.orders {
          SubmitCrashLedgered(c, e, req, id, committed);
        }
      case Restarts =>
        RestartLedgered(c, e, e.disk);
      case _ =>
        OthersKeepLedger(c, e, ev);
        OthersKeepSeen(c, e, ev);
    }
  }

  lemma SubmitCrashLedgered(c: Config, e: State, req: Request, id: OrderId, committed: bool)
    requires KeyedState(e) && Ledgered(e) && id !in e.orders
    ensures Ledgered(Step(c, e, SubmitCrash(req, id, committed)))
  {
    hide Keyed, SubmitBegin, Restarted, Distinct, ExecsOf;
    if committed {
      var r := SubmitBegin(e, req, id).0;
      SubmitKeepsLedger(e, req, id);
      SubmitKeyed(e, req, id);
      RestartKeyed(c, r, r.disk);
      RestartedIs(c, e, r, r.disk);
      RestartLedgered(c, r, r.disk);
    } else {
      RestartLedgered(c, e, e.disk);
    }
  }

  // ----- Whole runs -----

  // The run without the deliveries of executions the ledger already has.
  ghost function WithoutRepeats(c: Config, evs: seq<Event>): seq<Event> {
    if evs == [] then []
    else
      var before, ev := evs[..|evs| - 1], evs[|evs| - 1];
      WithoutRepeats(c, before) + if Repeats(Run(c, before), ev) then [] else [ev]
  }

  // In every run, of any events in any order, an execution is in the ledger at most once, and
  // delivering it again, any number of times and anywhere later, changes nothing at all: the
  // run ends as it would without those deliveries.
  lemma {:induction false} RepeatsChangeNothing(c: Config, evs: seq<Event>)
    ensures Ledgered(Run(c, evs)) && Run(c, evs) == Run(c, WithoutRepeats(c, evs))
  {
    hide Step, Ledgered, Repeats, Keyed;
    if evs == [] {
      StartLedgered();
    } else {
      var before, ev := evs[..|evs| - 1], evs[|evs| - 1];
      var kept := WithoutRepeats(c, before);
      RepeatsChangeNothing(c, before);
      AtMostOnce(c, before);
      StepLedgered(c, Run(c, before), ev);
      if Repeats(Run(c, before), ev) {
        RepeatDoesNothing(c, Run(c, before), ev);
        assert kept + [] == kept;
      } else {
        assert (kept + [ev])[..|kept|] == kept;
      }
    }
  }

  lemma StartLedgered()
    ensures Ledgered(START)
  {
  }

  // What one run has in its ledger every continuation has, in the same places.
  lemma {:induction false} LedgerOnlyGrows(c: Config, evs: seq<Event>, more: seq<Event>)
    ensures Run(c, evs).disk.fills <= Run(c, evs + more).disk.fills
  {
    hide Step, Ledgered, Keyed;
    if more == [] {
      assert evs + more == evs;
    } else {
      var before, ev := more[..|more| - 1], more[|more| - 1];
      assert (evs + more)[..|evs + more| - 1] == evs + before;
      LedgerOnlyGrows(c, evs, before);
      RepeatsChangeNothing(c, evs + before);
      AtMostOnce(c, evs + before);
      StepLedgered(c, Run(c, evs + before), ev);
    }
  }
}
