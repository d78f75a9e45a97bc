// A run of the engine whose views agree until it restarts: its fills were stamped in another
// order than they came.

module RestartRun {
  import opened Models
  import opened Sums
  import opened CostBasis
  import opened Ledger
  import opened Orders
  import opened Positions
  import opened Settings
  import opened Pnl
  import opened Store
  import opened EngineSpec
  import opened Views
  import opened Recovery
  import opened Reloading
  import opened EngineRuns
  import opened AgreementRuns
  import opened OversellRun
  import opened PartingRuns

  // The whole of an order of one unit.
  function UnitAt(id: OrderId, side: Side, price: Amount, ts: int): Fill {
    Execution(id, "X", side, 1.0, price, 0.5, id, Some(Exec(id)), ts)
  }

  // Submitted, acknowledged and filled.
  function Trade(id: OrderId, side: Side, nonce: string, price: Amount, ts: int): seq<Event> {
    [SubmitOrder(Wants(side, nonce), id), BrokerAck(id, ACK), FillArrives(UnitAt(id, side, price, ts))]
  }

  ghost function Traded(c: Config, e: State, id: OrderId, side: Side, nonce: string, price: Amount, ts: int): State {
    var submitted := Step(c, e, SubmitOrder(Wants(side, nonce), id));
    Step(c, Step(c, submitted, BrokerAck(id, ACK)), FillArrives(UnitAt(id, side, price, ts)))
  }

  lemma OneMoreEvent(c: Config, evs: seq<Event>, ev: Event)
    ensures Run(c, evs + [ev]) == Step(c, Run(c, evs), ev)
  {
    hide Step;
    assert (evs + [ev])[..|evs|] == evs;
  }

  lemma RunTrades(c: Config, evs: seq<Event>, id: OrderId, side: Side, nonce: string, price: Amount, ts: int)
    ensures Run(c, evs + Trade(id, side, nonce, price, ts)) == Traded(c, Run(c, evs), id, side, nonce, price, ts)
  {
    hide Step;
    var t := Trade(id, side, nonce, price, ts);
    OneMoreEvent(c, evs, t[0]);
    OneMoreEvent(c, evs + [t[0]], t[1]);
    OneMoreEvent(c, evs + [t[0]] + [t[1]], t[2]);
    assert evs + t == evs + [t[0]] + [t[1]] + [t[2]];
  }

  // From any agreeing state, such a trade is applied and keeps the views together.
  lemma TradeAgrees(c: Config, e: State, id: OrderId, side: Side, nonce: string, price: Amount, ts: int)
    requires Agrees(c, e) && id !in e.orders && Wants(side, nonce).Key() !in e.registry && Exec(id) !in e.seen
    requires forall f :: f in e.disk.fills ==> f.fillId != id
    requires side.Sell? ==> Available(e, "X") >= 1.0
    ensures var r := Traded(c, e, id, side, nonce, price, ts);
            && Agrees(c, r) && r.disk.fills == e.disk.fills + [UnitAt(id, side, price, ts)]
            && Is(r, id, side, Filled, 1.0) && r.orders == e.orders[id := r.orders[id]]
            && r.seen == e.seen + {Exec(id)} && r.registry.Keys == e.registry.Keys + {Wants(side, nonce).Key()}
  {
    hide Agrees, Traded, Acknowledged, Step, Available, Request.Key, Is;
    TradeIs(c, e, id, side, nonce, price, ts);
    UnitIsSent(c, e, id, side, nonce);
    UnitFills(c, Acknowledged(c, e, id, side, nonce), id, side, price, ts);
  }

  ghost function Acknowledged(c: Config, e: State, id: OrderId, side: Side, nonce: string): State {
    Step(c, Step(c, e, SubmitOrder(Wants(side, nonce), id)), BrokerAck(id, ACK))
  }

  lemma TradeIs(c: Config, e: State, id: OrderId, side: Side, nonce: string, price: Amount, ts: int)
    ensures Traded(c, e, id, side, nonce, price, ts)
         == Step(c, Acknowledged(c, e, id, side, nonce), FillArrives(UnitAt(id, side, price, ts)))
  {
    hide Step;
  }

  lemma UnitIsSent(c: Config, e: State, id: OrderId, side: Side, nonce: string)
    requires Agrees(c, e) && id !in e.orders && Wants(side, nonce).Key() !in e.registry
    requires side.Sell? ==> Available(e, "X") >= 1.0
    ensures var r := Acknowledged(c, e, id, side, nonce);
            && Agrees(c, r) && r.disk.fills == e.disk.fills
            && Is(r, id, side, Submitted, 0.0) && r.orders == e.orders[id := r.orders[id]]
            && r.seen == e.seen && r.registry.Keys == e.registry.Keys + {Wants(side, nonce).Key()}
  {
    hide Agrees, Step, Available, Request.Key, RequestedRow;
    var a := Step(c, e, SubmitOrder(Wants(side, nonce), id));
    SubmitAdds(c, e, side, nonce, id);
    SubmitKeepsLedger(c, e, side, nonce, id);
    AckSubmits(c, a, id, side);
    AckKeepsLedger(c, a, id, side);
  }

  lemma UnitFills(c: Config, e: State, id: OrderId, side: Side, price: Amount, ts: int)
    requires Agrees(c, e) && Is(e, id, side, Submitted, 0.0) && Exec(id) !in e.seen
    requires forall f :: f in e.disk.fills ==> f.fillId != id
    ensures var r := Step(c, e, FillArrives(UnitAt(id, side, price, ts)));
            && Agrees(c, r) && r.disk.fills == e.disk.fills + [UnitAt(id, side, price, ts)]
            && Is(r, id, side, Filled, 1.0) && r.orders == e.orders[id := r.orders[id]]
            && r.seen == e.seen + {Exec(id)} && r.registry == e.registry
  {
    hide Agrees, Step, OnFill, Whole, Fits, Seen, IsApplied, Is;
    var f := UnitAt(id, side, price, ts);
    FillIs(c, e, f);
    UnitFits(e, id, side, f);
    OnFillApplies(c, e, f);
    AppliedAgrees(c, e, f, OnFill(c, e, f).0);
    UnitApplied(c, e, id, side, f, OnFill(c, e, f).0);
  }

  lemma UnitFits(e: State, id: OrderId, side: Side, f: Fill)
    requires Is(e, id, side, Submitted, 0.0) && Exec(id) !in e.seen
    requires forall g :: g in e.disk.fills ==> g.fillId != id
    requires f == UnitAt(id, side, f.price, f.ts)
    ensures Whole(e, f) && Fits(e, f) && !Seen(e, f)
  {
  }

  lemma UnitApplied(c: Config, e: State, id: OrderId, side: Side, f: Fill, r: State)
    requires Is(e, id, side, Submitted, 0.0) && f == UnitAt(id, side, f.price, f.ts)
    requires Fits(e, f) && IsApplied(c, e, f, r)
    ensures r.disk.fills == e.disk.fills + [f] && r.orders == e.orders[id := r.orders[id]]
    ensures Is(r, id, side, Filled, 1.0) && r.seen == e.seen + {Exec(id)} && r.registry == e.registry
  {
    hide Filling, BookStep, PnlStep;
    FittingFill(e, f);
  }

  lemma SubmitKeepsLedger(c: Config, e: State, side: Side, nonce: string, id: OrderId)
    requires Agrees(c, e) && id !in e.orders
    ensures var r := Step(c, e, SubmitOrder(Wants(side, nonce), id)); Agrees(c, r) && r.disk.fills == e.disk.fills
  {
    hide Agrees, SubmitBegin;
    SubmitAgrees(c, e, Wants(side, nonce), id);
  }

  lemma AckKeepsLedger(c: Config, e: State, id: OrderId, side: Side)
    requires Agrees(c, e) && Is(e, id, side, New, 0.0)
    ensures var r := Step(c, e, BrokerAck(id, ACK)); Agrees(c, r) && r.disk.fills == e.disk.fills
  {
    hide Agrees, Acked, OrderFits, WrittenRow;
    AckedRow(e.orders[id]);
    AckTakes(e.orders[id]);
    AckAgrees(c, e, id, ACK);
  }

  // ----- The run -----

  // Bought at 10 and at 30; the unit sold at 20 was stamped between the two.
  const TRADES: seq<Event> :=
    Trade(1, Buy, "a", 10.0, 0) + Trade(2, Buy, "b", 30.0, 2) + Trade(3, Sell, "", 20.0, 1)

  const LEDGER: seq<Fill> := [UnitAt(1, Buy, 10.0, 0), UnitAt(2, Buy, 30.0, 2), UnitAt(3, Sell, 20.0, 1)]

  lemma LedgerReloads()
    ensures AvgRun(LEDGER, "X").realized == 0.0 && AvgRun(ByTs(LEDGER), "X").realized == 10.0
  {
    hide AvgStep;
    var a, b, d := LEDGER[0], LEDGER[1], LEDGER[2];
    ThreeSteps();
    RunOfThree(a, b, d);
    RunOfThree(a, d, b);
    assert LEDGER == [a, b, d];
    SortOfThree(a, b, d);
  }

  lemma SortOfThree(a: Fill, b: Fill, d: Fill)
    requires a.ts <= d.ts < b.ts
    ensures ByTs([a, b, d]) == [a, d, b]
  {
    assert [a, b, d][..2] == [a, b] && [a, b][..1] == [a] && [a][..0] == [];
    assert [a][..0] == [] && ByTs([a]) == [a];
    assert ByTs([a, b]) == [a, b];
    assert Insert(d, [a, b]) == Insert(d, [a]) + [b];
  }

  lemma RunOfNothing(c: Config)
    ensures Run(c, []) == START
  {
  }

  lemma TradesAgree(c: Config)
    ensures Agrees(c, Run(c, TRADES)) && Run(c, TRADES).disk.fills == LEDGER
  {
    hide Agrees, Traded, Run, Available;
    var a, b := Trade(1, Buy, "a", 10.0, 0), Trade(1, Buy, "a", 10.0, 0) + Trade(2, Buy, "b", 30.0, 2);
    StartAgrees(c);
    RunTrades(c, [], 1, Buy, "a", 10.0, 0);
    RunOfNothing(c);
    assert [] + a == a;
    TradeAgrees(c, START, 1, Buy, "a", 10.0, 0);
    RunTrades(c, a, 2, Buy, "b", 30.0, 2);
    TradeAgrees(c, Run(c, a), 2, Buy, "b", 30.0, 2);
    RunTrades(c, b, 3, Sell, "", 20.0, 1);
    HeldOfTwo(c, Run(c, b));
    TradeAgrees(c, Run(c, b), 3, Sell, "", 20.0, 1);
  }

  lemma HeldOfTwo(c: Config, e: State)
    requires Agrees(c, e) && e.disk.fills == [UnitAt(1, Buy, 10.0, 0), UnitAt(2, Buy, 30.0, 2)]
    requires forall id :: id in e.orders ==> e.orders[id].side.Buy?
    ensures Available(e, "X") == 2.0
  {
    hide Agrees, Available, Held, Net, Over, EntryOf;
    forall id | id in e.orders ensures RowReserve(e.orders[id], "X", false) == 0.0 {
    }
    AllAvailable(e);
    OneQuantity(c, e, "X");
    NetOfTwo(e.disk.fills[0], e.disk.fills[1]);
  }

  lemma NetOfTwo(a: Fill, b: Fill)
    requires a == UnitAt(1, Buy, 10.0, 0) && b == UnitAt(2, Buy, 30.0, 2)
    ensures Net([a, b], "X") == 2.0
  {
    hide Sum;
    var w := NetOf("X");
    SumOneMore([], a, w);
    SumOneMore([a], b, w);
    SumOfNone(w);
    assert [] + [a] == [a] && [a] + [b] == [a, b];
  }

  lemma SumOfNone(w: Fill -> real)
    ensures Sum([], w) == 0.0
  {
  }

  // The views agree after every trade; the restart replays the sale before the second
  // purchase, and realized P&L goes from nothing to 10.
  lemma LateStampParts(c: Config)
    ensures Agrees(c, Run(c, TRADES)) && !Agrees(c, Run(c, TRADES + [Restarts]))
    ensures Lookup(Run(c, TRADES).book, "X").basis.realized == 0.0
    ensures Lookup(Run(c, TRADES + [Restarts]).book, "X").basis.realized == 10.0
  {
    hide Agrees, Run, ByTs;
    var e := Run(c, TRADES);
    TradesAgree(c);
    LedgerReloads();
    BooksReplay(c, e, "X");
    OneMoreEvent(c, TRADES, Restarts);
    RestartMoves(c, e, "X");
  }

  // A restart from an agreeing state that changes a symbol's realized P&L parts the views.
  lemma RestartMoves(c: Config, e: State, s: Symbol)
    requires Agrees(c, e) && !RealizedReloadsAlike(e.disk.fills, s)
    ensures !Agrees(c, Step(c, e, Restarts))
    ensures Lookup(Step(c, e, Restarts).book, s) == PosRun(ByTs(e.disk.fills), s)
  {
    hide Agrees, ByTs, Keyed, PosRun, RealizedReloadsAlike;
    PositionReloadsExactly(e.disk.fills, s);
    RestartAgreesExactly(c, e);
    assert !SymbolReloadsAlike(c, e.disk.fills, s);
    AgreesIsRows(c, e);
    RestartKeyed(c, e, e.disk);
    BookOfReplays(ByTs(e.disk.fills));
  }
}
