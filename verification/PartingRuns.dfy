// Runs of the engine, from its start and without a crash, after which its views disagree.

module PartingRuns {
  import opened Models
  import opened Money
  import opened Orders
  import opened Positions
  import opened Settings
  import opened Pnl
  import opened Store
  import opened Idempotency
  import opened EngineSpec
  import opened Views
  import opened Recovery
  import opened EngineRuns
  import opened Oversell
  import opened OversellRun

  // ----- A fill before its order's ack -----

  const EARLY_FILL: seq<Event> := [SubmitOrder(Wants(Buy, ""), 1), FillArrives(UnitFill(1, Buy))]

  lemma StartOrders(c: Config)
    ensures var e := Step(c, START, SubmitOrder(Wants(Buy, ""), 1));
            Agrees(c, e) && Is(e, 1, Buy, New, 0.0) && e.seen == {} && e.disk.fills == [] && Held(e, "X") == 0.0
  {
    hide Agrees, Available, Request.Key, Step;
    StartAgrees(c);
    SubmitAgrees(c, START, Wants(Buy, ""), 1);
    SubmitAdds(c, START, Buy, "", 1);
    SubmitIs(c, 1);
  }

  lemma SubmitIs(c: Config, id: OrderId)
    ensures Step(c, START, SubmitOrder(Wants(Buy, ""), id)) == SubmitBegin(START, Wants(Buy, ""), id).0
  {
  }

  // The fill counts on its order and nowhere else: the order is full, the book flat.
  lemma EarlyFillParts(c: Config)
    ensures var e := Run(c, EARLY_FILL);
            !Agrees(c, e) && Is(e, 1, Buy, New, 1.0) && Held(e, "X") == 0.0 && e.disk.fills == [] && Exec(1) in e.seen
  {
    hide Agrees, Run, Step;
    var e := Step(c, START, SubmitOrder(Wants(Buy, ""), 1));
    var f := UnitFill(1, Buy);
    StartOrders(c);
    TwoSteps(c, EARLY_FILL[0], EARLY_FILL[1]);
    HalfApplied(c, e, f);
    EarlyEffect(c, e, f);
  }

  lemma TwoSteps(c: Config, a: Event, b: Event)
    ensures Run(c, [a, b]) == Step(c, Step(c, START, a), b)
  {
    hide Step;
    assert [a, b][..1] == [a] && [a][..0] == [];
    assert Run(c, [a]) == Step(c, Run(c, [a][..0]), a);
  }

  lemma EarlyEffect(c: Config, e: State, f: Fill)
    requires Is(e, 1, Buy, New, 0.0) && f == UnitFill(1, Buy) && Exec(1) !in e.seen
    ensures var r := Step(c, e, FillArrives(f));
            && r == OnFill(c, e, f).0 && Is(r, 1, Buy, New, 1.0) && r.book == e.book && r.disk == e.disk
            && Exec(1) in r.seen
  {
    hide Mean;
  }

  // ----- Two fills without an execution id of their own -----

  // A blank execution id is never looked up among the seen ones, but is unique in the ledger.
  function BlankFill(n: nat): Fill {
    Execution(1, "X", Buy, 0.5, 10.0, 0.5, n, Some(Blank), n)
  }

  const BLANK_FILLS: seq<Event> := [
    SubmitOrder(Wants(Buy, ""), 1), BrokerAck(1, ACK), FillArrives(BlankFill(1)), FillArrives(BlankFill(2))]

  // From any agreeing state, two such fills of one order with room for both are applied, to
  // the order and the position, and only the first is recorded.
  lemma BlankRepeats(c: Config, e: State, f: Fill, g: Fill)
    requires Agrees(c, e) && Whole(e, f) && Fits(e, f) && f.exec == g.exec == Some(Blank)
    requires f.orderId == g.orderId && f.symbol == g.symbol
    requires e.orders[f.orderId].filled + f.qty + g.qty <= e.orders[f.orderId].qty
    ensures var mid, r := OnFill(c, e, f), OnFill(c, OnFill(c, e, f).0, g);
            && mid.1 == Applied && r.1 == Applied && r.0.disk.fills == e.disk.fills + [f]
            && Held(r.0, f.symbol) == Held(e, f.symbol) + f.SignedQty() + g.SignedQty()
            && !Agrees(c, r.0)
  {
    hide Agrees, OnFill, Filling, Mean;
    OnFillApplies(c, e, f);
    FitsTakes(c, e, f);
    var mid := OnFill(c, e, f).0;
    AppliedAgrees(c, e, f, mid);
    MidFits(c, e, f, mid, g);
    OnFillAgreesExactly(c, mid, g);
    FitsTakes(c, mid, g);
    HeldAfterFill(e.book, f, f.symbol);
    HeldAfterFill(mid.book, g, f.symbol);
  }

  lemma MidFits(c: Config, e: State, f: Fill, mid: State, g: Fill)
    requires Agrees(c, e) && Fits(e, f) && IsApplied(c, e, f, mid) && f.exec == g.exec == Some(Blank)
    requires f.orderId == g.orderId && e.orders[f.orderId].filled + f.qty + g.qty <= e.orders[f.orderId].qty
    ensures Fits(mid, g) && !Seen(mid, g) && KnowsExec(mid.disk, g.exec) && !Whole(mid, g)
  {
    hide Mean, Keyed, Replays, Books, Distinct, BookStep, PnlStep;
    OrderNamed(c, e, f.orderId);
    FullIfFilled(c, e, f.orderId);
    FittingFill(e, f);
    assert mid.disk.fills[|e.disk.fills|] == f;
  }

  lemma BlankFillsPart(c: Config)
    ensures var e := Run(c, BLANK_FILLS);
            !Agrees(c, e) && Held(e, "X") == 1.0 && e.disk.fills == [BlankFill(1)]
  {
    hide Agrees, Run, Step, OnFill;
    var e := Step(c, START, SubmitOrder(Wants(Buy, ""), 1));
    var a := Step(c, e, BrokerAck(1, ACK));
    StartOrders(c);
    FourSteps(c, BLANK_FILLS[0], BLANK_FILLS[1], BLANK_FILLS[2], BLANK_FILLS[3]);
    AckSubmits(c, e, 1, Buy);
    AckedAgrees(c, e);
    BlankRepeats(c, a, BlankFill(1), BlankFill(2));
    FillIs(c, a, BlankFill(1));
    FillIs(c, OnFill(c, a, BlankFill(1)).0, BlankFill(2));
  }

  lemma AckedAgrees(c: Config, e: State)
    requires Agrees(c, e) && Is(e, 1, Buy, New, 0.0)
    ensures var a := Step(c, e, BrokerAck(1, ACK)); Agrees(c, a) && a.disk.fills == e.disk.fills
  {
    hide Agrees, Acked, OrderFits, WrittenRow;
    AckedRow(e.orders[1]);
    AckTakes(e.orders[1]);
    AckAgrees(c, e, 1, ACK);
  }

  lemma AckTakes(o: OrderRow)
    requires o.status.New?
    ensures Acked(o, ACK).error.None?
  {
  }

  lemma FillIs(c: Config, e: State, f: Fill)
    ensures Step(c, e, FillArrives(f)) == OnFill(c, e, f).0
  {
    hide OnFill;
  }

  lemma FourSteps(c: Config, a: Event, b: Event, d: Event, f: Event)
    ensures Run(c, [a, b, d, f]) == Step(c, Step(c, Step(c, Step(c, START, a), b), d), f)
  {
    hide Step;
    TwoSteps(c, a, b);
    assert [a, b, d, f][..3] == [a, b, d] && [a, b, d][..2] == [a, b];
  }

  // ----- An ack that reports a cancel the order cannot take -----

  // The broker's answer to a query before the submit was acknowledged rejects the order;
  // then the submit's ack says it is cancelled.
  const REFUSED_ACK: seq<Event> := [
    SubmitOrder(Wants(Buy, ""), 1), ConfirmReply(1, Rejected), BrokerAck(1, Ack(7, Cancelled, 0.0, 0.0))]

  // The views agree up to the ack, which raises: in memory the order now has the broker's
  // id, on disk it has none.
  lemma RefusedAckParts(c: Config)
    ensures Agrees(c, Run(c, REFUSED_ACK[..2]))
    ensures var e := Run(c, REFUSED_ACK);
            && !Agrees(c, e) && 1 in e.orders && 1 in e.disk.orders
            && e.orders[1].brokerId == Some(7) && e.disk.orders[1].brokerId == None
  {
    hide Agrees, Run, Step;
    var e := Step(c, START, SubmitOrder(Wants(Buy, ""), 1));
    var r := Step(c, e, ConfirmReply(1, Rejected));
    StartOrders(c);
    SubmittedRow(c);
    ThreeEvents(c, REFUSED_ACK[0], REFUSED_ACK[1], REFUSED_ACK[2]);
    assert REFUSED_ACK[..2] == [REFUSED_ACK[0], REFUSED_ACK[1]];
    RejectedByQuery(c, e);
    RefusedEffect(c, r, Ack(7, Cancelled, 0.0, 0.0));
  }

  lemma SubmittedRow(c: Config)
    ensures var r := Step(c, START, SubmitOrder(Wants(Buy, ""), 1)); 1 in r.orders && r.orders[1].brokerId.None?
  {
    hide Available, OrderFits, WithOrder;
  }

  lemma ThreeEvents(c: Config, a: Event, b: Event, d: Event)
    ensures Run(c, [a, b]) == Step(c, Step(c, START, a), b)
    ensures Run(c, [a, b, d]) == Step(c, Step(c, Step(c, START, a), b), d)
  {
    hide Step;
    TwoSteps(c, a, b);
    assert [a, b, d][..2] == [a, b];
  }

  lemma RejectedByQuery(c: Config, e: State)
    requires Agrees(c, e) && Is(e, 1, Buy, New, 0.0)
    ensures var r := Step(c, e, ConfirmReply(1, Rejected));
            Agrees(c, r) && 1 in r.orders && r.orders[1] == e.orders[1].(status := Rejected, confirmed := true)
  {
    hide Agrees, WithOrder, OrderFits;
    ConfirmAgrees(c, e, 1, Rejected);
  }

  lemma RefusedEffect(c: Config, e: State, ack: Ack)
    requires Agrees(c, e) && 1 in e.orders && e.orders[1].status.Rejected? && e.orders[1].confirmed
    requires e.orders[1].brokerId.None? && ack.status.Cancelled?
    ensures var r := Step(c, e, BrokerAck(1, ack));
            && !Agrees(c, r) && 1 in r.orders && 1 in r.disk.orders
            && r.orders[1].brokerId == Some(ack.brokerId) && r.disk.orders[1].brokerId == None
  {
    hide Agrees;
    AckAgreesExactly(c, e, 1, ack);
    SameOnDisk(c, e);
  }

  // ----- A retry that raises -----

  // Sold once, the intent's order is known under its key; but its own reserve leaves nothing
  // available, so the guard refuses the retry before the key is looked up.
  lemma RetryIsOversold(c: Config, newId: OrderId)
    requires newId !in {1, 2}
    ensures var e, req := Run(c, SHORT_RUN[..5]), Wants(Sell, "a");
            && req.Key() in e.registry && e.registry[req.Key()].orderId == 2 && Is(e, 2, Sell, Submitted, 0.0)
            && newId !in e.orders && SubmitBegin(e, req, newId).1 == Oversold(0.0)
  {
    hide Run, Step, Available, RequestedRow;
    var e := Run(c, SHORT_RUN[..3]);
    Buying(c);
    AllAvailable(e);
    Next(c, 3);
    SubmitAdds(c, e, Sell, "a", 2);
    Next(c, 4);
    AckSubmits(c, Run(c, SHORT_RUN[..4]), 2, Sell);
    AckKeepsClaim(c, Run(c, SHORT_RUN[..4]), 2, Wants(Sell, "a").Key());
    ReservesItself(e, Run(c, SHORT_RUN[..4]), Run(c, SHORT_RUN[..5]));
    RefusedFirst(Run(c, SHORT_RUN[..5]), Wants(Sell, "a"), newId);
  }

  lemma AckKeepsClaim(c: Config, e: State, id: OrderId, key: Key)
    requires id in e.orders && key in e.registry
    ensures var r := Step(c, e, BrokerAck(id, ACK));
            key in r.registry && r.registry[key].orderId == e.registry[key].orderId
  {
    hide Acked, Stored;
    var row := Acked(e.orders[id], ACK).row;
    if row.clientId.Some? {
      StoredKeepsClaims(e.(registry := Sent(e.registry, row.clientId.value)), row);
    }
    StoredKeepsClaims(e, row);
  }

  lemma StoredKeepsClaims(e: State, row: OrderRow)
    ensures Stored(e, row).registry == e.registry
  {
    hide OrderFits, WithOrder;
  }

  lemma ReservesItself(e: State, a: State, b: State)
    requires Available(e, "X") == 1.0 && 2 !in e.orders && Is(a, 2, Sell, New, 0.0) && Is(b, 2, Sell, Submitted, 0.0)
    requires a.orders == e.orders[2 := a.orders[2]] && b.orders == a.orders[2 := b.orders[2]]
    requires Held(b, "X") == Held(a, "X") == Held(e, "X")
    ensures Available(b, "X") == 0.0
  {
    ReserveAfterAdd(e.orders, a.orders[2], "X", false);
    ReserveAfterWrite(a.orders, b.orders[2], "X", false);
  }

  lemma RefusedFirst(e: State, req: Request, id: OrderId)
    requires req.side.Sell? && req.qty > Available(e, req.symbol)
    ensures SubmitBegin(e, req, id).1 == Oversold(Available(e, req.symbol))
  {
    hide Available;
  }
}
