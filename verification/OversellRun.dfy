// A run that the guard, as written, lets go short.

module OversellRun {
  import opened Models
  import opened Money
  import opened Orders
  import opened Positions
  import opened Settings
  import opened Pnl
  import opened Store
  import opened Idempotency
  import opened EngineSpec
  import opened Views
  import opened EngineRuns
  import opened Oversell

  const ACK := Ack(7, Working, 0.0, 0.0)

  function Wants(side: Side, nonce: string): Request {
    Request("X", side, 1.0, Market, None, nonce)
  }

  function UnitFill(id: OrderId, side: Side): Fill {
    Execution(id, "X", side, 1.0, 10.0, 0.5, id, Some(Exec(id)), id)
  }

  // Buy one and get it. Sell it, cancel provisionally, sell it again: the guard no longer
  // counts the first sell. Then both sells fill.
  const SHORT_RUN: seq<Event> := [
    SubmitOrder(Wants(Buy, ""), 1), BrokerAck(1, ACK), FillArrives(UnitFill(1, Buy)),
    SubmitOrder(Wants(Sell, "a"), 2), BrokerAck(2, ACK), CancelReply(2, ACK.(status := Cancelled)),
    SubmitOrder(Wants(Sell, "b"), 3), BrokerAck(3, ACK),
    FillArrives(UnitFill(2, Sell)), FillArrives(UnitFill(3, Sell))]

  // One unit of X, on the given side, in the given state.
  predicate Is(e: State, id: OrderId, side: Side, status: OrderStatus, filled: real) {
    && id in e.orders
    && var o := e.orders[id];
       && o.orderId == id && o.symbol == "X" && o.side == side && o.qty == 1.0
       && o.status == status && o.filled == filled && !o.confirmed
  }

  lemma SubmitAdds(c: Config, e: State, side: Side, nonce: string, id: OrderId)
    requires id !in e.orders && Wants(side, nonce).Key() !in e.registry
    requires side.Sell? ==> Available(e, "X") >= 1.0
    ensures var r := Step(c, e, SubmitOrder(Wants(side, nonce), id));
            && r.orders == e.orders[id := RequestedRow(Wants(side, nonce), id)] && Is(r, id, side, New, 0.0)
            && Held(r, "X") == Held(e, "X") && r.seen == e.seen
            && r.registry == e.registry[Wants(side, nonce).Key() := Claim(id, false)]
  {
    hide Available, OrderFits, WithOrder;
  }

  lemma AckSubmits(c: Config, e: State, id: OrderId, side: Side)
    requires Is(e, id, side, New, 0.0)
    ensures var r := Step(c, e, BrokerAck(id, ACK));
            && r.orders == e.orders[id := r.orders[id]] && Is(r, id, side, Submitted, 0.0)
            && r.book == e.book && r.seen == e.seen && r.registry.Keys == e.registry.Keys
  {
    hide OrderFits, WithOrder, Acked;
    AckIsAWrite(e, id, ACK);
    AckedRow(e.orders[id]);
  }

  lemma AckedRow(o: OrderRow)
    requires o.status.New?
    ensures var row := Acked(o, ACK).row;
            row == o.(status := Submitted, brokerId := row.brokerId)
  {
  }

  lemma CancelCancels(c: Config, e: State, id: OrderId, side: Side)
    requires Is(e, id, side, Submitted, 0.0)
    ensures var r := Step(c, e, CancelReply(id, ACK.(status := Cancelled)));
            && r.orders == e.orders[id := r.orders[id]] && Is(r, id, side, Cancelled, 0.0)
            && r.book == e.book && r.seen == e.seen && r.registry == e.registry
  {
    hide CancelAck;
    CancelIsAWrite(e, id, ACK.(status := Cancelled));
    CancelledRow(e.orders[id]);
  }

  lemma CancelledRow(o: OrderRow)
    requires o.status.Submitted?
    ensures Oversell.Cancelled(o, ACK.(status := Cancelled)) == o.(status := Cancelled)
  {
  }

  lemma FillFills(c: Config, e: State, id: OrderId, side: Side)
    requires Is(e, id, side, Submitted, 0.0) || Is(e, id, side, Cancelled, 0.0)
    requires Exec(id) !in e.seen
    ensures Matches(e.orders, UnitFill(id, side))
    ensures var r := Step(c, e, FillArrives(UnitFill(id, side)));
            && r.orders == e.orders[id := r.orders[id]] && Is(r, id, side, Filled, 1.0)
            && Held(r, "X") == Held(e, "X") + UnitFill(id, side).SignedQty()
            && r.seen == e.seen + {Exec(id)} && r.registry == e.registry
  {
    hide Mean, BookStep, PnlStep, OrderFits, WithOrder, FillFits, KnowsExec;
    OnFillEffect(c, e, UnitFill(id, side));
    HeldAfterFill(e.book, UnitFill(id, side), "X");
    BookStepHas(e.book, UnitFill(id, side));
  }

  // With every known sell closed to the guard, all that is held is available.
  lemma AllAvailable(e: State)
    requires forall id :: id in e.orders ==> RowReserve(e.orders[id], "X", false) == 0.0
    ensures Available(e, "X") == Held(e, "X")
  {
    OverZero(e.orders.Keys, ReserveOf(e.orders, "X", false));
  }

  lemma Next(c: Config, n: nat)
    requires n < |SHORT_RUN|
    ensures Run(c, SHORT_RUN[..n + 1]) == Step(c, Run(c, SHORT_RUN[..n]), SHORT_RUN[n])
  {
    assert SHORT_RUN[..n + 1][..n] == SHORT_RUN[..n];
  }

  // The run's states, a few at a time.
  lemma Ordering(c: Config)
    ensures forall n :: 0 <= n < 2 ==> Calm(Run(c, SHORT_RUN[..n]), SHORT_RUN[n])
    ensures var e := Run(c, SHORT_RUN[..2]);
            && e.orders.Keys == {1} && Is(e, 1, Buy, Submitted, 0.0)
            && Held(e, "X") == 0.0 && e.seen == {} && e.registry.Keys == {Wants(Buy, "").Key()}
  {
    hide Step, Run, Available, Request.Key;
    StartOfRun(c);
    Next(c, 0);
    SubmitAdds(c, START, Buy, "", 1);
    Next(c, 1);
    AckSubmits(c, Run(c, SHORT_RUN[..1]), 1, Buy);
  }

  lemma Buying(c: Config)
    ensures forall n :: 0 <= n < 3 ==> Calm(Run(c, SHORT_RUN[..n]), SHORT_RUN[n])
    ensures var e := Run(c, SHORT_RUN[..3]);
            && e.orders.Keys == {1} && Is(e, 1, Buy, Filled, 1.0)
            && Held(e, "X") == 1.0 && e.seen == {Exec(1)} && e.registry.Keys == {Wants(Buy, "").Key()}
  {
    hide Step, Run, Available, Request.Key;
    Ordering(c);
    Next(c, 2);
    FillFills(c, Run(c, SHORT_RUN[..2]), 1, Buy);
  }

  lemma SellingOnce(c: Config)
    ensures forall n :: 3 <= n < 6 ==> Calm(Run(c, SHORT_RUN[..n]), SHORT_RUN[n])
    ensures var e := Run(c, SHORT_RUN[..6]);
            && e.orders.Keys == {1, 2} && Is(e, 1, Buy, Filled, 1.0) && Is(e, 2, Sell, Cancelled, 0.0)
            && Held(e, "X") == 1.0 && e.seen == {Exec(1)}
            && e.registry.Keys == {Wants(Buy, "").Key(), Wants(Sell, "a").Key()}
  {
    hide Step, Run, Available;
    Buying(c);
    AllAvailable(Run(c, SHORT_RUN[..3]));
    Next(c, 3);
    SubmitAdds(c, Run(c, SHORT_RUN[..3]), Sell, "a", 2);
    Next(c, 4);
    AckSubmits(c, Run(c, SHORT_RUN[..4]), 2, Sell);
    Next(c, 5);
    CancelCancels(c, Run(c, SHORT_RUN[..5]), 2, Sell);
  }

  lemma SellingTwice(c: Config)
    ensures forall n :: 6 <= n < 8 ==> Calm(Run(c, SHORT_RUN[..n]), SHORT_RUN[n])
    ensures var e := Run(c, SHORT_RUN[..8]);
            && Is(e, 2, Sell, Cancelled, 0.0) && Is(e, 3, Sell, Submitted, 0.0)
            && Held(e, "X") == 1.0 && e.seen == {Exec(1)}
  {
    hide Step, Run, Available;
    SellingOnce(c);
    AllAvailable(Run(c, SHORT_RUN[..6]));
    Next(c, 6);
    SubmitAdds(c, Run(c, SHORT_RUN[..6]), Sell, "b", 3);
    Next(c, 7);
    AckSubmits(c, Run(c, SHORT_RUN[..7]), 3, Sell);
  }

  lemma BothSellsFill(c: Config)
    ensures forall n :: 8 <= n < 10 ==> Calm(Run(c, SHORT_RUN[..n]), SHORT_RUN[n])
    ensures Held(Run(c, SHORT_RUN[..10]), "X") == -1.0
  {
    hide Step, Run;
    SellingTwice(c);
    Next(c, 8);
    FillFills(c, Run(c, SHORT_RUN[..8]), 2, Sell);
    Next(c, 9);
    FillFills(c, Run(c, SHORT_RUN[..9]), 3, Sell);
  }

  lemma StartOfRun(c: Config)
    ensures Run(c, SHORT_RUN[..0]) == START
  {
  }

  // The guard as written can be led into a short position without any restart.
  lemma GuardCanOversell(c: Config)
    ensures CalmRun(c, SHORT_RUN) && Held(Run(c, SHORT_RUN), "X") == -1.0
  {
    hide Step, Run, Calm;
    Buying(c);
    SellingOnce(c);
    SellingTwice(c);
    BothSellsFill(c);
    assert SHORT_RUN[..10] == SHORT_RUN;
  }
}
