// Properties of an order over whole runs of order operations.

module OrderTheory {
  import opened Models
  import opened Money
  import opened Sums
  import opened Orders

  datatype Op =
    | Submit(brokerId: BrokerId)
    | Work
    | TakeFill(fill: Fill)
    | Cancel(cancelReason: Option<string>, cancelConfirmed: bool)
    | Reject(rejectReason: string, rejectConfirmed: bool)
    | Confirm(brokerStatus: OrderStatus)

  function Perform(o: OrderRow, op: Op): Outcome {
    match op
    case Submit(b) => Submitting(o, b)
    case Work => Moved(o, Working)
    case TakeFill(f) => Filling(o, f)
    case Cancel(r, c) => Cancelling(o, r, c)
    case Reject(r, c) => Rejecting(o, r, c)
    case Confirm(s) => Outcome(Confirming(o, s), None)
  }

  lemma PerformKeepsFilled(o: OrderRow, op: Op)
    ensures Perform(o, op).row.filled >= o.filled
    ensures Perform(o, op).row.qty == o.qty && Perform(o, op).row.orderId == o.orderId
  {
  }

  // Operations one after the other; a raising one leaves its effect and the run goes on.
  function Run(o: OrderRow, ops: seq<Op>): (r: OrderRow)
    ensures r.filled >= o.filled
  {
    if ops == [] then o
    else
      var before := Run(o, ops[..|ops| - 1]);
      PerformKeepsFilled(before, ops[|ops| - 1]);
      Perform(before, ops[|ops| - 1]).row
  }

  ghost predicate Successful(o: OrderRow, ops: seq<Op>) {
    ops != [] ==>
      var before := ops[..|ops| - 1];
      Successful(o, before) && Perform(Run(o, before), ops[|ops| - 1]).error.None?
  }

  lemma RunOneMore(o: OrderRow, ops: seq<Op>, op: Op)
    ensures Run(o, ops + [op]) == Perform(Run(o, ops), op).row
    ensures Successful(o, ops + [op]) <==> Successful(o, ops) && Perform(Run(o, ops), op).error.None?
  {
    assert (ops + [op])[..|ops|] == ops;
  }

  // ----- The lifecycle -----

  // How far an order is on its way.
  function Stage(s: OrderStatus): nat {
    match s
    case New => 0
    case Submitted => 1
    case Working => 2
    case PartiallyFilled => 3
    case _ => 4
  }

  // An order moves forward only, from NEW to SUBMITTED or out, and once filled in part is not
  // rejected; part fills and terminal states may be repeated; and the one way out of a
  // terminal state is a cancelled order that turns out filled.
  lemma Lifecycle(a: OrderStatus, b: OrderStatus)
    ensures CanTransition(a, b) <==>
      || (Stage(a) < Stage(b)
          && (a == New ==> b in {Submitted, Cancelled, Rejected}) && !(a == PartiallyFilled && b == Rejected))
      || (a == b && Stage(a) >= 3)
      || (a == Cancelled && b == Filled)
  {
  }

  // When a fill is taken, and with which exception it is refused: its order first, then the
  // verdict, then the room, then the state; only in the last case has it changed the amounts.
  lemma FillOutcomes(o: OrderRow, f: Fill)
    requires o.filled <= o.qty
    ensures var r := Filling(o, f);
            && (r.error == Some(WrongOrder) <==> f.orderId != o.orderId)
            && (r.error == Some(OverFill) <==> f.orderId == o.orderId && !o.confirmed && f.qty > o.qty - o.filled)
            && (r.error == None <==>
                  && f.orderId == o.orderId && !o.confirmed && f.qty <= o.qty - o.filled
                  && o.status in {Submitted, Working, PartiallyFilled, Cancelled, Filled}
                  && (o.status == Filled ==> f.qty == o.qty - o.filled))
            && (r.error == None ==> r.row.status == if f.qty == o.qty - o.filled then Filled else PartiallyFilled)
            && (r.error != None ==> r.row.status == o.status)
            && (r.row.filled != o.filled <==> f.orderId == o.orderId && !o.confirmed && f.qty <= o.qty - o.filled)
  {
    hide Mean;
  }

  // Whatever an operation does, the identity stays; and only a fill changes amounts, only a
  // submit the broker's id, only a cancel or reject the reason.
  lemma OnlyItsOwn(o: OrderRow, op: Op)
    ensures var r := Perform(o, op).row;
            && r.orderId == o.orderId && r.symbol == o.symbol && r.side == o.side && r.qty == o.qty
            && r.orderType == o.orderType && r.limitPrice == o.limitPrice && r.clientId == o.clientId
            && (!op.TakeFill? ==> r.filled == o.filled && r.avgPrice == o.avgPrice && r.fees == o.fees)
            && (!op.Submit? ==> r.brokerId == o.brokerId)
            && (!op.Cancel? && !op.Reject? ==> r.reason == o.reason)
  {
    hide Mean;
  }

  // A cancel leaves a live or cancelled order cancelled, with the reason if one is given, and
  // trusted only if it is the broker's; it refuses a rejection and a fill on our own word, and
  // does nothing to a confirmed fill. A reject needs an order without fills.
  lemma CancelsAndRejects(o: OrderRow, reason: Option<string>, why: string, confirmed: bool)
    ensures var r := Cancelling(o, reason, confirmed);
            && (r.error == None <==> o.status !in {Filled, Rejected} || (o.status == Filled && o.confirmed))
            && (r.error == None && o.status != Filled ==>
                  && r.row.status == Cancelled && (r.row.confirmed <==> o.confirmed || confirmed)
                  && r.row.reason == if reason in {None, Some("")} then o.reason else reason)
            && (r.error != None || o.status == Filled ==> r.row == o)
    ensures var r := Rejecting(o, why, confirmed);
            && (r.error == None <==>
                  (o.status == Rejected && o.confirmed)
                  || (o.filled == 0.0 && o.status in {New, Submitted, Working, Rejected}))
            && (r.error == None && !(o.status == Rejected && o.confirmed) ==>
                  r.row.status == Rejected && r.row.reason == Some(why) && r.row.confirmed == confirmed)
            && (r.error != None ==> r.row == o)
  {
  }

  // ----- Sums over fills -----

  function FillsIn(ops: seq<Op>): seq<Fill> {
    if ops == [] then []
    else
      var op := ops[|ops| - 1];
      FillsIn(ops[..|ops| - 1]) + if op.TakeFill? then [op.fill] else []
  }

  function Notional(fs: seq<Fill>): real {
    Sum(fs, Spent())
  }

  function Spent(): Fill -> real { (f: Fill) => Worth(f.price, f.qty) }

  // What an order says about the fills it has taken.
  ghost predicate Accounts(o: OrderRow, fs: seq<Fill>) {
    && o.filled <= o.qty
    && o.filled == Sum(fs, Qty())
    && o.fees == Sum(fs, Fee())
    && Worth(o.avgPrice, o.filled) == Notional(fs)
    && (fs != [] ==> Within(fs, o.avgPrice))
    && (o.status.Filled? && !o.confirmed ==> o.filled == o.qty)
    && (o.confirmed ==> o.status.IsTerminal())
  }

  lemma FillKeepsAccounts(o: OrderRow, fs: seq<Fill>, f: Fill)
    requires Accounts(o, fs) && Filling(o, f).error.None?
    ensures Accounts(Filling(o, f).row, fs + [f])
  {
    hide Worth, Mean, Sum;
    SumOneMore(fs, f, Qty());
    SumOneMore(fs, f, Fee());
    SumOneMore(fs, f, Spent());
    MeanKeepsCost(o.avgPrice, o.filled, f.price, f.qty);
    FilledPositive(fs);
    if fs == [] {
      MeanOfOne(o.avgPrice, o.filled, f.price, f.qty);
    } else {
      MeanBetween(o.avgPrice, o.filled, f.price, f.qty);
    }
    FillKeepsBounds(fs, f, o.avgPrice, Mean(o.avgPrice, o.filled, f.price, f.qty));
  }

  ghost predicate Within(fs: seq<Fill>, avg: real) {
    exists i, j :: 0 <= i < |fs| && 0 <= j < |fs| && fs[i].price <= avg <= fs[j].price
  }

  lemma FillKeepsBounds(fs: seq<Fill>, f: Fill, avg: real, mean: real)
    requires if fs == [] then mean == f.price else Within(fs, avg) && Min(avg, f.price) <= mean <= Max(avg, f.price)
    ensures Within(fs + [f], mean)
  {
    var all := fs + [f];
    assert all[|fs|] == f;
    if fs != [] {
      var i, j :| 0 <= i < |fs| && 0 <= j < |fs| && fs[i].price <= avg <= fs[j].price;
      assert all[i] == fs[i] && all[j] == fs[j];
      if avg <= f.price {
        assert all[i].price <= mean <= all[|fs|].price;
      } else {
        assert all[|fs|].price <= mean <= all[j].price;
      }
    }
  }

  lemma {:induction false} FilledPositive(fs: seq<Fill>)
    ensures if fs == [] then Sum(fs, Qty()) == 0.0 else Sum(fs, Qty()) > 0.0
  {
    if fs != [] {
      FilledPositive(fs[..|fs| - 1]);
    }
  }

  // Over every run of successful operations from a new order, the order accounts exactly
  // for the fills it took.
  lemma {:induction false} RunAccounts(o: OrderRow, ops: seq<Op>)
    requires o == NewOrder(o.orderId, o.symbol, o.side, o.qty, o.orderType, o.limitPrice)
    requires Successful(o, ops)
    ensures Accounts(Run(o, ops), FillsIn(ops))
  {
    if ops != [] {
      var before, op := ops[..|ops| - 1], ops[|ops| - 1];
      RunAccounts(o, before);
      if op.TakeFill? {
        FillKeepsAccounts(Run(o, before), FillsIn(before), op.fill);
      } else {
        assert FillsIn(ops) == FillsIn(before);
        OtherKeepsAccounts(Run(o, before), FillsIn(before), op);
      }
    }
  }

  lemma OtherKeepsAccounts(o: OrderRow, fs: seq<Fill>, op: Op)
    requires Accounts(o, fs) && !op.TakeFill? && Perform(o, op).error.None?
    ensures Accounts(Perform(o, op).row, fs)
  {
  }

  // ----- A confirmed terminal state is final -----

  lemma ConfirmedStays(o: OrderRow, op: Op)
    requires o.confirmed && o.status.IsTerminal()
    ensures var r := Perform(o, op).row;
            && r.confirmed && r.status.IsTerminal() && r.status == Said(op, o.status)
            && r.filled == o.filled && r.avgPrice == o.avgPrice && r.fees == o.fees
    ensures op.TakeFill? ==> Perform(o, op).error.Some? && Perform(o, op).row == o
  {
  }

  // The status a confirmed order has after an operation: only the broker's word changes it.
  function Said(op: Op, status: OrderStatus): OrderStatus {
    if op.Confirm? && op.brokerStatus.IsTerminal() then op.brokerStatus else status
  }

  function LastSaid(ops: seq<Op>, status: OrderStatus): OrderStatus {
    if ops == [] then status else Said(ops[|ops| - 1], LastSaid(ops[..|ops| - 1], status))
  }

  // Whatever comes afterwards, raising or not, a confirmed order keeps its amounts, and its
  // status but for a later terminal verdict.
  lemma {:induction false} ConfirmedIsFinal(o: OrderRow, ops: seq<Op>)
    requires o.confirmed && o.status.IsTerminal()
    ensures var r := Run(o, ops);
            && r.confirmed && r.status.IsTerminal() && r.status == LastSaid(ops, o.status)
            && r.filled == o.filled && r.avgPrice == o.avgPrice && r.fees == o.fees
  {
    if ops != [] {
      ConfirmedIsFinal(o, ops[..|ops| - 1]);
      ConfirmedStays(Run(o, ops[..|ops| - 1]), ops[|ops| - 1]);
    }
  }

  // Only the broker's word confirms: a query verdict, or an event reported as confirmed.
  lemma OnlyVerdictsConfirm(o: OrderRow, op: Op)
    requires !o.confirmed && Perform(o, op).row.confirmed
    ensures match op
            case Confirm(s) => s.IsTerminal()
            case Cancel(_, c) => c
            case Reject(_, c) => c
            case _ => false
  {
  }

  // ----- Late fills -----

  // Statuses in which a fill that fits is accepted.
  predicate TakesFills(o: OrderRow) {
    !o.confirmed && !o.status.New? && !o.status.Rejected? && !o.status.Filled?
  }

  function TakeAll(fs: seq<Fill>): seq<Op> {
    if fs == [] then [] else TakeAll(fs[..|fs| - 1]) + [TakeFill(fs[|fs| - 1])]
  }

  // A provisionally cancelled order (or any live one) that is sent fills for no more than
  // what remains takes them all, and is FILLED exactly when they use it up.
  lemma {:induction false} LateFillsComplete(o: OrderRow, fs: seq<Fill>)
    requires o.filled < o.qty && TakesFills(o)
    requires forall f :: f in fs ==> f.orderId == o.orderId
    requires Sum(fs, Qty()) <= o.Remaining()
    ensures Successful(o, TakeAll(fs))
    ensures var r := Run(o, TakeAll(fs));
            && r.filled == o.filled + Sum(fs, Qty()) && r.qty == o.qty && !r.confirmed && r.orderId == o.orderId
            && r.status == if fs == [] then o.status
                           else if Sum(fs, Qty()) == o.Remaining() then Filled else PartiallyFilled
  {
    hide Filling;
    if fs != [] {
      var before, f := fs[..|fs| - 1], fs[|fs| - 1];
      LateFillsComplete(o, before);
      RunOneMore(o, TakeAll(before), TakeFill(f));
      assert f in fs;
      LateFill(Run(o, TakeAll(before)), f);
    }
  }

  lemma LateFill(o: OrderRow, f: Fill)
    requires o.filled + f.qty <= o.qty && TakesFills(o) && f.orderId == o.orderId
    ensures Filling(o, f).error.None?
    ensures var r := Filling(o, f).row;
            && r.status == (if f.qty == o.Remaining() then Filled else PartiallyFilled)
            && r.filled == o.filled + f.qty && r.qty == o.qty && !r.confirmed && r.orderId == o.orderId
  {
    hide Mean;
  }

  // One fill, or two at the same price: the same order results.
  lemma OrderSplit(o: OrderRow, whole: Fill, a: Fill, b: Fill)
    requires (o.status.Filled? && !o.confirmed ==> o.filled == o.qty)
    requires a.orderId == b.orderId == whole.orderId && a.price == b.price == whole.price
    requires a.qty + b.qty == whole.qty && a.fee + b.fee == whole.fee
    requires Filling(o, whole).error.None?
    ensures var mid := Filling(o, a);
            && mid.error.None?
            && Filling(mid.row, b) == Filling(o, whole)
  {
    hide Worth, Mean;
    MeanTwice(o.avgPrice, o.filled, whole.price, a.qty, b.qty);
  }
}
