// What the mock broker does over sequences of submits and over whole runs of the closed
// system: which submits fail, what is never traded, what a fill is charged, what a cancel leaves.

module BrokerRuns {
  import opened Models
  import opened Money
  import opened Orders
  import opened EngineSpec
  import opened Views
  import opened Recovery
  import opened MockBroker
  import opened Slicing
  import opened ClosedSystem

  // ----- Submits, one after another -----

  // The broker after a sequence of submits.
  function Submitted(c: MockConfig, b: Broker, os: seq<OrderRow>): Broker {
    if os == [] then b else Answered(c, Submitted(c, b, os[..|os| - 1]), os[|os| - 1]).0
  }

  function ReplyTo(c: MockConfig, b: Broker, os: seq<OrderRow>, i: nat): SubmitReply
    requires i < |os|
  {
    Answered(c, Submitted(c, b, os[..i]), os[i]).1
  }

  // Orders with keys of their own that the broker has not taken.
  ghost predicate FirstSubmits(b: Broker, os: seq<OrderRow>) {
    && (forall i :: 0 <= i < |os| ==> os[i].clientId.Some? && os[i].clientId.value !in b.byClient)
    && (forall i, j :: 0 <= i < j < |os| ==> os[i].clientId != os[j].clientId)
  }

  // How many of them are of tradable symbols.
  function Tradable(c: MockConfig, os: seq<OrderRow>): nat {
    if os == [] then 0 else Tradable(c, os[..|os| - 1]) + if os[|os| - 1].symbol in c.rejects then 0 else 1
  }

  lemma {:induction false} SubmittedSoFar(c: MockConfig, b: Broker, os: seq<OrderRow>)
    ensures var r := Submitted(c, b, os);
            forall k :: k in r.byClient ==> k in b.byClient || exists i :: 0 <= i < |os| && os[i].clientId == Some(k)
    ensures FirstSubmits(b, os) ==>
      var left := b.transients - Tradable(c, os);
      Submitted(c, b, os).transients == if left > 0 then left else 0
  {
    hide BrokerBook.AccountStep, Quantize;
    if os != [] {
      var n := |os| - 1;
      SubmittedSoFar(c, b, os[..n]);
      var before := Submitted(c, b, os[..n]);
      AnswerMoves(c, before, os[n]);
      forall k | k in Answered(c, before, os[n]).0.byClient
        ensures k in b.byClient || exists i :: 0 <= i < |os| && os[i].clientId == Some(k)
      {
        if k in before.byClient && k !in b.byClient {
          var i :| 0 <= i < |os[..n]| && os[..n][i].clientId == Some(k);
          assert os[i].clientId == Some(k);
        }
      }
      if FirstSubmits(b, os) {
        assert FirstSubmits(b, os[..n]);
        forall k | k in before.byClient ensures os[n].clientId != Some(k) {
          if k !in b.byClient {
            var i :| 0 <= i < |os[..n]| && os[..n][i].clientId == Some(k);
            assert os[i].clientId != os[n].clientId;
          }
        }
      }
    }
  }

  lemma AnswerMoves(c: MockConfig, b: Broker, o: OrderRow)
    ensures var r := Answered(c, b, o).0;
            && (forall k :: k in r.byClient ==> k in b.byClient || o.clientId == Some(k))
            && (o.clientId.Some? && o.clientId.value !in b.byClient ==>
                  r.transients == if o.symbol in c.rejects || b.transients == 0 then b.transients else b.transients - 1)
  {
    hide BrokerBook.AccountStep, Quantize, LimitOr;
  }

  // Of any sequence of first submits: an order of a listed symbol is rejected and nothing else
  // is; of the others exactly the first so many fail and may be retried; and neither leaves
  // anything at the broker.
  lemma FirstSubmitsFail(c: MockConfig, b: Broker, os: seq<OrderRow>, i: nat)
    requires FirstSubmits(b, os) && i < |os|
    ensures ReplyTo(c, b, os, i).OrderRejected? <==> os[i].symbol in c.rejects
    ensures ReplyTo(c, b, os, i).Transient? <==> os[i].symbol !in c.rejects && Tradable(c, os[..i]) < b.transients
    ensures ReplyTo(c, b, os, i).OrderRejected? || ReplyTo(c, b, os, i).Transient? ==>
      var before, after := Submitted(c, b, os[..i]), Submitted(c, b, os[..i + 1]);
      after == before.(transients := after.transients)
  {
    hide BrokerBook.AccountStep, Quantize, LimitOr;
    SubmittedSoFar(c, b, os[..i]);
    assert os[..i + 1][..i] == os[..i];
    assert FirstSubmits(b, os[..i]);
    var before := Submitted(c, b, os[..i]);
    forall k | k in before.byClient ensures os[i].clientId != Some(k) {
      if k !in b.byClient {
        var j :| 0 <= j < |os[..i]| && os[..i][j].clientId == Some(k);
        assert os[j].clientId != os[i].clientId;
      }
    }
  }

  // A client id the broker has taken is answered with its order's last ack, whatever the
  // order submitted under it says, and nothing happens.
  lemma ResubmitReplays(c: MockConfig, b: Broker, o: OrderRow, again: OrderRow)
    requires o.clientId.Some? && o.clientId == again.clientId && o.clientId.value !in b.byClient
    requires Answered(c, b, o).1.Acknowledged?
    ensures Answered(c, Answered(c, b, o).0, again) == Answered(c, b, o)
  {
    hide BrokerBook.AccountStep, Quantize, LimitOr;
  }

  // The rate times the quantity, to the nearest cent.
  ghost predicate IsRate(c: MockConfig, qty: real, fee: real) {
    IsNearest(Worth(c.feePerShare, qty), 0.01, fee)
  }

  // Without slicing an accepted order is filled at once and whole: at its limit, or else at
  // the symbol's price, or 100 if it has none.
  lemma FilledAtSubmit(c: MockConfig, b: Broker, o: OrderRow, price: real)
    requires c.slices <= 1 && b.transients == 0 && o.symbol !in c.rejects
    requires o.clientId.Some? && o.clientId.value !in b.byClient
    requires price >= 0.0 && PricedFrom(o, if o.symbol in b.prices then b.prices[o.symbol] else 100.0, price)
    ensures var (r, reply) := Answered(c, b, o);
            && reply == Acknowledged(Ack(b.counter + 1, Filled, o.qty, price))
            && |r.queue| == |b.queue| + 1 && r.queue[..|b.queue|] == b.queue && r.drips == b.drips
            && var f := r.queue[|b.queue|];
               && f.orderId == o.orderId && f.symbol == o.symbol && f.side == o.side
               && f.qty == o.qty && f.price == price && IsRate(c, f.qty, f.fee)
  {
    hide BrokerBook.AccountStep, Quantize, IsRate, Worth;
    ChargedIsNearest(c, o.qty);
  }

  // ----- What is never traded, and what a fill is charged -----

  ghost predicate Honest(c: MockConfig, f: Fill) {
    f.symbol !in c.rejects && IsRate(c, f.qty, f.fee)
  }

  ghost predicate HonestState(p: Setup, x: Sys) {
    && (forall f :: f in x.emitted ==> Honest(p.mock, f))
    && (forall bid :: bid in x.brk.drips ==> x.brk.drips[bid].order.symbol !in p.mock.rejects)
  }

  lemma ExecutedIsHonest(c: MockConfig, o: OrderRow, qty: Size, price: Amount, n: nat)
    requires o.symbol !in c.rejects
    ensures Honest(c, Executed(c, o, qty, price, n))
  {
    hide Quantize, IsRate;
    ChargedIsNearest(c, qty);
  }

  lemma ChargedIsNearest(c: MockConfig, qty: real)
    ensures IsRate(c, qty, Quantize(Worth(c.feePerShare, qty), CENTS))
  {
    hide Quantize, IsNearest, Worth;
    QuantizeIsNearest(Worth(c.feePerShare, qty), 0.01);
  }

  lemma AnswerIsHonest(c: MockConfig, b: Broker, o: OrderRow)
    requires forall bid :: bid in b.drips ==> b.drips[bid].order.symbol !in c.rejects
    ensures var r := Answered(c, b, o).0;
            && (forall f :: f in NewFills(b, r) ==> Honest(c, f))
            && (forall bid :: bid in r.drips ==> r.drips[bid].order.symbol !in c.rejects)
  {
    hide AcceptImmediate, Honest;
    if o.symbol !in c.rejects {
      ImmediateIsHonest(c, b.(counter := b.counter + 1), o, b.counter + 1);
    }
  }

  lemma ImmediateIsHonest(c: MockConfig, b: Broker, o: OrderRow, bid: BrokerId)
    requires o.symbol !in c.rejects
    ensures var r := AcceptImmediate(c, b, o, bid).0;
            && (r.queue == b.queue || exists f: Fill :: r.queue == b.queue + [f] && Honest(c, f))
            && r.drips == b.drips
  {
    hide BrokerBook.AccountStep, Honest, Executed, LimitOr;
    var price := LimitOr(o, PriceFor(b, o.symbol));
    if price >= 0.0 {
      ExecutedIsHonest(c, o, o.qty, price, b.counter + 1);
    }
  }

  lemma SliceIsHonest(c: MockConfig, b: Broker, bid: BrokerId)
    requires forall i :: i in b.drips ==> b.drips[i].order.symbol !in c.rejects
    requires bid in b.drips && b.drips[bid].base.Some?
    ensures var r := DripSlice(c, b, bid);
            && (forall f :: f in NewFills(b, r) ==> Honest(c, f))
            && (forall i :: i in r.drips ==> r.drips[i].order.symbol !in c.rejects)
  {
    hide BrokerBook.AccountStep, Quantize, LimitOr, SliceQty, Honest;
    forall qty: Size, price: Amount, n: nat ensures Honest(c, Executed(c, b.drips[bid].order, qty, price, n)) {
      ExecutedIsHonest(c, b.drips[bid].order, qty, price, n);
    }
  }

  lemma EmittingIsHonest(p: Setup, x: Sys, r: Broker)
    requires HonestState(p, x) && (forall f :: f in NewFills(x.brk, r) ==> Honest(p.mock, f))
    requires forall i :: i in r.drips ==> r.drips[i].order.symbol !in p.mock.rejects
    ensures HonestState(p, Emitting(x, r))
  {
    hide Honest, NewFills;
  }

  lemma StepIsHonest(p: Setup, x: Sys, ev: SysEvent)
    requires HonestState(p, x)
    ensures HonestState(p, SysStep(p, x, ev))
  {
    hide Honest, SubmitBegin, SubmitAck, OnFill, CancelAck, ConfirmAck, Load, Answered, DripSlice, NewFills;
    match ev {
      case Submits(req, id) =>
        if id !in x.eng.orders {
          var e := SubmitBegin(x.eng, req, id).0;
          if id in e.orders {
            var r := Answered(p.mock, x.brk, e.orders[id]).0;
            AnswerIsHonest(p.mock, x.brk, e.orders[id]);
            EmittingIsHonest(p, x, r);
          }
        }
      case DripTurns(bid) =>
        if bid in x.brk.drips && x.brk.drips[bid].base.Some? {
          SliceIsHonest(p.mock, x.brk, bid);
          EmittingIsHonest(p, x, DripSlice(p.mock, x.brk, bid));
        }
      case _ =>
    }
  }

  // Over every run no fill is of a listed symbol, and every fill carries the fee of its own
  // quantity.
  lemma {:induction false} FillsAreHonest(p: Setup, transients: nat, prices: map<Symbol, real>, evs: seq<SysEvent>)
    ensures HonestState(p, SysRun(p, Begin(transients, prices), evs))
  {
    hide SysStep, HonestState;
    if evs == [] {
      HonestAtFirst(p, transients, prices);
    } else {
      FillsAreHonest(p, transients, prices, evs[..|evs| - 1]);
      StepIsHonest(p, SysRun(p, Begin(transients, prices), evs[..|evs| - 1]), evs[|evs| - 1]);
    }
  }

  lemma HonestAtFirst(p: Setup, transients: nat, prices: map<Symbol, real>)
    ensures HonestState(p, Begin(transients, prices))
  {
  }

  // ----- Acks that stay -----

  // Terminal, and nothing more to be sent under it.
  predicate Settled(b: Broker, bid: BrokerId) {
    bid in b.acks && b.acks[bid].status.IsTerminal() && bid !in b.drips
  }

  lemma SettledAckStays(p: Setup, x: Sys, ev: SysEvent, bid: BrokerId)
    requires SysInv(p, x) && Settled(x.brk, bid)
    ensures var b := SysStep(p, x, ev).brk; Settled(b, bid) && b.acks[bid] == x.brk.acks[bid]
  {
    hide Agrees, Streams, Linked, SubmitBegin, SubmitAck, OnFill, CancelAck, ConfirmAck, Load, Answered;
    hide BrokerBook.AccountStep, SliceQty, Quantize, LimitOr;
    match ev {
      case Submits(req, id) =>
        if id !in x.eng.orders {
          SubmitShape(x.eng, req, id);
          SubmitAgrees(p.config, x.eng, req, id);
          var (e, outcome) := SubmitBegin(x.eng, req, id);
          if outcome.Dispatched? {
            AnswerShape(p.mock, x.brk, e.orders[id]);
            OldAcks(x.eng.orders, x.brk, x.emitted, bid);
          }
        }
      case _ =>
    }
  }

  lemma OldAcks(orders: map<OrderId, OrderRow>, b: Broker, fs: seq<Fill>, bid: BrokerId)
    requires Linked(orders, b, fs) && bid in b.acks
    ensures bid <= b.counter
  {
    hide OrderLinked;
  }

  lemma {:induction false} SettledForGood(p: Setup, x: Sys, evs: seq<SysEvent>, bid: BrokerId)
    requires SysInv(p, x) && Settled(x.brk, bid)
    ensures var b := SysRun(p, x, evs).brk; Settled(b, bid) && b.acks[bid] == x.brk.acks[bid]
  {
    hide SysInv, SysStep;
    if evs != [] {
      var before := evs[..|evs| - 1];
      SettledForGood(p, x, before, bid);
      EveryRun(p, x, before);
      SettledAckStays(p, SysRun(p, x, before), evs[|evs| - 1], bid);
    }
  }

  // A cancel of an open ack is CANCELLED with the amounts it had, and so is every query from
  // then on, through any run, unless its slicing was still to send; then up to its next slice.
  lemma CancelIsKept(p: Setup, x: Sys, id: OrderId, bid: BrokerId, evs: seq<SysEvent>)
    requires SysInv(p, x) && id in x.eng.orders && x.eng.orders[id].brokerId == Some(bid)
    requires bid in x.brk.acks && x.brk.acks[bid].status in {Working, PartiallyFilled}
    ensures var a, kept := x.brk.acks[bid], CancelAnswer(x.brk, Some(bid));
            && kept.1 == Ack(bid, Cancelled, a.filled, a.avgPrice)
            && Queried(kept.0, Some(bid)) == kept.1
            && (bid !in x.brk.drips ==> Queried(SysRun(p, CancelStep(x, id), evs).brk, Some(bid)) == kept.1)
  {
    hide SysInv, SysRun, CancelAck;
    if bid !in x.brk.drips {
      CancelKeeps(p, x, id);
      SettledForGood(p, CancelStep(x, id), evs, bid);
    }
  }
}
