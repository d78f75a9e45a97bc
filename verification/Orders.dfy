// Order state machine (app/orders.py): legal transitions, late fills, and provisional
// against broker-confirmed terminal states.

module Orders {
  import opened Models
  import opened Money

  datatype OrderRow = OrderRow(
    orderId: OrderId,
    symbol: Symbol,
    side: Side,
    qty: Size,
    orderType: OrderType,
    limitPrice: Option<real>,
    clientId: Option<Key>,
    brokerId: Option<BrokerId>,
    status: OrderStatus,
    filled: Amount,
    avgPrice: real,
    fees: real,
    reason: Option<string>,
    confirmed: bool)
  {
    function Remaining(): real {
      qty - filled
    }

    predicate IsComplete() {
      filled >= qty
    }
  }

  function NewOrder(orderId: OrderId, symbol: Symbol, side: Side, qty: Size, orderType: OrderType,
                    limitPrice: Option<real>): OrderRow {
    OrderRow(orderId, symbol, side, qty, orderType, limitPrice, None, None, New, 0.0, 0.0, 0.0, None, false)
  }

  // The Order constructor's own checks.
  predicate Constructible(qty: real, orderType: OrderType, limitPrice: Option<real>) {
    qty > 0.0 && (orderType.Limit? ==> limitPrice.Some?)
  }

  datatype OrderError = IllegalTransition(current: OrderStatus, requested: OrderStatus) | OverFill | WrongOrder

  // A call's effect on the order, and the exception it raised, if any. A raising call may
  // still have changed the order.
  datatype Outcome = Outcome(row: OrderRow, error: Option<OrderError>)

  function LegalFrom(current: OrderStatus): set<OrderStatus> {
    match current
    case New => {Submitted, Rejected, Cancelled}
    case Submitted => {Working, PartiallyFilled, Filled, Cancelled, Rejected}
    case Working => {PartiallyFilled, Filled, Cancelled, Rejected}
    case PartiallyFilled => {PartiallyFilled, Filled, Cancelled}
    case Filled => {Filled}
    case Cancelled => {Cancelled, Filled}
    case Rejected => {Rejected}
  }

  predicate CanTransition(current: OrderStatus, requested: OrderStatus) {
    requested in LegalFrom(current)
  }

  function Moved(o: OrderRow, requested: OrderStatus): Outcome {
    if CanTransition(o.status, requested) then Outcome(o.(status := requested), None)
    else Outcome(o, Some(IllegalTransition(o.status, requested)))
  }

  function Submitting(o: OrderRow, brokerId: BrokerId): Outcome {
    var r := Moved(o, Submitted);
    if r.error.Some? then r else Outcome(r.row.(brokerId := Some(brokerId)), None)
  }

  // The three amounts a fill adds up on its order.
  function Accumulated(o: OrderRow, f: Fill): OrderRow {
    var newFilled := o.filled + f.qty;
    o.(avgPrice := Mean(o.avgPrice, o.filled, f.price, f.qty),
       filled := newFilled,
       fees := o.fees + f.fee)
  }

  function Filling(o: OrderRow, f: Fill): Outcome {
    if f.orderId != o.orderId then Outcome(o, Some(WrongOrder))
    else if o.confirmed then Outcome(o, Some(IllegalTransition(o.status, PartiallyFilled)))
    else if o.filled + f.qty > o.qty then Outcome(o, Some(OverFill))
    else
      var a := Accumulated(o, f);
      var target := if a.IsComplete() then Filled else PartiallyFilled;
      if o.status.Cancelled? then Outcome(a.(status := target), None) else Moved(a, target)
  }

  function Cancelling(o: OrderRow, reason: Option<string>, confirmed: bool): Outcome {
    if o.status.Filled? && o.confirmed then Outcome(o, None)
    else
      var r := if o.status.Cancelled? then Outcome(o, None) else Moved(o, Cancelled);
      if r.error.Some? then r
      else
        Outcome(r.row.(reason := if reason.Some? && reason.value != "" then reason else r.row.reason,
                       confirmed := confirmed || r.row.confirmed), None)
  }

  function Rejecting(o: OrderRow, reason: string, confirmed: bool): Outcome {
    if o.confirmed && o.status.Rejected? then Outcome(o, None)
    else if o.filled > 0.0 then Outcome(o, Some(IllegalTransition(o.status, Rejected)))
    else
      var r := if o.status.Rejected? then Outcome(o, None) else Moved(o, Rejected);
      if r.error.Some? then r else Outcome(r.row.(reason := Some(reason), confirmed := confirmed), None)
  }

  function Confirming(o: OrderRow, brokerStatus: OrderStatus): OrderRow {
    if brokerStatus.IsOpen() then
      if o.status.IsTerminal() && !o.confirmed then o.(status := brokerStatus) else o
    else
      o.(status := brokerStatus, confirmed := true)
  }

  predicate NeedsConfirmation(o: OrderRow) {
    o.status.IsTerminal() && !o.confirmed
  }

  // ----- The order object, updated in place -----

  class Order {
    const orderId: OrderId
    const symbol: Symbol
    const side: Side
    const qty: Size
    const orderType: OrderType
    const limitPrice: Option<real>
    var clientId: Option<Key>
    var brokerId: Option<BrokerId>
    var status: OrderStatus
    var filled: Amount
    var avgPrice: real
    var fees: real
    var reason: Option<string>
    var confirmed: bool

    constructor (orderId: OrderId, symbol: Symbol, side: Side, qty: Size, orderType: OrderType,
                 limitPrice: Option<real>)
      requires orderType.Limit? ==> limitPrice.Some?
      ensures Row() == NewOrder(orderId, symbol, side, qty, orderType, limitPrice)
    {
      this.orderId, this.symbol, this.side, this.qty := orderId, symbol, side, qty;
      this.orderType, this.limitPrice := orderType, limitPrice;
      clientId, brokerId, status := None, None, New;
      filled, avgPrice, fees, reason, confirmed := 0.0, 0.0, 0.0, None, false;
    }

    // A fresh object holding a stored row.
    constructor FromRow(row: OrderRow)
      ensures Row() == row
    {
      orderId, symbol, side, qty := row.orderId, row.symbol, row.side, row.qty;
      orderType, limitPrice := row.orderType, row.limitPrice;
      clientId, brokerId, status := row.clientId, row.brokerId, row.status;
      filled, avgPrice, fees, reason, confirmed := row.filled, row.avgPrice, row.fees, row.reason, row.confirmed;
    }

    function Row(): OrderRow
      reads this
    {
      OrderRow(orderId, symbol, side, qty, orderType, limitPrice, clientId, brokerId,
               status, filled, avgPrice, fees, reason, confirmed)
    }

    method Transition(requested: OrderStatus) returns (error: Option<OrderError>)
      modifies this`status
      ensures Outcome(Row(), error) == Moved(old(Row()), requested)
    {
      if !CanTransition(status, requested) {
        return Some(IllegalTransition(status, requested));
      }
      status := requested;
      return None;
    }

    method MarkSubmitted(brokerId: BrokerId) returns (error: Option<OrderError>)
      modifies this
      ensures Outcome(Row(), error) == Submitting(old(Row()), brokerId)
    {
      error := Transition(Submitted);
      if error.None? {
        this.brokerId := Some(brokerId);
      }
    }

    method ApplyFill(fill: Fill) returns (error: Option<OrderError>)
      modifies this
      ensures Outcome(Row(), error) == Filling(old(Row()), fill)
    {
      if fill.orderId != orderId {
        return Some(WrongOrder);
      }
      if confirmed {
        return Some(IllegalTransition(status, PartiallyFilled));
      }
      var newFilled := filled + fill.qty;
      if newFilled > qty {
        return Some(OverFill);
      }
      avgPrice := Mean(avgPrice, filled, fill.price, fill.qty);
      filled := newFilled;
      fees := fees + fill.fee;
      var target := if filled >= qty then Filled else PartiallyFilled;
      if status == Cancelled {
        status := target;
        return None;
      }
      error := Transition(target);
    }

    method MarkCancelled(reason: Option<string>, confirmed: bool) returns (error: Option<OrderError>)
      modifies this
      ensures Outcome(Row(), error) == Cancelling(old(Row()), reason, confirmed)
    {
      if status == Filled && this.confirmed {
        return None;
      }
      if status != Cancelled {
        error := Transition(Cancelled);
        if error.Some? {
          return;
        }
      }
      if reason.Some? && reason.value != "" {
        this.reason := reason;
      }
      if confirmed {
        this.confirmed := true;
      }
      return None;
    }

    method MarkRejected(reason: string, confirmed: bool) returns (error: Option<OrderError>)
      modifies this
      ensures Outcome(Row(), error) == Rejecting(old(Row()), reason, confirmed)
    {
      if this.confirmed && status == Rejected {
        return None;
      }
      if filled > 0.0 {
        return Some(IllegalTransition(status, Rejected));
      }
      if status != Rejected {
        error := Transition(Rejected);
        if error.Some? {
          return;
        }
      }
      this.reason := Some(reason);
      this.confirmed := confirmed;
      return None;
    }

    method ConfirmTerminal(brokerStatus: OrderStatus)
      modifies this
      ensures Row() == Confirming(old(Row()), brokerStatus)
    {
      if brokerStatus.IsOpen() {
        if status.IsTerminal() && !confirmed {
          status := brokerStatus;
          confirmed := false;
        }
        return;
      }
      if status != brokerStatus {
        status := brokerStatus;
      }
      confirmed := true;
    }
  }
}
