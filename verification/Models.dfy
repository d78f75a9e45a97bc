// Core value types (app/models.py). Decimal is modelled as exact real arithmetic.

module Models {

  datatype Option<+T> = None | Some(value: T)

  type Symbol = string
  type OrderId = nat
  type BrokerId = nat

  // The venue's execution id. Blank stands for the empty string, which Python treats as false.
  datatype ExecId = Blank | Exec(n: nat)

  type Amount = x: real | x >= 0.0

  type Size = x: real | x > 0.0 witness 1.0

  datatype Side = Buy | Sell

  datatype OrderType = Market | Limit

  datatype OrderStatus = New | Submitted | Working | PartiallyFilled | Filled | Cancelled | Rejected {
    predicate IsTerminal() {
      Filled? || Cancelled? || Rejected?
    }

    predicate IsOpen() {
      !IsTerminal()
    }
  }

  // derive_key is opaque and injective: the key is the order's economic intent itself. A zero
  // limit price is false in Python, so it derives the same key as no limit price.
  datatype Key = Key(
    symbol: Symbol,
    side: Side,
    qty: real,
    orderType: OrderType,
    limitPrice: Option<real>,
    nonce: string)

  function DeriveKey(symbol: Symbol, side: Side, qty: real, orderType: OrderType, limitPrice: Option<real>,
                     nonce: string): Key {
    Key(symbol, side, qty, orderType, if limitPrice == Some(0.0) then None else limitPrice, nonce)
  }

  datatype FillRecord = Execution(
    orderId: OrderId,
    symbol: Symbol,
    side: Side,
    qty: real,
    price: real,
    fee: real,
    fillId: nat,
    exec: Option<ExecId>,
    ts: int)
  {
    // qty with the sign of the side.
    function SignedQty(): real {
      if side.Buy? then qty else -qty
    }

    // `if fill.broker_exec_id`: neither None nor the empty string.
    predicate HasExec() {
      exec.Some? && exec.value != Blank
    }
  }

  // The constructor refuses a non-positive quantity and a negative price.
  type Fill = f: FillRecord | f.qty > 0.0 && f.price >= 0.0
    witness Execution(0, "", Buy, 1.0, 0.0, 0.0, 0, None, 0)

  // What the venue says about an order right now.
  datatype Ack = Ack(brokerId: BrokerId, status: OrderStatus, filled: real, avgPrice: real)

  function Abs(x: real): real {
    if x < 0.0 then -x else x
  }

  function Min(x: real, y: real): real {
    if x <= y then x else y
  }

  function Max(x: real, y: real): real {
    if x <= y then y else x
  }

  // x times a sign of -1, 0 or 1.
  function Signed(sign: int, x: real): real {
    if sign > 0 then x else if sign < 0 then -x else 0.0
  }

  // The sign of a non-zero quantity.
  function Sgn(x: real): int {
    if x > 0.0 then 1 else -1
  }
}
