// Submit idempotency (app/idempotency.py): one key, one order.

module Idempotency {
  import opened Models
  import opened Orders

  datatype Claim = Claim(orderId: OrderId, sent: bool)

  type Registry = map<Key, Claim>

  // The first claim of a key wins; a later one changes nothing.
  function Claimed(r: Registry, key: Key, orderId: OrderId): Registry {
    if key in r then r else r[key := Claim(orderId, false)]
  }

  function Sent(r: Registry, key: Key): Registry {
    if key in r then r[key := r[key].(sent := true)] else r
  }

  class IdempotencyRegistry {
    var byKey: Registry

    constructor ()
      ensures byKey == map[]
    {
      byKey := map[];
    }

    method Get(key: Key) returns (claim: Option<Claim>)
      ensures claim == if key in byKey then Some(byKey[key]) else None
    {
      if key in byKey {
        return Some(byKey[key]);
      }
      return None;
    }

    method Reserve(key: Key, order: Order) returns (claim: Claim)
      modifies this, order`clientId
      ensures byKey == Claimed(old(byKey), key, order.orderId) && claim == byKey[key]
      ensures order.clientId == if key in old(byKey) then old(order.clientId) else Some(key)
    {
      if key in byKey {
        return byKey[key];
      }
      order.clientId := Some(key);
      claim := Claim(order.orderId, false);
      byKey := byKey[key := claim];
    }

    method MarkSent(key: Key)
      modifies this
      ensures byKey == Sent(old(byKey), key)
    {
      if key in byKey {
        byKey := byKey[key := byKey[key].(sent := true)];
      }
    }
  }
}
