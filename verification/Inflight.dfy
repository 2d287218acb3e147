/** The counter that caps concurrent sessions. */
module Inflight {

  /** At least one slot, whatever the configuration says. */
  function Slots(maxInflight: nat): nat {
    if maxInflight == 0 then 1 else maxInflight
  }

  class InFlightSemaphore {
    const max: nat
    var current: nat

    ghost predicate Valid()
      reads this
    {
      current <= max && max > 0
    }

    constructor (maxInflight: nat)
      ensures Valid() && max == Slots(maxInflight) && current == 0
    {
      max := if maxInflight == 0 then 1 else maxInflight;
      current := 0;
    }

    method TryAcquire() returns (taken: bool)
      requires Valid()
      modifies this
      ensures Valid()
      ensures taken <==> old(current) < max
      ensures current == old(current) + (if taken then 1 else 0)
    {
      if current >= max {
        return false;
      }
      current := current + 1;
      return true;
    }

    /** Never goes below zero, even when nothing is held. */
    method Release()
      requires Valid()
      modifies this
      ensures Valid()
      ensures current == if old(current) > 0 then old(current) - 1 else 0
    {
      if current > 0 {
        current := current - 1;
      }
    }
  }
}
