/**
 * The admission gate `aiConcurrencyLimiter`: a buffered channel of `limit` slots.
 * Taken one step at a time it is a counter of the slots in use (the values
 * buffered in the channel) below a fixed capacity.
 */
module Limiting {

  class Limiter {
    /** The `limit` it was built with: the size of the channel's buffer. */
    const capacity: nat
    /** The number of callers admitted and not yet released: `len(ch)`. */
    var occupancy: nat

    ghost predicate Valid()
      reads this
    {
      occupancy <= capacity
    }

    /** `newAIConcurrencyLimiter`: an empty channel of `limit` slots. */
    constructor (limit: nat)
      ensures Valid()
      ensures capacity == limit && occupancy == 0
    {
      capacity := limit;
      occupancy := 0;
    }

    /**
     * `acquire`: send into the channel. The send blocks while every slot is taken;
     * a caller returns from it only once a slot is free, which is the precondition.
     */
    method Acquire()
      requires Valid() && occupancy < capacity
      modifies this
      ensures Valid()
      ensures occupancy == old(occupancy) + 1
    {
      occupancy := occupancy + 1;
    }

    /**
     * The release function returned by `acquire`: receive from the channel. It is
     * only ever run after a matching acquire, so a slot is always held.
     */
    method Release()
      requires Valid() && occupancy > 0
      modifies this
      ensures Valid()
      ensures occupancy == old(occupancy) - 1
    {
      occupancy := occupancy - 1;
    }
  }
}
