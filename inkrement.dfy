/** The `Inkrement` contract: a single `u64` counter in storage. */
module Inkrement {

  /** The largest `u64`. */
  const U64_MAX: nat := 0xFFFF_FFFF_FFFF_FFFF

  type u64 = x: nat | x <= U64_MAX

  class Inkrement {
    var value: u64

    /** Stores `initValue`. */
    constructor New(initValue: u64)
      ensures value == initValue
    {
      value := initValue;
    }

    /** Starts at the default `u64`, zero, as `new` with that value would. */
    constructor Default()
      ensures value == 0
    {
      value := 0;
    }

    /** Adds one to the stored value. lib.rs has no overflow handling, so the
        stored value must be below the largest `u64`. */
    method Inc()
      requires value < U64_MAX
      modifies this
      ensures value == old(value) + 1
    {
      value := value + 1;
    }

    /** Reads the stored value; the counter is not changed. */
    method Get() returns (v: u64)
      ensures v == value
    {
      v := value;
    }
  }

  /** The default counter reads zero. */
  method DefaultReadsZero() returns (v: u64)
    ensures v == 0
  {
    var c := new Inkrement.Default();
    v := c.Get();
  }

  /** A counter created with zero reads zero, and one after an increment. */
  method IncrementFromZero() returns (before: u64, after: u64)
    ensures before == 0 && after == 1
  {
    var c := new Inkrement.New(0);
    before := c.Get();
    c.Inc();
    after := c.Get();
  }
}
