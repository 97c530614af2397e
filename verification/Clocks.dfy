/** Wall-clock time as every process reads it. */
module Clocks {
  /** A shared, monotone clock that can advance between any two reads. */
  class Clock {
    var now: int

    constructor ()
      ensures now == 1
    {
      now := 1;
    }

    method Read() returns (t: int)
      modifies this
      ensures old(now) <= now == t
    {
      var later: int :| now <= later;
      now := later;
      t := now;
    }
  }
}
