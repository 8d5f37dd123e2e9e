/** Modelled time: it advances only in sleeps and requests. */
module Timing {
  function Min(a: int, b: int): int {
    if a <= b then a else b
  }

  function Max(a: int, b: int): int {
    if a >= b then a else b
  }

  class Clock {
    var now: int

    constructor (start: int)
      ensures now == start
    {
      now := start;
    }

    method Sleep(ms: int)
      requires ms >= 1
      modifies this
      ensures now == old(now) + ms
    {
      now := now + ms;
    }

    /** A request that takes any time up to its timeout. */
    method Request(timeoutMs: int)
      requires timeoutMs >= 1
      modifies this
      ensures old(now) <= now <= old(now) + timeoutMs
    {
      var took :| 0 <= took <= timeoutMs;
      now := now + took;
    }
  }
}
