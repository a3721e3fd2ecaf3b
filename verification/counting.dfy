/**
 The run/epoch/trial counter the environment keeps (the engine's env.Ctr).
 The counter library is not part of this model; its behaviour is taken to be:
 Init restarts at 0 with no previous value, Same clears the changed flag, and
 Incr records the previous value, advances by one and, when a positive
 maximum is reached, wraps back to 0 and reports the wrap.
 */
module Counting {

  /** Current value, previous value, whether it changed on this step, and the wrap point (none when not positive). */
  datatype Ctr = Ctr(cur: int, prv: int, chg: bool, max: int)

  /** The (current, previous, changed) triple the counter reports. */
  datatype Reading = Reading(cur: int, prv: int, chg: bool)

  /** A counter after Incr, with whether it wrapped. */
  datatype Incremented = Incremented(ctr: Ctr, wrapped: bool)

  /** Restarts the counter: it reads 0, has no previous value and keeps its maximum. */
  function Init(c: Ctr): (r: Ctr)
    ensures Query(r) == Reading(0, -1, false)
    ensures r.max == c.max
  {
    Ctr(0, -1, false, c.max)
  }

  /** Marks the counter unchanged for this step without touching its values. */
  function Same(c: Ctr): (r: Ctr)
    ensures !r.chg
    ensures r.(chg := c.chg) == c
  {
    c.(chg := false)
  }

  /**
   Advances the counter by one. A counter with a positive maximum that starts
   in [-1, max) stays in [0, max) and wraps exactly when it was at max - 1; a
   counter without a maximum never wraps.
   */
  function Incr(c: Ctr): (r: Incremented)
    ensures r.ctr.prv == c.cur && r.ctr.chg && r.ctr.max == c.max
    ensures r.wrapped <==> 0 < c.max <= c.cur + 1
    ensures r.wrapped ==> r.ctr.cur == 0
    ensures !r.wrapped ==> r.ctr.cur == c.cur + 1
    ensures 0 < c.max && -1 <= c.cur < c.max ==> 0 <= r.ctr.cur < c.max && (r.wrapped <==> c.cur == c.max - 1)
    ensures c.max <= 0 ==> !r.wrapped
  {
    var next := c.cur + 1;
    if c.max > 0 && next >= c.max then
      Incremented(Ctr(0, c.cur, true, c.max), true)
    else
      Incremented(Ctr(next, c.cur, true, c.max), false)
  }

  /** The reading the counter reports. */
  function Query(c: Ctr): Reading {
    Reading(c.cur, c.prv, c.chg)
  }
}
