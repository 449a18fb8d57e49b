/**
 * The displacement clock that every simulator page advances once per frame or
 * timer tick: while running it adds the per-tick step (speed / 60) and stops the
 * run on the first tick that reaches the limit. The two simulation.js pages clamp
 * the displacement to the limit (10 mm); script.js does not (limit 5 mm).
 */
module RunClock {

  /** The part of a simulator's state that the tick advances. */
  datatype Clock = Clock(displacement: real, running: bool)

  /** One tick. */
  function Advance(c: Clock, step: real, limit: real, clamp: bool): Clock
  {
    if !c.running then c
    else
      var d := c.displacement + step;
      if d >= limit then Clock(if clamp then limit else d, false)
      else Clock(d, true)
  }

  /** A stopped clock does not move. */
  lemma AdvanceWhenStopped(c: Clock, step: real, limit: real, clamp: bool)
    requires !c.running
    ensures Advance(c, step, limit, clamp) == c
  {
  }

  /** The run stops exactly on the tick whose new displacement reaches the limit, and never before. */
  lemma AdvanceStopsAtLimit(c: Clock, step: real, limit: real, clamp: bool)
    requires c.running
    ensures !Advance(c, step, limit, clamp).running <==> c.displacement + step >= limit
    ensures Advance(c, step, limit, clamp).running ==> Advance(c, step, limit, clamp).displacement == c.displacement + step
    ensures !Advance(c, step, limit, clamp).running ==> Advance(c, step, limit, clamp).displacement == (if clamp then limit else c.displacement + step)
  {
  }

  /** With clamping the displacement never exceeds the limit. */
  lemma AdvanceClamped(c: Clock, step: real, limit: real)
    requires c.displacement <= limit
    ensures Advance(c, step, limit, true).displacement <= limit
  {
  }

  /** Without clamping the final displacement overshoots the limit by less than one step. */
  lemma AdvanceOvershoot(c: Clock, step: real, limit: real)
    requires c.running && c.displacement < limit
    ensures Advance(c, step, limit, false).displacement < limit + step
  {
  }

  /** For a non-negative speed the displacement never decreases. */
  lemma AdvanceMonotone(c: Clock, step: real, limit: real, clamp: bool)
    requires step >= 0.0 && (clamp ==> c.displacement <= limit)
    ensures c.displacement <= Advance(c, step, limit, clamp).displacement
  {
  }

  /** `n` ticks. */
  function Run(c: Clock, step: real, limit: real, clamp: bool, n: nat): Clock
    decreases n
  {
    if n == 0 then c else Run(Advance(c, step, limit, clamp), step, limit, clamp, n - 1)
  }

  /** While `c.displacement + k·step` stays below the limit, `k` ticks leave the run going at exactly that displacement. */
  lemma {:induction false} RunStillRunning(c: Clock, step: real, limit: real, clamp: bool, k: nat)
    requires c.running && step >= 0.0
    requires c.displacement + (k as real) * step < limit
    ensures Run(c, step, limit, clamp, k) == Clock(c.displacement + (k as real) * step, true)
    decreases k
  {
    if k > 0 {
      assert (k as real) * step == ((k - 1) as real) * step + step;
      assert ((k - 1) as real) * step >= 0.0 by { NonNegativeMultiple(step, k - 1); }
      assert c.displacement + step < limit;
      var next := Clock(c.displacement + step, true);
      assert Advance(c, step, limit, clamp) == next;
      RunStillRunning(next, step, limit, clamp, k - 1);
    }
  }

  lemma NonNegativeMultiple(step: real, k: nat)
    requires step >= 0.0
    ensures (k as real) * step >= 0.0
  {
  }

  /**
   * The run completes on tick `n`, the first with `c.displacement + n·step` at or past the
   * limit; the displacement is then the limit when clamped and `c.displacement + n·step` when not.
   */
  lemma {:induction false} RunCompletes(c: Clock, step: real, limit: real, clamp: bool, n: nat)
    requires c.running && n >= 1
    requires c.displacement + ((n - 1) as real) * step < limit <= c.displacement + (n as real) * step
    ensures Run(c, step, limit, clamp, n) == Clock(if clamp then limit else c.displacement + (n as real) * step, false)
    decreases n
  {
    assert (n as real) * step == ((n - 1) as real) * step + step;
    if n == 1 {
      assert Run(c, step, limit, clamp, 1) == Advance(c, step, limit, clamp);
    } else {
      assert c.displacement + ((n - 1) as real) * step + step >= limit;
      assert step > 0.0;
      assert ((n - 1) as real) * step == ((n - 2) as real) * step + step;
      assert step <= ((n - 1) as real) * step;
      var next := Clock(c.displacement + step, true);
      assert Advance(c, step, limit, clamp) == next;
      RunCompletes(next, step, limit, clamp, n - 1);
    }
  }

  /** Once stopped, any number of further ticks change nothing. */
  lemma {:induction false} RunWhenStopped(c: Clock, step: real, limit: real, clamp: bool, n: nat)
    requires !c.running
    ensures Run(c, step, limit, clamp, n) == c
    decreases n
  {
    if n > 0 {
      RunWhenStopped(Advance(c, step, limit, clamp), step, limit, clamp, n - 1);
    }
  }

  /** At 1.2 mm/min from rest the 10 mm test completes on tick 500 at exactly 10 mm. */
  lemma DefaultSpeedCompletesOnTick500()
    ensures Run(Clock(0.0, true), 1.2 / 60.0, 10.0, true, 499) == Clock(9.98, true)
    ensures Run(Clock(0.0, true), 1.2 / 60.0, 10.0, true, 500) == Clock(10.0, false)
  {
    RunStillRunning(Clock(0.0, true), 1.2 / 60.0, 10.0, true, 499);
    RunCompletes(Clock(0.0, true), 1.2 / 60.0, 10.0, true, 500);
  }

  /** At 1.3 mm/min the unclamped 5 mm run stops on tick 231 beyond the limit, at 5.005 mm. */
  lemma UnclampedRunOvershoots()
    ensures Run(Clock(0.0, true), 1.3 / 60.0, 5.0, false, 231) == Clock(5.005, false)
  {
    RunCompletes(Clock(0.0, true), 1.3 / 60.0, 5.0, false, 231);
  }
}
