/** The fixed-timestep accumulator of the animation-frame callback: elapsed
    milliseconds are added to a carry and drained one tick interval at a time. */
module Accumulator {

  /** Ticks per second; the tick interval and the tick's dt both derive from it. */
  const TICKRATE: nat := 60
  /** Milliseconds per tick: 1000 / TICKRATE, exactly (see `Locomotion.TickConstantsAgree`). */
  const TICK_INTERVAL: real := 1000.0 / 60.0
  /** The most one frame may add to the carry, in milliseconds. */
  const MAX_FRAME_TIME: real := 1000.0

  /** Math.min(1000, elapsed). */
  function CappedElapsed(elapsed: real): (r: real)
    ensures r <= MAX_FRAME_TIME && r <= elapsed && (r == elapsed || r == MAX_FRAME_TIME)
  {
    if MAX_FRAME_TIME < elapsed then MAX_FRAME_TIME else elapsed
  }

  /** How many whole tick intervals fit in a non-negative carry. */
  function TickCount(total: real): (n: nat)
    requires total >= 0.0
    ensures n as real * TICK_INTERVAL <= total < (n + 1) as real * TICK_INTERVAL
  {
    var q := total / TICK_INTERVAL;
    assert q * TICK_INTERVAL == total;
    q.Floor
  }

  /** The tick count is the only whole number of intervals that fits. */
  lemma TickCountUnique(total: real, n: nat)
    requires n as real * TICK_INTERVAL <= total < (n + 1) as real * TICK_INTERVAL
    ensures TickCount(total) == n
  {
  }

  /** The carry a frame starts draining from. */
  function Carry(deltaT: real, elapsed: real): real {
    deltaT + CappedElapsed(elapsed)
  }

  /** The number of ticks a frame runs: the loop runs while the carry is at
      least one interval, so a negative carry runs none. */
  function FrameTicks(deltaT: real, elapsed: real): nat {
    var total := Carry(deltaT, elapsed);
    if total < 0.0 then 0 else TickCount(total)
  }

  /** The carry left after a frame. */
  function Leftover(deltaT: real, elapsed: real): (rest: real)
    ensures rest < TICK_INTERVAL
    ensures Carry(deltaT, elapsed) >= 0.0 ==> rest >= 0.0
    ensures Carry(deltaT, elapsed) < TICK_INTERVAL ==> rest == Carry(deltaT, elapsed)
  {
    Carry(deltaT, elapsed) - FrameTicks(deltaT, elapsed) as real * TICK_INTERVAL
  }

  /** While the loop guard holds, fewer than FrameTicks ticks have run: the
      drain never overshoots. */
  lemma DrainContinues(deltaT: real, elapsed: real, ticks: nat, carry: real)
    requires carry == Carry(deltaT, elapsed) - ticks as real * TICK_INTERVAL
    requires carry >= TICK_INTERVAL
    ensures ticks < FrameTicks(deltaT, elapsed)
  {
    var total := Carry(deltaT, elapsed);
    assert (ticks + 1) as real * TICK_INTERVAL <= total;
    var n := TickCount(total);
    assert (ticks + 1) as real * TICK_INTERVAL < (n + 1) as real * TICK_INTERVAL;
  }

  /** When the loop guard fails, the loop has run exactly FrameTicks ticks and
      the carry left is Leftover; a negative carry runs none. */
  lemma DrainStops(deltaT: real, elapsed: real, ticks: nat, carry: real)
    requires carry == Carry(deltaT, elapsed) - ticks as real * TICK_INTERVAL
    requires carry < TICK_INTERVAL
    requires ticks > 0 ==> carry >= 0.0
    ensures ticks == FrameTicks(deltaT, elapsed) && carry == Leftover(deltaT, elapsed)
  {
    var total := Carry(deltaT, elapsed);
    if total >= 0.0 {
      assert carry >= 0.0;
      TickCountUnique(total, ticks);
    }
  }

  /** A frame that starts with less than one interval of carry (a negative
      carry included) runs at most
      TICKRATE ticks, because the cap of 1000 ms is exactly
      TICKRATE intervals. */
  lemma FrameTicksBounded(deltaT: real, elapsed: real)
    requires deltaT < TICK_INTERVAL
    ensures FrameTicks(deltaT, elapsed) <= TICKRATE
  {
    var total := Carry(deltaT, elapsed);
    if total >= 0.0 {
      var n := TickCount(total);
      assert MAX_FRAME_TIME == TICKRATE as real * TICK_INTERVAL;
      assert total < (TICKRATE + 1) as real * TICK_INTERVAL;
    }
  }
}
