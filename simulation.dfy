/** The part of the simulators' `RoverSimulation` that the controllers see:
    the simulated clock and the two throttles (Testing/Test_roverSim.py,
    testv8.py), and `simulate_sleep`, which cuts a sleep into `dt`-long
    `advance_time` steps plus the remainder. The kinematics inside
    `advance_time` (position and heading) are not part of this model; the
    controllers read the rover's position and heading as external fixes. */
module Simulation {
  import opened RoverMath
  import opened Motors

  class RoverSimulation {
    var currentTime: real
    var motor1Throttle: real
    var motor2Throttle: real

    constructor()
      ensures currentTime == 0.0 && Throttles() == Stopped
    {
      currentTime, motor1Throttle, motor2Throttle := 0.0, 0.0, 0.0;
    }

    function Throttles(): Throttles
      reads this
    {
      Motors.Throttles(motor1Throttle, motor2Throttle)
    }

    method SetThrottles(t: Motors.Throttles)
      modifies this`motor1Throttle, this`motor2Throttle
      ensures Throttles() == t
    {
      motor1Throttle := t.motor1;
      motor2Throttle := t.motor2;
    }

    /** `advance_time(dt)`: the clock moves on by `dt`. */
    method AdvanceTime(dt: real)
      modifies this`currentTime
      ensures currentTime == old(currentTime) + dt
    {
      currentTime := currentTime + dt;
    }
  }

  /** How far `simulate_sleep(t)` moves the clock: `int(t / dt)` whole steps
      and then `t % dt` if that is positive. For t >= 0 this is exactly `t`;
      for a negative `t` no whole step is taken and only the remainder,
      which Python's `%` makes non-negative, is added. */
  function SleepAdvance(t: real, dt: real): (r: real)
    requires dt > 0.0
    ensures t >= 0.0 ==> r == t
    ensures t < 0.0 ==> 0.0 <= r < dt
  {
    var steps := Trunc(t / dt);
    var whole := if steps > 0 then steps as real * dt else 0.0;
    var rest := PyMod(t, dt);
    if t >= 0.0 then
      assert steps == (t / dt).Floor;
      assert rest == t - dt * steps as real;
      whole + rest
    else
      assert steps <= 0 by {
        assert t / dt < 0.0;
      }
      whole + rest
  }

  /** A sleep of one whole step advances the clock by exactly one step. */
  lemma SleepOneStep(dt: real)
    requires dt > 0.0
    ensures SleepAdvance(dt, dt) == dt
  {
  }

  /** `simulate_sleep(t)` with the simulator's step `dt`. */
  method SimulateSleep(sim: RoverSimulation, t: real, dt: real)
    requires dt > 0.0
    modifies sim`currentTime
    ensures sim.currentTime == old(sim.currentTime) + SleepAdvance(t, dt)
  {
    var steps := Trunc(t / dt);
    var k := 0;
    while k < steps
      invariant k <= IntMax(steps, 0)
      invariant sim.currentTime == old(sim.currentTime) + k as real * dt
    {
      sim.AdvanceTime(dt);
      k := k + 1;
    }
    var remaining := PyMod(t, dt);
    if remaining > 0.0 {
      sim.AdvanceTime(remaining);
    }
    assert k == IntMax(steps, 0);
  }

  /** The heading `update_direction_using_displacement(old_pos, new_pos)`
      leaves: the heading of the displacement, read by `atan2` as
      `displacementHeading`, or the old one when the rover did not move. */
  function DirectionAfter(direction: real, oldPos: Point, newPos: Point, displacementHeading: real): (r: real)
    ensures newPos == oldPos ==> r == direction
    ensures newPos != oldPos ==> r == displacementHeading
  {
    var dx := newPos.x - oldPos.x;
    var dy := newPos.y - oldPos.y;
    if dx != 0.0 || dy != 0.0 then displacementHeading else direction
  }
}
