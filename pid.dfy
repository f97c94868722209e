/** The PID steering controller. Testing/Test_roverSim.py, testv8.py and
    testv6.py carry the same `compute` rule: a sample that comes sooner than
    `sample_time` after the last accepted one is refused with `None` and
    changes nothing; an accepted sample adds `error * dt` to the integral,
    has no derivative term when there is no previous error, stores the error
    and the time, and returns `P + I + D` clamped to the output limits.

    `PidStep` is that rule on values. `SimPidController` is the class of the
    two simulators, whose `compute` is handed the simulated clock and whose
    `reset` puts `last_time` back to 0.0; testv6.py's class, which reads a
    monotonic clock, is in module Testv6. */
module Pid {
  import opened RoverMath

  /** `Kp`, `Ki`, `Kd`, `sample_time` and `output_limits`. */
  datatype Gains = Gains(kp: real, ki: real, kd: real, sampleTime: real, low: real, high: real)

  predicate ValidGains(g: Gains) { g.sampleTime > 0.0 && g.low <= g.high }

  /** The fields `compute` and `reset` update. */
  datatype PidState = PidState(integral: real, previousError: Option<real>, lastTime: real)

  /** What `reset()` leaves behind when it stamps `last_time` with `time`. */
  function ResetAt(time: real): PidState { PidState(0.0, None, time) }

  /** `P + I + D` for an accepted sample `dt` seconds after the last one, with
      the integral already updated. */
  function Unclamped(g: Gains, s: PidState, error: real, dt: real, integral: real): real
    requires dt > 0.0
  {
    var d := match s.previousError
      case None => 0.0
      case Some(p) => g.kd * (error - p) / dt;
    g.kp * error + g.ki * integral + d
  }

  /** The three terms `compute` adds up are `Unclamped`. */
  lemma UnclampedTerms(g: Gains, s: PidState, error: real, dt: real, integral: real, p: real, i: real, d: real)
    requires dt > 0.0 && p == g.kp * error && i == g.ki * integral
    requires d == if s.previousError == None then 0.0 else g.kd * (error - s.previousError.value) / dt
    ensures p + i + d == Unclamped(g, s, error, dt, integral)
  {
  }

  /** One `compute(error)` call at time `now`: the new state and the output. */
  function PidStep(g: Gains, s: PidState, error: real, now: real): (r: (PidState, Option<real>))
    requires ValidGains(g)
    ensures r.1 == None <==> now - s.lastTime < g.sampleTime
    ensures r.1 == None ==> r.0 == s
    ensures r.1.Some? ==> g.low <= r.1.value <= g.high
    ensures r.1.Some? ==> r.0 == PidState(s.integral + error * (now - s.lastTime), Some(error), now)
  {
    var dt := now - s.lastTime;
    if dt < g.sampleTime then (s, None)
    else
      var integral := s.integral + error * dt;
      (PidState(integral, Some(error), now), Some(Clamp(Unclamped(g, s, error, dt, integral), g.low, g.high)))
  }

  /** The first sample accepted after a reset has no derivative term: its
      output is the clamped `Kp * error + Ki * error * dt`. */
  lemma FirstSampleHasNoDerivative(g: Gains, t0: real, error: real, now: real)
    requires ValidGains(g) && now - t0 >= g.sampleTime
    ensures PidStep(g, ResetAt(t0), error, now).1
         == Some(Clamp(g.kp * error + g.ki * (error * (now - t0)), g.low, g.high))
  {
  }

  /** A sample that repeats the previous error has no derivative term. */
  lemma SteadyErrorHasNoDerivative(g: Gains, s: PidState, error: real, now: real)
    requires ValidGains(g) && s.previousError == Some(error) && now - s.lastTime >= g.sampleTime
    ensures PidStep(g, s, error, now).1
         == Some(Clamp(g.kp * error + g.ki * (s.integral + error * (now - s.lastTime)), g.low, g.high))
  {
  }

  /** Two samples taken together within one sample time: the second is
      refused and leaves the state the first one produced. */
  lemma SecondSampleTooSoon(g: Gains, s: PidState, e1: real, e2: real, now: real, later: real)
    requires ValidGains(g) && now - s.lastTime >= g.sampleTime && now <= later < now + g.sampleTime
    ensures var first := PidStep(g, s, e1, now);
      PidStep(g, first.0, e2, later) == (first.0, None)
  {
  }

  /** The controller of the simulators. The gains are fixed at construction;
      the GUI sliders that reassign `Kp`, `Ki` and `Kd` are not modelled. */
  class SimPidController {
    const gains: Gains
    var integral: real
    var previousError: Option<real>
    var lastTime: real

    function State(): PidState
      reads this
    {
      PidState(integral, previousError, lastTime)
    }

    /** `PIDController(Kp, Ki, Kd, sample_time)`: output limits (-1, 1), then `reset()`. */
    constructor(kp: real, ki: real, kd: real, sampleTime: real)
      requires sampleTime > 0.0
      ensures gains == Gains(kp, ki, kd, sampleTime, -1.0, 1.0) && ValidGains(gains)
      ensures State() == ResetAt(0.0)
    {
      gains := Gains(kp, ki, kd, sampleTime, -1.0, 1.0);
      integral, previousError, lastTime := 0.0, None, 0.0;
    }

    /** `reset()`: integral 0, no previous error, `last_time = 0.0`. */
    method Reset()
      modifies this
      ensures State() == ResetAt(0.0)
    {
      integral := 0.0;
      previousError := None;
      lastTime := 0.0;
    }

    /** `compute(error, current_time)`. */
    method Compute(error: real, currentTime: real) returns (output: Option<real>)
      requires ValidGains(gains)
      modifies this
      ensures (State(), output) == PidStep(gains, old(State()), error, currentTime)
    {
      ghost var before := State();
      var dt := currentTime - lastTime;
      if dt < gains.sampleTime {
        assert PidStep(gains, before, error, currentTime) == (before, None);
        return None;
      }
      var p := gains.kp * error;
      integral := integral + error * dt;
      var i := gains.ki * integral;
      var d := if previousError == None then 0.0 else gains.kd * (error - previousError.value) / dt;
      previousError := Some(error);
      lastTime := currentTime;
      UnclampedTerms(gains, before, error, dt, integral, p, i, d);
      var raw := p + i + d;
      output := Some(Clamp(raw, gains.low, gains.high));
      ghost var expected := PidStep(gains, before, error, currentTime);
      assert dt == currentTime - before.lastTime;
      assert !(dt < gains.sampleTime);
      assert expected.0 == State();
      assert expected.1 == output;
    }
  }
}
