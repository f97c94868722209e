/** testv6.py: the controller for the real rover. The PID class reads
    `time.monotonic()`, so `reset` stamps the current time and a `compute`
    within one sample time of a reset returns None. Turning is by pulses: a
    positive PID output spins one way at full `SPEED`, anything else the
    other way, for `|output| * 0.1` seconds, then both motors stop and the
    heading is re-estimated from the pixel displacement.

    The clock readings, the pixel and inch fixes and the `atan2`/`hypot`
    values enter as observations; each `time.sleep` on the motors is recorded
    in the kit's pulse log. */
module Testv6 {
  import opened RoverMath
  import opened Motors
  import opened Pid
  import RoverSim

  type MoveOutcome = RoverSim.MoveOutcome

  const Speed := 0.75
  const TimePerFoot := 0.54
  const AngleTolerance := 15.0
  const PositionTolerance := 3.0
  const PulseScale := 0.1
  /** `pid_steering`: Kp 1.0, Ki 0.1, Kd 0.05, sample time 0.1, limits (-1, 1). */
  const DefaultGains := Gains(1.0, 0.1, 0.05, 0.1, -1.0, 1.0)

  /** `PIDController(Kp, Ki, Kd, sample_time, output_limits)` with the
      monotonic clock read by the caller. */
  class PidController {
    const gains: Gains
    var integral: real
    var previousError: Option<real>
    var lastTime: real

    function State(): PidState
      reads this
    {
      PidState(integral, previousError, lastTime)
    }

    /** The constructor ends with `reset()` at clock reading `now`. */
    constructor(kp: real, ki: real, kd: real, sampleTime: real, low: real, high: real, now: real)
      requires ValidGains(Gains(kp, ki, kd, sampleTime, low, high))
      ensures gains == Gains(kp, ki, kd, sampleTime, low, high)
      ensures State() == ResetAt(now)
    {
      gains := Gains(kp, ki, kd, sampleTime, low, high);
      integral, previousError, lastTime := 0.0, None, now;
    }

    /** `reset()` when the clock reads `now`. */
    method Reset(now: real)
      modifies this
      ensures State() == ResetAt(now)
    {
      integral := 0.0;
      previousError := None;
      lastTime := now;
    }

    /** `compute(error)` when the clock reads `now`. */
    method Compute(error: real, now: real) returns (output: Option<real>)
      requires ValidGains(gains)
      modifies this
      ensures (State(), output) == PidStep(gains, old(State()), error, now)
    {
      ghost var before := State();
      var dt := now - lastTime;
      if dt < gains.sampleTime {
        assert PidStep(gains, before, error, now) == (before, None);
        return None;
      }
      var p := gains.kp * error;
      integral := integral + error * dt;
      var i := gains.ki * integral;
      var d := if previousError == None then 0.0 else gains.kd * (error - previousError.value) / dt;
      previousError := Some(error);
      lastTime := now;
      UnclampedTerms(gains, before, error, dt, integral, p, i, d);
      var raw := p + i + d;
      output := Some(Max(gains.low, Min(raw, gains.high)));
      ghost var expected := PidStep(gains, before, error, now);
      assert dt == now - before.lastTime;
      assert !(dt < gains.sampleTime);
      assert expected.0 == State();
      assert expected.1 == output;
    }
  }

  /** A `compute` less than one sample time after `reset()` is refused. */
  lemma ComputeTooSoonAfterReset(g: Gains, resetTime: real, error: real, now: real)
    requires ValidGains(g) && now - resetTime < g.sampleTime
    ensures PidStep(g, ResetAt(resetTime), error, now) == (ResetAt(resetTime), None)
  {
  }

  /** `get_heading_from_displacement(old_pos, new_pos)`, with the `atan2`
      value supplied: None exactly when the rover did not move. */
  function HeadingFromDisplacement(oldPos: Point, newPos: Point, atan2Heading: real): (r: Option<real>)
    ensures r == None <==> newPos == oldPos
    ensures r != None ==> r.value == atan2Heading
  {
    var dx := newPos.x - oldPos.x;
    var dy := newPos.y - oldPos.y;
    if dx == 0.0 && dy == 0.0 then None else Some(atan2Heading)
  }

  /** The direction `update_direction_using_displacement` leaves. */
  function DirectionAfter(direction: real, oldPos: Point, newPos: Point, atan2Heading: real): (r: real)
    ensures newPos == oldPos ==> r == direction
    ensures newPos != oldPos ==> r == atan2Heading
  {
    match HeadingFromDisplacement(oldPos, newPos, atan2Heading)
    case None => direction
    case Some(h) => h
  }

  /** The state the controllers change: the PID fields, the kit's throttles
      and pulse log, the global `current_pos` (inches) and the global
      `current_direction` as a heading in degrees. */
  datatype World = World(pid: PidState, throttles: Throttles, pulses: seq<Pulse>, pos: Point, direction: real)

  /** One pass of the turning loop: the `get_current_pixel()` fix, the clock
      reading at `compute`, the pixel fix after the pulse and the `atan2`
      heading of the displacement. */
  datatype TurnFix = TurnFix(pixel: Point, now: real, after: Point, afterHeading: real)

  /** A turn ends aligned, or when `compute` returns None (where the source
      goes on to fail on `abs(None)`), or when the fixes run out. */
  datatype TurnOutcome = Aligned | NoOutput | OutOfFixes

  datatype TurnEnd = TurnEnd(world: World, outcome: TurnOutcome, at: nat)

  /** A turning pulse: full `SPEED` one way or the other, at most 0.1 s. */
  predicate TurnPulse(p: Pulse)
  {
    0.0 <= p.seconds <= PulseScale
    && (p.throttles == Throttles(Speed, -Speed) || p.throttles == Throttles(-Speed, Speed))
  }

  /** The heading `turn_to_angle` reads back from `current_direction`. */
  function Heading(w: World): real { PrincipalAngle(w.direction) }

  /** The pulse after an accepted sample whose output is `out`. */
  function TurnStep(w: World, pid: PidState, out: real, f: TurnFix): (r: World)
    requires -1.0 <= out <= 1.0
    ensures r.throttles == Stopped && r.pid == pid && r.pos == w.pos
    ensures |r.pulses| == |w.pulses| + 1 && r.pulses[..|w.pulses|] == w.pulses
    ensures TurnPulse(r.pulses[|w.pulses|]) && r.pulses[|w.pulses|].seconds == Abs(out) * PulseScale
    ensures out > 0.0 <==> r.pulses[|w.pulses|].throttles == Throttles(Speed, -Speed)
    ensures r.direction == DirectionAfter(w.direction, f.pixel, f.after, f.afterHeading)
  {
    var spin := if out > 0.0 then Throttles(Speed, -Speed) else Throttles(-Speed, Speed);
    w.(pid := pid, throttles := Stopped, pulses := w.pulses + [Pulse(spin, Abs(out) * PulseScale)],
       direction := DirectionAfter(w.direction, f.pixel, f.after, f.afterHeading))
  }

  /** The loop of `turn_to_angle` from fix `i` on. */
  function Turn(w: World, target: real, fixes: seq<TurnFix>, i: nat): (r: TurnEnd)
    requires i <= |fixes|
    ensures i <= r.at <= |fixes|
    ensures r.outcome == OutOfFixes <==> r.at == |fixes|
    ensures |r.world.pulses| == |w.pulses| + (r.at - i)
    ensures r.at > i ==> r.world.throttles == Stopped
    ensures r.world.pos == w.pos
    decreases |fixes| - i
  {
    if i == |fixes| then TurnEnd(w, OutOfFixes, i)
    else
      var f := fixes[i];
      var e := PrincipalAngle(target - Heading(w));
      if Abs(e) < AngleTolerance then TurnEnd(w, Aligned, i)
      else
        var step := PidStep(DefaultGains, w.pid, e, f.now);
        if step.1 == None then TurnEnd(w, NoOutput, i)
        else Turn(TurnStep(w, step.0, step.1.value, f), target, fixes, i + 1)
  }

  /** A turn only appends to the pulse log, and every pulse it appends is
      a turning pulse. */
  lemma {:induction false} TurnAppendsTurnPulses(w: World, target: real, fixes: seq<TurnFix>, i: nat)
    requires i <= |fixes|
    ensures var r := Turn(w, target, fixes, i);
      r.world.pulses[..|w.pulses|] == w.pulses
      && forall k :: |w.pulses| <= k < |r.world.pulses| ==> TurnPulse(r.world.pulses[k])
    decreases |fixes| - i
  {
    var r := Turn(w, target, fixes, i);
    if i < |fixes| {
      var e := PrincipalAngle(target - Heading(w));
      var step := PidStep(DefaultGains, w.pid, e, fixes[i].now);
      if Abs(e) >= AngleTolerance && step.1 != None {
        var w1 := TurnStep(w, step.0, step.1.value, fixes[i]);
        TurnUnfold(w, target, fixes, i);
        TurnAppendsTurnPulses(w1, target, fixes, i + 1);
        assert r.world.pulses[..|w.pulses|] == w1.pulses[..|w.pulses|];
        forall k | |w.pulses| <= k < |r.world.pulses|
          ensures TurnPulse(r.world.pulses[k])
        {
          if k < |w1.pulses| {
            assert r.world.pulses[k] == w1.pulses[k];
          }
        }
        return;
      }
    }
    assert r.world == w;
  }

  /** A misaligned fix whose sample is accepted costs one pulse. */
  lemma TurnUnfold(w: World, target: real, fixes: seq<TurnFix>, i: nat)
    requires i < |fixes| && Abs(PrincipalAngle(target - Heading(w))) >= AngleTolerance
    requires PidStep(DefaultGains, w.pid, PrincipalAngle(target - Heading(w)), fixes[i].now).1 != None
    ensures var step := PidStep(DefaultGains, w.pid, PrincipalAngle(target - Heading(w)), fixes[i].now);
      Turn(w, target, fixes, i) == Turn(TurnStep(w, step.0, step.1.value, fixes[i]), target, fixes, i + 1)
  {
  }

  /** A turn that ends aligned ends with a heading error under the tolerance. */
  lemma {:induction false} TurnAlignedWithinTolerance(w: World, target: real, fixes: seq<TurnFix>, i: nat)
    requires i <= |fixes|
    ensures var r := Turn(w, target, fixes, i);
      r.outcome == Aligned ==> Abs(PrincipalAngle(target - Heading(r.world))) < AngleTolerance
    decreases |fixes| - i
  {
    if i < |fixes| {
      var e := PrincipalAngle(target - Heading(w));
      var step := PidStep(DefaultGains, w.pid, e, fixes[i].now);
      if Abs(e) < AngleTolerance {
        assert Turn(w, target, fixes, i) == TurnEnd(w, Aligned, i);
      } else if step.1 == None {
        assert Turn(w, target, fixes, i).outcome == NoOutput;
      } else {
        var w1 := TurnStep(w, step.0, step.1.value, fixes[i]);
        TurnUnfold(w, target, fixes, i);
        TurnAlignedWithinTolerance(w1, target, fixes, i + 1);
        assert Turn(w, target, fixes, i) == Turn(w1, target, fixes, i + 1);
      }
    } else {
      assert Turn(w, target, fixes, i).outcome == OutOfFixes;
    }
  }

  /** Right after `reset()`, a misaligned first fix read within one sample
      time of the reset gets no PID output. */
  lemma TurnRefusedRightAfterReset(w: World, resetTime: real, target: real, fixes: seq<TurnFix>)
    requires |fixes| > 0 && Abs(PrincipalAngle(target - Heading(w))) >= AngleTolerance
    requires fixes[0].now - resetTime < DefaultGains.sampleTime
    ensures Turn(w.(pid := ResetAt(resetTime)), target, fixes, 0) == TurnEnd(w.(pid := ResetAt(resetTime)), NoOutput, 0)
  {
    ComputeTooSoonAfterReset(DefaultGains, resetTime, PrincipalAngle(target - Heading(w)), fixes[0].now);
  }

  /** One pass of the waypoint loop: the `update_position()` fix in inches,
      the `hypot` distance and `atan2` heading to the target, the clock
      reading at `reset()`, and the passes of the nested turn. */
  datatype MoveFix = MoveFix(pos: Point, distance: real, heading: real, resetTime: real, turn: seq<TurnFix>)

  datatype MoveEnd = MoveEnd(world: World, outcome: MoveOutcome, at: nat)

  /** `turn_to_angle(target_heading)` and, once aligned, `(SPEED, SPEED)`
      for `distance * TIME_PER_FOOT / 12` seconds and a stop. */
  function TurnThenLeg(w: World, f: MoveFix): (r: TurnEnd)
    ensures r.outcome == Aligned ==> r.world.throttles == Stopped && r.world.pos == w.pos
    ensures r.outcome == Aligned ==>
      |r.world.pulses| > 0 && r.world.pulses[|r.world.pulses| - 1] == Pulse(Throttles(Speed, Speed), f.distance * TimePerFoot / 12.0)
  {
    var turned := Turn(w.(pid := ResetAt(f.resetTime)), f.heading, f.turn, 0);
    if turned.outcome == Aligned then
      var t := turned.world;
      turned.(world := t.(throttles := Stopped,
                          pulses := t.pulses + [Pulse(Throttles(Speed, Speed), f.distance * TimePerFoot / 12.0)]))
    else turned
  }

  /** The loop of `move_to_target` from fix `i` on. */
  function Move(w: World, fixes: seq<MoveFix>, i: nat): (r: MoveEnd)
    requires i <= |fixes|
    ensures i <= r.at <= |fixes|
    ensures r.outcome == RoverSim.OutOfFixes <==> r.at == |fixes|
    ensures r.outcome == RoverSim.Arrived ==> fixes[r.at].distance < PositionTolerance && r.world.pos == fixes[r.at].pos
    ensures forall j :: i <= j < r.at ==> fixes[j].distance >= PositionTolerance
    decreases |fixes| - i
  {
    if i == |fixes| then MoveEnd(w, RoverSim.OutOfFixes, i)
    else
      var f := fixes[i];
      var w1 := w.(pos := f.pos);
      if f.distance < PositionTolerance then MoveEnd(w1, RoverSim.Arrived, i)
      else
        var turned := TurnThenLeg(w1, f);
        if turned.outcome != Aligned then MoveEnd(turned.world, RoverSim.TurnUnfinished, i)
        else Move(turned.world, fixes, i + 1)
  }

  /** A fix short of the target, with an aligned turn, costs one leg. */
  lemma MoveUnfold(w: World, fixes: seq<MoveFix>, i: nat)
    requires i < |fixes| && fixes[i].distance >= PositionTolerance
    requires TurnThenLeg(w.(pos := fixes[i].pos), fixes[i]).outcome == Aligned
    ensures Move(w, fixes, i) == Move(TurnThenLeg(w.(pos := fixes[i].pos), fixes[i]).world, fixes, i + 1)
  {
  }

  /** The kit is left stopped whenever `move_to_target` returns after a
      forward leg, or was stopped to begin with. */
  lemma {:induction false} MoveEndsStopped(w: World, fixes: seq<MoveFix>, i: nat)
    requires i <= |fixes|
    ensures var r := Move(w, fixes, i);
      r.outcome != RoverSim.TurnUnfinished && (r.at > i || w.throttles == Stopped) ==> r.world.throttles == Stopped
    decreases |fixes| - i
  {
    if i < |fixes| && fixes[i].distance >= PositionTolerance {
      var turned := TurnThenLeg(w.(pos := fixes[i].pos), fixes[i]);
      if turned.outcome == Aligned {
        MoveEndsStopped(turned.world, fixes, i + 1);
      }
    }
  }

  /** The module-level state of the script. */
  class Rover {
    const kit: MotorKit
    const pid: PidController
    var currentPos: Point
    var currentDirection: real

    function Snapshot(): World
      reads this, kit, pid
    {
      World(pid.State(), kit.Current(), kit.pulses, currentPos, currentDirection)
    }

    /** `kit = MotorKit()`, `pid_steering`, `current_pos = (9.7, 12.5)`,
        `current_direction = (0.0, 1.0)` (90 degrees); `now` is the clock
        at start-up. */
    constructor(now: real)
      ensures fresh(kit) && fresh(pid) && pid.gains == DefaultGains
      ensures Snapshot() == World(ResetAt(now), Stopped, [], Point(9.7, 12.5), 90.0)
    {
      kit := new MotorKit();
      pid := new PidController(1.0, 0.1, 0.05, 0.1, -1.0, 1.0, now);
      currentPos := Point(9.7, 12.5);
      currentDirection := 90.0;
    }

    /** `update_direction_using_displacement(old_pos, new_pos)`. */
    method UpdateDirectionUsingDisplacement(oldPos: Point, newPos: Point, atan2Heading: real)
      modifies this`currentDirection
      ensures currentDirection == DirectionAfter(old(currentDirection), oldPos, newPos, atan2Heading)
    {
      var heading := HeadingFromDisplacement(oldPos, newPos, atan2Heading);
      if heading.Some? {
        currentDirection := heading.value;
      }
    }

    /** `turn_to_angle(target_heading_deg)`, `resetTime` being the clock at
        `reset()`. */
    method TurnToAngle(target: real, resetTime: real, fixes: seq<TurnFix>) returns (outcome: TurnOutcome, at: nat)
      requires pid.gains == DefaultGains
      modifies this`currentDirection, kit, pid
      ensures var r := Turn(old(Snapshot()).(pid := ResetAt(resetTime)), target, fixes, 0);
        Snapshot() == r.world && outcome == r.outcome && at == r.at
    {
      pid.Reset(resetTime);
      ghost var start := Snapshot();
      assert start == old(Snapshot()).(pid := ResetAt(resetTime));
      var i := 0;
      ghost var before := start;
      while i < |fixes|
        invariant i <= |fixes| && before == Snapshot()
        invariant Turn(before, target, fixes, i) == Turn(start, target, fixes, 0)
        decreases |fixes| - i
      {
        var error := PrincipalAngle(target - PrincipalAngle(currentDirection));
        if Abs(error) < AngleTolerance {
          return Aligned, i;
        }
        ghost var step := PidStep(DefaultGains, before.pid, error, fixes[i].now);
        var output := pid.Compute(error, fixes[i].now);
        if output == None {
          assert Snapshot() == before;
          return NoOutput, i;
        }
        assert pid.State() == step.0 && output == step.1;
        PulseAndReestimate(output.value, fixes[i]);
        TurnUnfold(before, target, fixes, i);
        before := Snapshot();
        i := i + 1;
      }
      return OutOfFixes, i;
    }

    /** The rest of one pass of `turn_to_angle` after an accepted sample:
        spin for `|output| * 0.1` seconds, stop, read the new pixel and
        re-estimate the direction. */
    method PulseAndReestimate(output: real, f: TurnFix)
      requires -1.0 <= output <= 1.0
      modifies this`currentDirection, kit
      ensures Snapshot() == TurnStep(old(Snapshot()), pid.State(), output, f)
    {
      var turnDuration := Abs(output) * PulseScale;
      if output > 0.0 {
        kit.Set(Throttles(Speed, -Speed));
      } else {
        kit.Set(Throttles(-Speed, Speed));
      }
      kit.Sleep(turnDuration);
      kit.Stop();
      UpdateDirectionUsingDisplacement(f.pixel, f.after, f.afterHeading);
    }

    /** `move_to_target(target_pos)`. */
    method MoveToTarget(fixes: seq<MoveFix>) returns (outcome: MoveOutcome, at: nat)
      requires pid.gains == DefaultGains
      modifies this`currentPos, this`currentDirection, kit, pid
      ensures var r := Move(old(Snapshot()), fixes, 0);
        Snapshot() == r.world && outcome == r.outcome && at == r.at
    {
      var i := 0;
      while i < |fixes|
        invariant i <= |fixes|
        invariant Move(Snapshot(), fixes, i) == Move(old(Snapshot()), fixes, 0)
        decreases |fixes| - i
      {
        ghost var before := Snapshot();
        var f := fixes[i];
        currentPos := f.pos;
        ghost var w1 := Snapshot();
        assert w1 == before.(pos := f.pos);
        if f.distance < PositionTolerance {
          return RoverSim.Arrived, i;
        }
        ghost var turned := TurnThenLeg(w1, f);
        var turnOutcome, _ := TurnToAngle(f.heading, f.resetTime, f.turn);
        if turnOutcome != Aligned {
          assert Snapshot() == turned.world;
          return RoverSim.TurnUnfinished, i;
        }
        kit.Set(Throttles(Speed, Speed));
        kit.Sleep(f.distance * TimePerFoot / 12.0);
        kit.Stop();
        assert Snapshot() == turned.world;
        MoveUnfold(before, fixes, i);
        i := i + 1;
      }
      return RoverSim.OutOfFixes, i;
    }
  }
}
