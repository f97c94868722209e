/** Testing/Test_roverSim.py: the heading and waypoint controllers of the
    GUI simulator. The simulator's clock and throttles are modelled
    (module Simulation); where the rover is and which way it points come in
    as fixes, one per read of `update_position()` and
    `sim.get_current_direction()`, together with the `atan2` and `hypot`
    values the script computes from them. A loop that would keep polling
    after the last fix stops there and says so. */
module RoverSim {
  import opened RoverMath
  import opened Motors
  import opened Pid
  import opened Simulation
  import Text

  const Speed := 0.75
  const TimePerFoot := 0.54
  const AngleTolerance := 15.0
  const TurnThrottleLimit := 0.5
  const TurnTimeStep := 0.5
  /** The `dt` of this file's `simulate_sleep`. */
  const SleepStep := 0.5
  const PositionTolerance := 3.0
  /** `PIDController()`: Kp 0.5, Ki 0.01, Kd 0.1, sample time 0.1, limits (-1, 1). */
  const DefaultGains := Gains(0.5, 0.01, 0.1, 0.1, -1.0, 1.0)

  /** One pass of the turning loop: where `update_position()` put the rover,
      and the heading in degrees that `atan2` reads from the simulator's
      direction. */
  datatype TurnFix = TurnFix(pos: Point, heading: real)

  /** What the controllers can change: the PID fields, the simulator's clock
      and throttles, and the globals `current_pos` and `current_direction`
      (a heading in degrees). */
  datatype World = World(pid: PidState, time: real, throttles: Throttles, pos: Point, direction: real)

  /** A turn either ends aligned at fix `at`, or uses up every fix. */
  datatype TurnEnd = TurnEnd(world: World, aligned: bool, at: nat)

  /** The throttles a turning step leaves: `(t, -t)` with `|t| <= 0.5`. */
  predicate TurnThrottles(t: Throttles)
  {
    t.motor2 == -t.motor1 && -TurnThrottleLimit <= t.motor1 <= TurnThrottleLimit
  }

  /** The loop of `turn_to_angle` from fix `i` on, `last` being the
      last non-None PID output. */
  function Turn(w: World, last: real, target: real, fixes: seq<TurnFix>, i: nat): (r: TurnEnd)
    requires i <= |fixes|
    ensures i <= r.at <= |fixes|
    ensures r.aligned <==> r.at < |fixes|
    ensures r.aligned ==> r.world.throttles == Stopped && r.world.pos == fixes[r.at].pos
    ensures forall j :: i <= j < r.at ==> Abs(PrincipalAngle(target - fixes[j].heading)) >= AngleTolerance
    ensures r.world.time == w.time + TurnTimeStep * (r.at - i) as real
    ensures !r.aligned && r.at > i ==> TurnThrottles(r.world.throttles) && r.world.pos == fixes[r.at - 1].pos
    ensures r.world.direction == w.direction
    decreases |fixes| - i
  {
    if i == |fixes| then TurnEnd(w, false, i)
    else
      var f := fixes[i];
      var w1 := w.(pos := f.pos);
      var e := PrincipalAngle(target - f.heading);
      if Abs(e) < AngleTolerance then TurnEnd(w1.(throttles := Stopped), true, i)
      else
        var (w2, last2) := TurnStep(w1, last, e);
        Turn(w2, last2, target, fixes, i + 1)
  }

  /** A turn that ends aligned ends on a fix whose heading error is under
      the tolerance. */
  lemma {:induction false} TurnAlignedWithinTolerance(w: World, last: real, target: real, fixes: seq<TurnFix>, i: nat)
    requires i <= |fixes|
    ensures var r := Turn(w, last, target, fixes, i);
      r.aligned ==> Abs(PrincipalAngle(target - fixes[r.at].heading)) < AngleTolerance
    decreases |fixes| - i
  {
    if i < |fixes| && Abs(PrincipalAngle(target - fixes[i].heading)) >= AngleTolerance {
      var (w2, last2) := TurnStep(w.(pos := fixes[i].pos), last, PrincipalAngle(target - fixes[i].heading));
      TurnAlignedWithinTolerance(w2, last2, target, fixes, i + 1);
    }
  }

  /** A fix that is not aligned costs one turning step. */
  lemma TurnUnfold(w: World, last: real, target: real, fixes: seq<TurnFix>, i: nat)
    requires i < |fixes| && Abs(PrincipalAngle(target - fixes[i].heading)) >= AngleTolerance
    ensures var ts := TurnStep(w.(pos := fixes[i].pos), last, PrincipalAngle(target - fixes[i].heading));
      Turn(w, last, target, fixes, i) == Turn(ts.0, ts.1, target, fixes, i + 1)
  {
  }

  /** One turning step that is not yet aligned: `compute(error, current_time)`,
      keep the output unless it is None, drive `(t, -t)` with the output
      clamped to 0.5, and `simulate_sleep(0.5)`. */
  function TurnStep(w: World, last: real, e: real): (r: (World, real))
    ensures r.0.time == w.time + TurnTimeStep
    ensures TurnThrottles(r.0.throttles) && r.0.throttles.motor1 == Clamp(r.1, -TurnThrottleLimit, TurnThrottleLimit)
    ensures r.0.pid == PidStep(DefaultGains, w.pid, e, w.time).0
    ensures r.1 == (var out := PidStep(DefaultGains, w.pid, e, w.time).1; if out.Some? then out.value else last)
    ensures r.0.pos == w.pos && r.0.direction == w.direction
  {
    var step := PidStep(DefaultGains, w.pid, e, w.time);
    var last1 := if step.1.Some? then step.1.value else last;
    var t := Clamp(last1, -TurnThrottleLimit, TurnThrottleLimit);
    (w.(pid := step.0, throttles := Throttles(t, -t), time := w.time + TurnTimeStep), last1)
  }

  /** One pass of the waypoint loop: the fix `update_position()` gave, the
      `hypot` distance and `atan2` heading to the target from it, the fixes
      the nested turn consumes, and the fix and displacement heading read
      after driving forward. */
  datatype MoveFix = MoveFix(pos: Point, distance: real, heading: real, turn: seq<TurnFix>,
                             after: Point, afterHeading: real)

  datatype MoveOutcome = Arrived | TurnUnfinished | OutOfFixes

  datatype MoveEnd = MoveEnd(world: World, outcome: MoveOutcome, at: nat)

  /** The loop of `move_to_target` from fix `i` on. */
  function Move(w: World, target: Point, fixes: seq<MoveFix>, i: nat): (r: MoveEnd)
    requires i <= |fixes|
    ensures i <= r.at <= |fixes|
    ensures r.outcome == OutOfFixes <==> r.at == |fixes|
    ensures r.outcome == Arrived ==> fixes[r.at].distance < PositionTolerance && r.world.pos == fixes[r.at].pos
    ensures forall j :: i <= j < r.at ==> fixes[j].distance >= PositionTolerance
    decreases |fixes| - i
  {
    if i == |fixes| then MoveEnd(w, OutOfFixes, i)
    else
      var f := fixes[i];
      var w1 := w.(pos := f.pos);
      if f.distance < PositionTolerance then MoveEnd(w1, Arrived, i)
      else
        var turned := TurnThenLeg(w1, f);
        if !turned.aligned then MoveEnd(turned.world, TurnUnfinished, i)
        else Move(turned.world, target, fixes, i + 1)
  }

  /** A fix short of the target, with an aligned turn, costs one leg. */
  lemma MoveUnfold(w: World, target: Point, fixes: seq<MoveFix>, i: nat)
    requires i < |fixes| && fixes[i].distance >= PositionTolerance
    requires TurnThenLeg(w.(pos := fixes[i].pos), fixes[i]).aligned
    ensures Move(w, target, fixes, i) == Move(TurnThenLeg(w.(pos := fixes[i].pos), fixes[i]).world, target, fixes, i + 1)
  {
  }

  /** The rover is left stopped whenever `move_to_target` returns after a
      forward leg, or was stopped to begin with. */
  lemma {:induction false} MoveEndsStopped(w: World, target: Point, fixes: seq<MoveFix>, i: nat)
    requires i <= |fixes|
    ensures var r := Move(w, target, fixes, i);
      r.outcome != TurnUnfinished && (r.at > i || w.throttles == Stopped) ==> r.world.throttles == Stopped
    decreases |fixes| - i
  {
    if i < |fixes| && fixes[i].distance >= PositionTolerance {
      var turned := TurnThenLeg(w.(pos := fixes[i].pos), fixes[i]);
      if turned.aligned {
        MoveEndsStopped(turned.world, target, fixes, i + 1);
      }
    }
  }

  /** `turn_to_angle(target_heading)` on the turn fixes of `f` and, once
      aligned, the forward leg. */
  function TurnThenLeg(w: World, f: MoveFix): (r: TurnEnd)
    requires f.distance >= PositionTolerance
    ensures r.aligned ==> r.world.throttles == Stopped
  {
    var turned := Turn(w.(pid := ResetAt(0.0)), 0.0, f.heading, f.turn, 0);
    if turned.aligned then turned.(world := Leg(turned.world, f)) else turned
  }

  /** The forward leg after an aligned turn: `(SPEED, SPEED)`, sleep
      `distance * TIME_PER_FOOT / 12` of simulated time, stop, and take the
      heading of the displacement from the last turn fix to the new fix. */
  function Leg(w: World, f: MoveFix): (r: World)
    requires f.distance >= PositionTolerance
    ensures r.throttles == Stopped && r.pos == w.pos && r.pid == w.pid
    ensures r.time > w.time
    ensures r.direction == DirectionAfter(w.direction, w.pos, f.after, f.afterHeading)
  {
    w.(time := w.time + f.distance * TimePerFoot / 12.0,
       throttles := Stopped,
       direction := DirectionAfter(w.direction, w.pos, f.after, f.afterHeading))
  }

  /** Arriving means the squared distance to the target is under 3 * 3. */
  lemma ArrivedWithinTolerance(w: World, target: Point, fixes: seq<MoveFix>)
    requires forall j :: 0 <= j < |fixes| ==>
      IsHypot(fixes[j].distance, target.x - fixes[j].pos.x, target.y - fixes[j].pos.y)
    ensures var r := Move(w, target, fixes, 0);
      r.outcome == Arrived ==>
        DistSq(target.x - r.world.pos.x, target.y - r.world.pos.y) < PositionTolerance * PositionTolerance
  {
    var r := Move(w, target, fixes, 0);
    if r.outcome == Arrived {
      var f := fixes[r.at];
      HypotCompare(f.distance, target.x - f.pos.x, target.y - f.pos.y, PositionTolerance);
    }
  }

  /** Each forward leg advances the simulated clock by exactly
      `distance * TIME_PER_FOOT / 12`, the distance being at least 3. */
  lemma ForwardLegTime(distance: real)
    requires distance >= PositionTolerance
    ensures SleepAdvance(distance * TimePerFoot / 12.0, SleepStep) == distance * TimePerFoot / 12.0
  {
  }

  /** The initial `targets` of the script. */
  const InitialTargets: seq<seq<real>> :=
    [[14.5, 16.0], [16.5, 16.0], [19.5, 16.0], [22.5, 16.0], [34.0, 6.0],
     [38.0, 10.5], [46.0, 7.8], [53.0, 12.0], [59.0, 13.5], [60.5, 18.5]]

  /** The module-level state of the script. */
  class Rover {
    const sim: RoverSimulation
    const pid: SimPidController
    var currentPos: Point
    var currentDirection: real
    /** The targets, each the tuple of its coordinates. */
    var targets: seq<seq<real>>

    function Snapshot(): World
      reads this, sim, pid
    {
      World(pid.State(), sim.currentTime, sim.Throttles(), currentPos, currentDirection)
    }

    /** `current_pos = [9.7, 12.5]`, `current_direction = [0.0, 1.0]` (90 degrees). */
    constructor()
      ensures fresh(sim) && fresh(pid) && pid.gains == DefaultGains && targets == InitialTargets
      ensures Snapshot() == World(ResetAt(0.0), 0.0, Stopped, Point(9.7, 12.5), 90.0)
    {
      sim := new RoverSimulation();
      pid := new SimPidController(0.5, 0.01, 0.1, 0.1);
      currentPos := Point(9.7, 12.5);
      currentDirection := 90.0;
      targets := InitialTargets;
    }

    /** `update_targets(text)`, with `float()` as `toFloat`; `raised` says
        whether the call raised `ValueError`. */
    method UpdateTargets(text: string, toFloat: string -> Option<real>) returns (raised: bool)
      modifies this`targets
      ensures Text.TargetsUpdate(targets, raised) == Text.UpdateTargets(old(targets), text, toFloat)
    {
      var converted := Text.ConvertTargets(Text.ParseTargets(text), toFloat);
      if converted.None? {
        return true;
      }
      targets := converted.value;
      raised := !Text.Unzips(targets);
    }

    /** `update_direction_using_displacement(old_pos, new_pos)`, given the
        `atan2` heading of the displacement in degrees. */
    method UpdateDirectionUsingDisplacement(oldPos: Point, newPos: Point, displacementHeading: real)
      modifies this`currentDirection
      ensures currentDirection == DirectionAfter(old(currentDirection), oldPos, newPos, displacementHeading)
    {
      var dx := newPos.x - oldPos.x;
      var dy := newPos.y - oldPos.y;
      if dx != 0.0 || dy != 0.0 {
        currentDirection := displacementHeading;
      }
    }

    /** `turn_to_angle(target_heading_deg)`. */
    method TurnToAngle(target: real, fixes: seq<TurnFix>) returns (aligned: bool, at: nat)
      requires pid.gains == DefaultGains
      modifies this`currentPos, sim, pid
      ensures var r := Turn(old(Snapshot()).(pid := ResetAt(0.0)), 0.0, target, fixes, 0);
        Snapshot() == r.world && aligned == r.aligned && at == r.at
    {
      pid.Reset();
      ghost var start := Snapshot();
      assert start == old(Snapshot()).(pid := ResetAt(0.0));
      var lastThrottle := 0.0;
      var i := 0;
      ghost var before := start;
      while i < |fixes|
        invariant i <= |fixes| && before == Snapshot()
        invariant Turn(before, lastThrottle, target, fixes, i) == Turn(start, 0.0, target, fixes, 0)
        decreases |fixes| - i
      {
        currentPos := fixes[i].pos;
        ghost var w1 := Snapshot();
        assert w1 == before.(pos := fixes[i].pos);
        var error := PrincipalAngle(target - fixes[i].heading);
        if Abs(error) < AngleTolerance {
          sim.SetThrottles(Stopped);
          assert Snapshot() == w1.(throttles := Stopped);
          return true, i;
        }
        ghost var lastBefore := lastThrottle;
        lastThrottle := Steer(error, lastThrottle);
        TurnUnfold(before, lastBefore, target, fixes, i);
        before := Snapshot();
        i := i + 1;
      }
      return false, i;
    }

    /** The rest of one pass of `turn_to_angle` once the heading error is
        outside the tolerance: `compute(error, sim.current_time)`, keep the
        output unless it is None, drive `(t, -t)` with the output clamped to
        0.5 and `simulate_sleep(0.5)`. */
    method Steer(error: real, last: real) returns (newLast: real)
      requires pid.gains == DefaultGains
      modifies sim, pid
      ensures (Snapshot(), newLast) == TurnStep(old(Snapshot()), last, error)
    {
      ghost var w := Snapshot();
      ghost var step := PidStep(DefaultGains, w.pid, error, w.time);
      var output := pid.Compute(error, sim.currentTime);
      assert pid.State() == step.0 && output == step.1;
      newLast := last;
      if output.Some? {
        newLast := output.value;
      }
      var throttle := Max(Min(newLast, TurnThrottleLimit), -TurnThrottleLimit);
      assert throttle == Clamp(newLast, -TurnThrottleLimit, TurnThrottleLimit);
      sim.SetThrottles(Throttles(throttle, -throttle));
      SimulateSleep(sim, TurnTimeStep, SleepStep);
      SleepOneStep(SleepStep);
      assert Snapshot() == World(step.0, w.time + TurnTimeStep, Throttles(throttle, -throttle), w.pos, w.direction);
    }

    /** `move_to_target(target_pos)`. */
    method MoveToTarget(target: Point, fixes: seq<MoveFix>) returns (outcome: MoveOutcome, at: nat)
      requires pid.gains == DefaultGains
      modifies this`currentPos, this`currentDirection, sim, pid
      ensures var r := Move(old(Snapshot()), target, fixes, 0);
        Snapshot() == r.world && outcome == r.outcome && at == r.at
    {
      var i := 0;
      while i < |fixes|
        invariant i <= |fixes|
        invariant Move(Snapshot(), target, fixes, i) == Move(old(Snapshot()), target, fixes, 0)
        decreases |fixes| - i
      {
        ghost var before := Snapshot();
        var f := fixes[i];
        currentPos := f.pos;
        ghost var w1 := Snapshot();
        assert w1 == before.(pos := f.pos);
        if f.distance < PositionTolerance {
          return Arrived, i;
        }
        ghost var turned := TurnThenLeg(w1, f);
        var aligned, _ := TurnToAngle(f.heading, f.turn);
        if !aligned {
          assert Snapshot() == turned.world;
          return TurnUnfinished, i;
        }
        ghost var w2 := Snapshot();
        sim.SetThrottles(Throttles(Speed, Speed));
        SimulateSleep(sim, f.distance * TimePerFoot / 12.0, SleepStep);
        ForwardLegTime(f.distance);
        sim.SetThrottles(Stopped);
        UpdateDirectionUsingDisplacement(currentPos, f.after, f.afterHeading);
        assert Snapshot() == Leg(w2, f);
        assert Snapshot() == turned.world;
        MoveUnfold(before, target, fixes, i);
        i := i + 1;
      }
      return OutOfFixes, i;
    }
  }
}
