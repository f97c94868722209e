/** testv8.py: the second GUI simulator. Its controllers differ from
    Testing/Test_roverSim.py in three ways: the PID defaults are Kp 1.0,
    Ki 0.1, Kd 0.05; `turn_to_angle` steps 0.1 s, drives the last PID output
    unclamped, and reads its heading from the global `current_direction`,
    which it re-estimates after every step from the displacement; and
    `move_to_target` does not update the direction after a forward leg.

    Because the heading is re-estimated only from displacement, a turn in
    which the rover does not move never sees its heading change
    (`TurnFrozenWhenStill`). */
module Testv8 {
  import opened RoverMath
  import opened Motors
  import opened Pid
  import opened Simulation
  import RoverSim
  import Text

  type World = RoverSim.World
  type TurnEnd = RoverSim.TurnEnd
  type MoveOutcome = RoverSim.MoveOutcome

  const Speed := 0.75
  const TimePerFoot := 0.54
  const AngleTolerance := 15.0
  const TurnTimeStep := 0.1
  /** The `dt` of this file's `simulate_sleep`. */
  const SleepStep := 0.1
  const PositionTolerance := 3.0
  /** `PIDController()`: Kp 1.0, Ki 0.1, Kd 0.05, sample time 0.1, limits (-1, 1). */
  const DefaultGains := Gains(1.0, 0.1, 0.05, 0.1, -1.0, 1.0)

  /** One pass of the turning loop: the fix `update_position()` gave, the fix
      read after the sleep, and the `atan2` heading of the displacement
      between them. */
  datatype TurnFix = TurnFix(pos: Point, after: Point, afterHeading: real)

  /** The heading `turn_to_angle` reads back from `current_direction`. */
  function Heading(w: World): real { PrincipalAngle(w.direction) }

  /** The loop of `turn_to_angle` from fix `i` on, `last` being the last
      non-None PID output. */
  function Turn(w: World, last: real, target: real, fixes: seq<TurnFix>, i: nat): (r: TurnEnd)
    requires i <= |fixes| && -1.0 <= last <= 1.0
    ensures i <= r.at <= |fixes|
    ensures r.aligned <==> r.at < |fixes|
    ensures r.aligned ==> r.world.throttles == Stopped && r.world.pos == fixes[r.at].pos
    ensures r.world.time == w.time + TurnTimeStep * (r.at - i) as real
    ensures !r.aligned && r.at > i ==>
      r.world.throttles.motor2 == -r.world.throttles.motor1 && -1.0 <= r.world.throttles.motor1 <= 1.0
    decreases |fixes| - i
  {
    if i == |fixes| then RoverSim.TurnEnd(w, false, i)
    else
      var w1 := w.(pos := fixes[i].pos);
      var e := PrincipalAngle(target - Heading(w1));
      if Abs(e) < AngleTolerance then RoverSim.TurnEnd(w1.(throttles := Stopped), true, i)
      else
        var (w2, last2) := TurnStep(w1, last, e, fixes[i]);
        Turn(w2, last2, target, fixes, i + 1)
  }

  /** One turning step that is not yet aligned: `compute(error,
      current_time)`, keep the output unless it is None, drive
      `(last, -last)`, `simulate_sleep(0.1)`, and re-estimate the direction
      from the displacement. */
  function TurnStep(w: World, last: real, e: real, f: TurnFix): (r: (World, real))
    requires -1.0 <= last <= 1.0
    ensures r.0.time == w.time + TurnTimeStep
    ensures -1.0 <= r.1 <= 1.0 && r.0.throttles == Throttles(r.1, -r.1)
    ensures r.0.pid == PidStep(DefaultGains, w.pid, e, w.time).0
    ensures r.1 == (var out := PidStep(DefaultGains, w.pid, e, w.time).1; if out.Some? then out.value else last)
    ensures r.0.pos == w.pos
    ensures r.0.direction == DirectionAfter(w.direction, w.pos, f.after, f.afterHeading)
  {
    var step := PidStep(DefaultGains, w.pid, e, w.time);
    var last1 := if step.1.Some? then step.1.value else last;
    (w.(pid := step.0, throttles := Throttles(last1, -last1), time := w.time + TurnTimeStep,
        direction := DirectionAfter(w.direction, w.pos, f.after, f.afterHeading)), last1)
  }

  /** A fix that is not aligned costs one turning step. */
  lemma TurnUnfold(w: World, last: real, target: real, fixes: seq<TurnFix>, i: nat)
    requires i < |fixes| && -1.0 <= last <= 1.0
    requires Abs(PrincipalAngle(target - Heading(w))) >= AngleTolerance
    ensures var ts := TurnStep(w.(pos := fixes[i].pos), last, PrincipalAngle(target - Heading(w)), fixes[i]);
      Turn(w, last, target, fixes, i) == Turn(ts.0, ts.1, target, fixes, i + 1)
  {
  }

  /** A fix within the tolerance ends the turn, stopped, on that fix. */
  lemma TurnAlignedUnfold(w: World, last: real, target: real, fixes: seq<TurnFix>, i: nat)
    requires i < |fixes| && -1.0 <= last <= 1.0
    requires Abs(PrincipalAngle(target - Heading(w))) < AngleTolerance
    ensures Turn(w, last, target, fixes, i) == RoverSim.TurnEnd(w.(pos := fixes[i].pos, throttles := Stopped), true, i)
  {
  }

  /** The world and last output `turn_to_angle` holds when it reaches fix
      `j`, had every fix from `i` before it been misaligned. */
  function TurnAt(w: World, last: real, target: real, fixes: seq<TurnFix>, i: nat, j: nat): (r: (World, real))
    requires i <= j <= |fixes| && -1.0 <= last <= 1.0
    ensures -1.0 <= r.1 <= 1.0
    decreases j - i
  {
    if j == i then (w, last)
    else
      var w1 := w.(pos := fixes[i].pos);
      var ts := TurnStep(w1, last, PrincipalAngle(target - Heading(w1)), fixes[i]);
      TurnAt(ts.0, ts.1, target, fixes, i + 1, j)
  }

  /** `turn_to_angle` ends on the first aligned fix: every fix before the
      end was read with a heading error of at least 15 degrees, and an
      aligned end read one under 15, each from the heading re-estimated
      after the steps before it. */
  lemma TurnInOrder(w: World, last: real, target: real, fixes: seq<TurnFix>, i: nat)
    requires i <= |fixes| && -1.0 <= last <= 1.0
    ensures var r := Turn(w, last, target, fixes, i);
      (forall j :: i <= j < r.at ==>
         Abs(PrincipalAngle(target - Heading(TurnAt(w, last, target, fixes, i, j).0))) >= AngleTolerance)
      && (r.aligned ==>
         Abs(PrincipalAngle(target - Heading(TurnAt(w, last, target, fixes, i, r.at).0))) < AngleTolerance)
  {
    var r := Turn(w, last, target, fixes, i);
    forall j | i <= j < r.at
      ensures Abs(PrincipalAngle(target - Heading(TurnAt(w, last, target, fixes, i, j).0))) >= AngleTolerance
    {
      TurnMisalignedBeforeEnd(w, last, target, fixes, i, j);
    }
    TurnAtAlignedEnd(w, last, target, fixes, i);
    TurnAlignedWithinTolerance(w, last, target, fixes, i);
    if r.aligned {
      assert Heading(TurnAt(w, last, target, fixes, i, r.at).0) == Heading(r.world);
    }
  }

  /** Every fix the turn passes was read misaligned. */
  lemma {:induction false} TurnMisalignedBeforeEnd(w: World, last: real, target: real, fixes: seq<TurnFix>, i: nat, j: nat)
    requires i <= |fixes| && -1.0 <= last <= 1.0
    requires i <= j < Turn(w, last, target, fixes, i).at
    ensures Abs(PrincipalAngle(target - Heading(TurnAt(w, last, target, fixes, i, j).0))) >= AngleTolerance
    decreases j - i
  {
    var w1 := w.(pos := fixes[i].pos);
    assert Heading(w1) == Heading(w);
    if j > i {
      var ts := TurnStep(w1, last, PrincipalAngle(target - Heading(w1)), fixes[i]);
      TurnUnfold(w, last, target, fixes, i);
      TurnMisalignedBeforeEnd(ts.0, ts.1, target, fixes, i + 1, j);
    }
  }

  /** An aligned end keeps the direction the turn held on reaching its fix. */
  lemma {:induction false} TurnAtAlignedEnd(w: World, last: real, target: real, fixes: seq<TurnFix>, i: nat)
    requires i <= |fixes| && -1.0 <= last <= 1.0
    ensures var r := Turn(w, last, target, fixes, i);
      r.aligned ==> TurnAt(w, last, target, fixes, i, r.at).0.direction == r.world.direction
    decreases |fixes| - i
  {
    if i < |fixes| {
      var w1 := w.(pos := fixes[i].pos);
      if Abs(PrincipalAngle(target - Heading(w))) >= AngleTolerance {
        var ts := TurnStep(w1, last, PrincipalAngle(target - Heading(w)), fixes[i]);
        TurnUnfold(w, last, target, fixes, i);
        TurnAtAlignedEnd(ts.0, ts.1, target, fixes, i + 1);
      } else {
        TurnAlignedUnfold(w, last, target, fixes, i);
      }
    }
  }

  /** A turn that ends aligned ends with a heading error under the tolerance. */
  lemma {:induction false} TurnAlignedWithinTolerance(w: World, last: real, target: real, fixes: seq<TurnFix>, i: nat)
    requires i <= |fixes| && -1.0 <= last <= 1.0
    ensures var r := Turn(w, last, target, fixes, i);
      r.aligned ==> Abs(PrincipalAngle(target - Heading(r.world))) < AngleTolerance
    decreases |fixes| - i
  {
    if i < |fixes| && Abs(PrincipalAngle(target - Heading(w))) >= AngleTolerance {
      var ts := TurnStep(w.(pos := fixes[i].pos), last, PrincipalAngle(target - Heading(w)), fixes[i]);
      TurnAlignedWithinTolerance(ts.0, ts.1, target, fixes, i + 1);
    }
  }

  /** If the rover never moves during the turn, its heading is never
      re-estimated: a turn that starts misaligned uses up every fix and ends
      with the direction it started with. */
  lemma {:induction false} TurnFrozenWhenStill(w: World, last: real, target: real, fixes: seq<TurnFix>, i: nat)
    requires i <= |fixes| && -1.0 <= last <= 1.0
    requires forall j :: i <= j < |fixes| ==> fixes[j].after == fixes[j].pos
    requires Abs(PrincipalAngle(target - Heading(w))) >= AngleTolerance
    ensures var r := Turn(w, last, target, fixes, i);
      !r.aligned && r.at == |fixes| && r.world.direction == w.direction
    decreases |fixes| - i
  {
    if i < |fixes| {
      var ts := TurnStep(w.(pos := fixes[i].pos), last, PrincipalAngle(target - Heading(w)), fixes[i]);
      assert ts.0.direction == w.direction;
      TurnFrozenWhenStill(ts.0, ts.1, target, fixes, i + 1);
    }
  }

  /** One pass of the waypoint loop: the fix, the `hypot` distance and
      `atan2` heading to the target from it, and the fixes the nested turn
      consumes. */
  datatype MoveFix = MoveFix(pos: Point, distance: real, heading: real, turn: seq<TurnFix>)

  datatype MoveEnd = MoveEnd(world: World, outcome: MoveOutcome, at: nat)

  /** The loop of `move_to_target` from fix `i` on. */
  function Move(w: World, fixes: seq<MoveFix>, i: nat): (r: MoveEnd)
    requires i <= |fixes|
    ensures i <= r.at <= |fixes|
    ensures r.outcome == RoverSim.OutOfFixes <==> r.at == |fixes|
    ensures r.outcome == RoverSim.Arrived ==> fixes[r.at].distance < PositionTolerance && r.world.pos == fixes[r.at].pos
    ensures forall j :: i <= j < r.at ==> fixes[j].distance >= PositionTolerance
    decreases |fixes| - i
  {
    if i == |fixes| then MoveEnd(w, RoverSim.OutOfFixes, i)
    else
      var f := fixes[i];
      var w1 := w.(pos := f.pos);
      if f.distance < PositionTolerance then MoveEnd(w1, RoverSim.Arrived, i)
      else
        var turned := TurnThenLeg(w1, f);
        if !turned.aligned then MoveEnd(turned.world, RoverSim.TurnUnfinished, i)
        else Move(turned.world, fixes, i + 1)
  }

  /** `turn_to_angle(target_heading)` on the turn fixes of `f` and, once
      aligned, `(SPEED, SPEED)` for `distance * TIME_PER_FOOT / 12` seconds of
      simulated time and a stop. The direction is left as the turn left it. */
  function TurnThenLeg(w: World, f: MoveFix): (r: TurnEnd)
    requires f.distance >= PositionTolerance
    ensures r.aligned ==> r.world.throttles == Stopped
  {
    var turned := Turn(w.(pid := ResetAt(0.0)), 0.0, f.heading, f.turn, 0);
    if turned.aligned then
      var t := turned.world;
      turned.(world := t.(time := t.time + f.distance * TimePerFoot / 12.0, throttles := Stopped))
    else turned
  }

  /** A fix short of the target, with an aligned turn, costs one leg. */
  lemma MoveUnfold(w: World, fixes: seq<MoveFix>, i: nat)
    requires i < |fixes| && fixes[i].distance >= PositionTolerance
    requires TurnThenLeg(w.(pos := fixes[i].pos), fixes[i]).aligned
    ensures Move(w, fixes, i) == Move(TurnThenLeg(w.(pos := fixes[i].pos), fixes[i]).world, fixes, i + 1)
  {
  }

  /** The rover is left stopped whenever `move_to_target` returns after a
      forward leg, or was stopped to begin with. */
  lemma {:induction false} MoveEndsStopped(w: World, fixes: seq<MoveFix>, i: nat)
    requires i <= |fixes|
    ensures var r := Move(w, fixes, i);
      r.outcome != RoverSim.TurnUnfinished && (r.at > i || w.throttles == Stopped) ==> r.world.throttles == Stopped
    decreases |fixes| - i
  {
    if i < |fixes| && fixes[i].distance >= PositionTolerance {
      var turned := TurnThenLeg(w.(pos := fixes[i].pos), fixes[i]);
      if turned.aligned {
        MoveEndsStopped(turned.world, fixes, i + 1);
      }
    }
  }

  /** Arriving means the squared distance to the target is under 3 * 3. */
  lemma ArrivedWithinTolerance(w: World, target: Point, fixes: seq<MoveFix>)
    requires forall j :: 0 <= j < |fixes| ==>
      IsHypot(fixes[j].distance, target.x - fixes[j].pos.x, target.y - fixes[j].pos.y)
    ensures var r := Move(w, fixes, 0);
      r.outcome == RoverSim.Arrived ==>
        DistSq(target.x - r.world.pos.x, target.y - r.world.pos.y) < PositionTolerance * PositionTolerance
  {
    var r := Move(w, fixes, 0);
    if r.outcome == RoverSim.Arrived {
      var f := fixes[r.at];
      HypotCompare(f.distance, target.x - f.pos.x, target.y - f.pos.y, PositionTolerance);
    }
  }

  /** Each forward leg advances the simulated clock by exactly
      `distance * TIME_PER_FOOT / 12`, the distance being at least 3. */
  lemma ForwardLegTime(distance: real)
    requires distance >= PositionTolerance
    ensures SleepAdvance(distance * TimePerFoot / 12.0, SleepStep) == distance * TimePerFoot / 12.0
  {
  }

  /** The initial `targets` of the script. */
  const InitialTargets: seq<seq<real>> :=
    [[14.5, 16.0], [16.5, 16.0], [19.5, 16.0], [22.5, 16.0], [34.0, 16.0],
     [38.0, 10.5], [46.0, 7.8], [53.0, 12.0], [59.0, 13.5], [60.5, 18.5]]

  /** The module-level state of the script. */
  class Rover {
    const sim: RoverSimulation
    const pid: SimPidController
    var currentPos: Point
    var currentDirection: real
    /** The targets, each the tuple of its coordinates. */
    var targets: seq<seq<real>>

    function Snapshot(): World
      reads this, sim, pid
    {
      RoverSim.World(pid.State(), sim.currentTime, sim.Throttles(), currentPos, currentDirection)
    }

    /** `current_pos = [9.7, 12.5]`, `current_direction = [0.0, 1.0]` (90 degrees). */
    constructor()
      ensures fresh(sim) && fresh(pid) && pid.gains == DefaultGains && targets == InitialTargets
      ensures Snapshot() == RoverSim.World(ResetAt(0.0), 0.0, Stopped, Point(9.7, 12.5), 90.0)
    {
      sim := new RoverSimulation();
      pid := new SimPidController(1.0, 0.1, 0.05, 0.1);
      currentPos := Point(9.7, 12.5);
      currentDirection := 90.0;
      targets := InitialTargets;
    }

    /** `update_targets(text)`, with `float()` as `toFloat`; `raised` says
        whether the call raised `ValueError`. */
    method UpdateTargets(text: string, toFloat: string -> Option<real>) returns (raised: bool)
      modifies this`targets
      ensures Text.TargetsUpdate(targets, raised) == Text.UpdateTargets(old(targets), text, toFloat)
    {
      var converted := Text.ConvertTargets(Text.ParseTargets(text), toFloat);
      if converted.None? {
        return true;
      }
      targets := converted.value;
      raised := !Text.Unzips(targets);
    }

    /** `update_direction_using_displacement(old_pos, new_pos)`, given the
        `atan2` heading of the displacement in degrees. */
    method UpdateDirectionUsingDisplacement(oldPos: Point, newPos: Point, displacementHeading: real)
      modifies this`currentDirection
      ensures currentDirection == DirectionAfter(old(currentDirection), oldPos, newPos, displacementHeading)
    {
      var dx := newPos.x - oldPos.x;
      var dy := newPos.y - oldPos.y;
      if dx != 0.0 || dy != 0.0 {
        currentDirection := displacementHeading;
      }
    }

    /** `turn_to_angle(target_heading_deg)`. */
    method TurnToAngle(target: real, fixes: seq<TurnFix>) returns (aligned: bool, at: nat)
      requires pid.gains == DefaultGains
      modifies this`currentPos, this`currentDirection, sim, pid
      ensures var r := Turn(old(Snapshot()).(pid := ResetAt(0.0)), 0.0, target, fixes, 0);
        Snapshot() == r.world && aligned == r.aligned && at == r.at
    {
      pid.Reset();
      ghost var start := Snapshot();
      assert start == old(Snapshot()).(pid := ResetAt(0.0));
      var lastThrottle := 0.0;
      var i := 0;
      ghost var before := start;
      while i < |fixes|
        invariant i <= |fixes| && before == Snapshot() && -1.0 <= lastThrottle <= 1.0
        invariant Turn(before, lastThrottle, target, fixes, i) == Turn(start, 0.0, target, fixes, 0)
        decreases |fixes| - i
      {
        assert currentDirection == before.direction;
        currentPos := fixes[i].pos;
        ghost var w1 := Snapshot();
        assert w1 == before.(pos := fixes[i].pos);
        var error := PrincipalAngle(target - PrincipalAngle(currentDirection));
        assert error == PrincipalAngle(target - Heading(before));
        if Abs(error) < AngleTolerance {
          sim.SetThrottles(Stopped);
          assert Snapshot() == w1.(throttles := Stopped);
          TurnAlignedUnfold(before, lastThrottle, target, fixes, i);
          return true, i;
        }
        ghost var lastBefore := lastThrottle;
        lastThrottle := Steer(error, lastThrottle, fixes[i]);
        TurnUnfold(before, lastBefore, target, fixes, i);
        before := Snapshot();
        i := i + 1;
      }
      return false, i;
    }

    /** The rest of one pass of `turn_to_angle` once the heading error is
        outside the tolerance: `compute(error, sim.current_time)`, keep the
        output unless it is None, drive `(last, -last)`, `simulate_sleep(0.1)`,
        read the new fix and re-estimate the direction. */
    method Steer(error: real, last: real, f: TurnFix) returns (newLast: real)
      requires pid.gains == DefaultGains && -1.0 <= last <= 1.0
      modifies this`currentDirection, sim, pid
      ensures (Snapshot(), newLast) == TurnStep(old(Snapshot()), last, error, f)
    {
      ghost var w := Snapshot();
      ghost var step := PidStep(DefaultGains, w.pid, error, w.time);
      var output := pid.Compute(error, sim.currentTime);
      assert pid.State() == step.0 && output == step.1;
      newLast := last;
      if output.Some? {
        newLast := output.value;
      }
      sim.SetThrottles(Throttles(newLast, -newLast));
      SimulateSleep(sim, TurnTimeStep, SleepStep);
      SleepOneStep(SleepStep);
      UpdateDirectionUsingDisplacement(currentPos, f.after, f.afterHeading);
      assert Snapshot() == RoverSim.World(step.0, w.time + TurnTimeStep, Throttles(newLast, -newLast), w.pos,
                                          DirectionAfter(w.direction, w.pos, f.after, f.afterHeading));
    }

    /** `move_to_target(target_pos)`. */
    method MoveToTarget(fixes: seq<MoveFix>) returns (outcome: MoveOutcome, at: nat)
      requires pid.gains == DefaultGains
      modifies this`currentPos, this`currentDirection, sim, pid
      ensures var r := Move(old(Snapshot()), fixes, 0);
        Snapshot() == r.world && outcome == r.outcome && at == r.at
    {
      var i := 0;
      while i < |fixes|
        invariant i <= |fixes|
        invariant Move(Snapshot(), fixes, i) == Move(old(Snapshot()), fixes, 0)
        decreases |fixes| - i
      {
        ghost var before := Snapshot();
        var f := fixes[i];
        currentPos := f.pos;
        ghost var w1 := Snapshot();
        assert w1 == before.(pos := f.pos);
        if f.distance < PositionTolerance {
          return RoverSim.Arrived, i;
        }
        ghost var turned := TurnThenLeg(w1, f);
        var aligned, _ := TurnToAngle(f.heading, f.turn);
        if !aligned {
          assert Snapshot() == turned.world;
          return RoverSim.TurnUnfinished, i;
        }
        ghost var w2 := Snapshot();
        sim.SetThrottles(Throttles(Speed, Speed));
        SimulateSleep(sim, f.distance * TimePerFoot / 12.0, SleepStep);
        ForwardLegTime(f.distance);
        sim.SetThrottles(Stopped);
        assert Snapshot() == w2.(time := w2.time + f.distance * TimePerFoot / 12.0, throttles := Stopped);
        assert Snapshot() == turned.world;
        MoveUnfold(before, fixes, i);
        i := i + 1;
      }
      return RoverSim.OutOfFixes, i;
    }
  }
}
