/** testv4.py: dead-reckoning navigation over a 142 x 92 inch map. The
    position comes from a light tracker as a pixel that an affine map turns
    into inches; the heading is kept as a direction vector that `turn_angle`
    rotates by the commanded angle. Every motor write in this script is
    commented out, so what it does to the world is sleep: the model records
    each `time.sleep` duration. The tracker's pixel and the `atan2` bearing
    to a target enter as fixes. */
module Testv4 {
  import opened RoverMath
  import opened Vectors

  const TimePer360 := 1.6
  const DegreesPerSecond := 360.0 / TimePer360
  const AngleTolerance := 15.0
  const PositionTolerance := 3.0
  const KpSteering := 0.5
  const TimePerFoot := 0.54
  const Speed := 0.75
  const StepTime := 0.1

  const MapWidthInches := 142.0
  const MapHeightInches := 92.0
  const TopLeftPixel := Point(58.0, 23.0)
  const TopRightPixel := Point(760.0, 23.0)
  const BottomLeftPixel := Point(58.0, 469.0)

  const Targets: seq<Point> := [
    Point(14.5, 16.0), Point(16.5, 16.0), Point(19.5, 16.0), Point(22.5, 16.0), Point(34.0, 16.0),
    Point(38.0, 10.5), Point(46.0, 7.8), Point(53.0, 12.0), Point(59.0, 13.5), Point(60.5, 18.5)]

  const ScaleX := MapWidthInches / (TopRightPixel.x - TopLeftPixel.x)
  const ScaleY := MapHeightInches / (BottomLeftPixel.y - TopLeftPixel.y)

  /** The arithmetic of `update_position`: pixels relative to the top-left
      corner, scaled to inches. */
  function PixelToInches(p: Point): Point
  {
    Point((p.x - TopLeftPixel.x) * ScaleX, (p.y - TopLeftPixel.y) * ScaleY)
  }

  /** The inverse map, from inches on the map back to the tracker's pixel. */
  function InchesToPixel(q: Point): Point
  {
    Point(q.x / ScaleX + TopLeftPixel.x, q.y / ScaleY + TopLeftPixel.y)
  }

  /** The map sends the top-left corner to the origin, the right edge to
      the map width and the bottom edge to the map height. */
  lemma CornersMap(y: real, x: real)
    ensures PixelToInches(TopLeftPixel) == Point(0.0, 0.0)
    ensures PixelToInches(Point(TopRightPixel.x, y)).x == MapWidthInches
    ensures PixelToInches(Point(x, BottomLeftPixel.y)).y == MapHeightInches
  {
  }

  /** The map is affine with positive scales, and it is a bijection between
      pixels and inches. */
  lemma PixelToInchesAffine(p: Point, q: Point)
    ensures PixelToInches(p).x - PixelToInches(q).x == (p.x - q.x) * ScaleX
    ensures PixelToInches(p).y - PixelToInches(q).y == (p.y - q.y) * ScaleY
    ensures ScaleX > 0.0 && ScaleY > 0.0
    ensures InchesToPixel(PixelToInches(p)) == p && PixelToInches(InchesToPixel(p)) == p
  {
  }

  /** `move_forward`'s sleep: the distance in feet times the time per foot. */
  function ForwardTime(distance: real): (r: real)
    ensures distance >= 0.0 ==> r >= 0.0
  {
    (distance / 12.0) * TimePerFoot
  }

  /** A foot takes `TIME_PER_FOOT`, and the time of two legs is the sum. */
  lemma ForwardTimeLinear(a: real, b: real)
    ensures ForwardTime(12.0) == TimePerFoot
    ensures ForwardTime(a + b) == ForwardTime(a) + ForwardTime(b)
  {
  }

  /** `turn_angle`'s sleep: the angle's size over the turn rate. */
  function TurnTime(angle: real): (r: real)
    ensures r >= 0.0 && (r == 0.0 <==> angle == 0.0)
  {
    Abs(angle) / DegreesPerSecond
  }

  /** A full turn takes `TIME_PER_360`; left and right turns of one size
      take equally long. */
  lemma TurnTimeLaws(angle: real)
    ensures TurnTime(360.0) == TimePer360
    ensures TurnTime(-angle) == TurnTime(angle)
  {
  }

  /** The steering `move_to_target` computes, `clamp(KP_STEERING * err)`. */
  function Steering(err: real): (r: real)
    ensures -1.0 <= r <= 1.0
    ensures Abs(err) <= 2.0 ==> r == KpSteering * err
    ensures err >= 2.0 ==> r == 1.0
    ensures err <= -2.0 ==> r == -1.0
  {
    Max(-1.0, Min(1.0, KpSteering * err))
  }

  /** The heading error after the single wrap. */
  function HeadingError(d: Direction, targetAngle: real): real
    requires d.magnitude > 0.0
  {
    WrapOnce(targetAngle - HeadingOf(d))
  }

  predicate Aligned(d: Direction, targetAngle: real)
    requires d.magnitude > 0.0
  {
    Abs(HeadingError(d, targetAngle)) <= AngleTolerance
  }

  /** A target bearing read by `atan2` and the heading both lie in
      (-180, 180], so their difference lies in (-360, 360) and one wrap
      brings it into [-180, 180], congruent to the raw difference. */
  lemma HeadingErrorWrapped(d: Direction, targetAngle: real)
    requires d.magnitude > 0.0 && -180.0 < targetAngle <= 180.0
    ensures -180.0 <= HeadingError(d, targetAngle) <= 180.0
    ensures Congruent360(HeadingError(d, targetAngle), targetAngle - HeadingOf(d))
  {
  }

  /** What `adjust_heading(target_angle)` does to the direction and which
      sleeps it takes: nothing when already aligned, otherwise one turn by
      the wrapped error. */
  function AdjustHeading(d: Direction, targetAngle: real): (r: (Direction, seq<real>))
    requires d.magnitude > 0.0 && -180.0 < targetAngle <= 180.0
    ensures r.0.magnitude == d.magnitude
    ensures Aligned(r.0, targetAngle)
    ensures Aligned(d, targetAngle) ==> r == (d, [])
    ensures !Aligned(d, targetAngle) ==> (HeadingOf(r.0) == targetAngle
        && r.1 == [TurnTime(HeadingError(d, targetAngle))])
  {
    var err := HeadingError(d, targetAngle);
    if Abs(err) <= AngleTolerance then (d, [])
    else
      var turned := Direction(HeadingOf(d) + err, d.magnitude);
      OneTurnAligns(d, targetAngle);
      (turned, [TurnTime(err)])
  }

  /** After one turn by the wrapped error, the heading reads back exactly as
      the target bearing, so the error is 0. */
  lemma OneTurnAligns(d: Direction, targetAngle: real)
    requires d.magnitude > 0.0 && -180.0 < targetAngle <= 180.0
    ensures var turned := Direction(HeadingOf(d) + HeadingError(d, targetAngle), d.magnitude);
      HeadingOf(turned) == targetAngle && HeadingError(turned, targetAngle) == 0.0
  {
    var h := HeadingOf(d);
    var err := HeadingError(d, targetAngle);
    CongruentShift(err, targetAngle - h, h);
    assert h + (targetAngle - h) == targetAngle;
    PrincipalOfCongruent(h + err, targetAngle);
  }

  /** One reading inside `move_to_target`: the tracker's pixel and the
      `atan2` bearing from the position it gives to the target. */
  datatype MoveFix = MoveFix(pixel: Point, bearing: real)

  datatype World = World(pos: Point, direction: Direction, sleeps: seq<real>)

  datatype MoveEnd = MoveEnd(world: World, arrived: bool, at: nat, steerings: seq<real>)

  /** Within the position tolerance, `hypot(dx, dy) <= 3`. */
  predicate Arrived(pos: Point, target: Point)
  {
    var v := Subtract(target, pos);
    DistSq(v.x, v.y) <= PositionTolerance * PositionTolerance
  }

  /** The loop of `move_to_target(target)` from fix `i` on, with the steering
      value each pass computes. */
  function Move(w: World, target: Point, fixes: seq<MoveFix>, i: nat): (r: MoveEnd)
    requires i <= |fixes| && w.direction.magnitude > 0.0
    ensures i <= r.at <= |fixes| && |r.steerings| == r.at - i
    ensures r.arrived <==> r.at < |fixes|
    ensures r.arrived ==> r.world.pos == PixelToInches(fixes[r.at].pixel) && Arrived(r.world.pos, target)
    ensures forall j :: i <= j < r.at ==> !Arrived(PixelToInches(fixes[j].pixel), target)
    ensures r.world.direction == w.direction
    ensures |r.world.sleeps| == |w.sleeps| + (r.at - i) && r.world.sleeps[..|w.sleeps|] == w.sleeps
    ensures forall k :: |w.sleeps| <= k < |r.world.sleeps| ==> r.world.sleeps[k] == StepTime
    decreases |fixes| - i
  {
    if i == |fixes| then MoveEnd(w, false, i, [])
    else
      var pos := PixelToInches(fixes[i].pixel);
      if Arrived(pos, target) then MoveEnd(w.(pos := pos), true, i, [])
      else
        var steering := Steering(WrapOnce(fixes[i].bearing - HeadingOf(w.direction)));
        var rest := Move(w.(pos := pos, sleeps := w.sleeps + [StepTime]), target, fixes, i + 1);
        assert rest.world.sleeps[..|w.sleeps|] == (w.sleeps + [StepTime])[..|w.sleeps|];
        MoveEnd(rest.world, rest.arrived, rest.at, [steering] + rest.steerings)
  }

  /** Every pass before arrival computed the clamped steering of its own
      wrapped heading error. */
  lemma {:induction false} MoveSteerings(w: World, target: Point, fixes: seq<MoveFix>, i: nat)
    requires i <= |fixes| && w.direction.magnitude > 0.0
    ensures var r := Move(w, target, fixes, i);
      forall j :: i <= j < r.at ==>
        r.steerings[j - i] == Steering(WrapOnce(fixes[j].bearing - HeadingOf(w.direction)))
    decreases |fixes| - i
  {
    if i < |fixes| && !Arrived(PixelToInches(fixes[i].pixel), target) {
      var pos := PixelToInches(fixes[i].pixel);
      MoveSteerings(w.(pos := pos, sleeps := w.sleeps + [StepTime]), target, fixes, i + 1);
    }
  }

  /** A pass that is not yet there hands the rest of the loop the tracked
      position and one more sleep, and prepends its steering. */
  lemma MovePassStep(before: World, after: World, target: Point, fixes: seq<MoveFix>, i: nat, steering: real, earlier: seq<real>)
    requires i < |fixes| && before.direction.magnitude > 0.0
    requires after == before.(pos := PixelToInches(fixes[i].pixel), sleeps := before.sleeps + [StepTime])
    requires !Arrived(after.pos, target)
    requires steering == Steering(WrapOnce(fixes[i].bearing - HeadingOf(before.direction)))
    ensures var r := Move(before, target, fixes, i); var next := Move(after, target, fixes, i + 1);
      r.world == next.world && r.arrived == next.arrived && r.at == next.at
        && r.steerings == [steering] + next.steerings
        && earlier + r.steerings == (earlier + [steering]) + next.steerings
  {
    var r := Move(before, target, fixes, i);
    var next := Move(after, target, fixes, i + 1);
    assert r.steerings == [steering] + next.steerings;
    assert earlier + ([steering] + next.steerings) == (earlier + [steering]) + next.steerings;
  }

  /** A fix within tolerance ends the loop there, at that fix's position. */
  lemma MoveArrivesAt(w: World, target: Point, fixes: seq<MoveFix>, i: nat)
    requires i < |fixes| && w.direction.magnitude > 0.0
    requires Arrived(PixelToInches(fixes[i].pixel), target)
    ensures Move(w, target, fixes, i) == MoveEnd(w.(pos := PixelToInches(fixes[i].pixel)), true, i, [])
  {
  }

  /** The observations `main` consumes for one target: the `atan2` bearing
      `adjust_heading` is given, and the fixes of `move_to_target`. */
  datatype Leg = Leg(targetAngle: real, fixes: seq<MoveFix>)

  predicate LegsValid(legs: seq<Leg>)
  {
    forall k :: 0 <= k < |legs| ==> -180.0 < legs[k].targetAngle <= 180.0
  }

  /** The `for target in targets` loop of `main` from target `t` on: how far
      it got (all targets reached, or the fixes ran out during target
      `reached`). */
  function Mission(w: World, legs: seq<Leg>, t: nat): (r: (World, nat))
    requires t <= |Targets| == |legs| && LegsValid(legs) && w.direction.magnitude > 0.0
    ensures t <= r.1 <= |Targets| && r.0.direction.magnitude == w.direction.magnitude
    decreases |Targets| - t
  {
    if t == |Targets| then (w, t)
    else
      var moved := LegRun(w, legs, t);
      if !moved.arrived then (moved.world, t)
      else Mission(moved.world, legs, t + 1)
  }

  /** Target `t` of `main`: `adjust_heading` towards its bearing, then
      `move_to_target` over its fixes. */
  function LegRun(w: World, legs: seq<Leg>, t: nat): (r: MoveEnd)
    requires t < |Targets| == |legs| && LegsValid(legs) && w.direction.magnitude > 0.0
    ensures r.world.direction.magnitude == w.direction.magnitude
    ensures r.arrived ==> Arrived(r.world.pos, Targets[t])
  {
    var adjusted := AdjustHeading(w.direction, legs[t].targetAngle);
    Move(w.(direction := adjusted.0, sleeps := w.sleeps + adjusted.1), Targets[t], legs[t].fixes, 0)
  }

  /** The world `main` holds when it starts target `u`, had every target
      before it been reached. */
  function WorldAt(w: World, legs: seq<Leg>, u: nat): (r: World)
    requires u <= |Targets| == |legs| && LegsValid(legs) && w.direction.magnitude > 0.0
    ensures r.direction.magnitude == w.direction.magnitude
  {
    if u == 0 then w else LegRun(WorldAt(w, legs, u - 1), legs, u - 1).world
  }

  /** `main` visits the targets in order: target `u` starts from the world
      target `u - 1` left and ends within tolerance of `Targets[u]` for every
      `u` before the count, and `main` stops at the first target whose fixes
      run out. */
  lemma MissionInOrder(w: World, legs: seq<Leg>)
    requires |Targets| == |legs| && LegsValid(legs) && w.direction.magnitude > 0.0
    ensures var r := Mission(w, legs, 0);
      (forall u :: 0 <= u < r.1 ==> (LegRun(WorldAt(w, legs, u), legs, u).arrived
                                    && Arrived(WorldAt(w, legs, u + 1).pos, Targets[u])))
      && (r.1 < |legs| ==> !LegRun(WorldAt(w, legs, r.1), legs, r.1).arrived
                           && r.0 == LegRun(WorldAt(w, legs, r.1), legs, r.1).world)
      && (r.1 == |legs| ==> r.0 == WorldAt(w, legs, |legs|))
  {
    assert WorldAt(w, legs, 0) == w;
    MissionReachedFrom(w, legs, 0);
    MissionStopsFrom(w, legs, 0);
    MissionEndsFrom(w, legs, 0);
    var r := Mission(w, legs, 0);
    forall u | 0 <= u < r.1
      ensures LegRun(WorldAt(w, legs, u), legs, u).arrived && Arrived(WorldAt(w, legs, u + 1).pos, Targets[u])
    {
      assert LegRun(WorldAt(w, legs, u), legs, u).arrived;
      ReachedArrives(w, legs, u);
    }
  }

  /** A target reached leaves the rover within tolerance of it. */
  lemma ReachedArrives(w: World, legs: seq<Leg>, u: nat)
    requires u < |Targets| == |legs| && LegsValid(legs) && w.direction.magnitude > 0.0
    requires LegRun(WorldAt(w, legs, u), legs, u).arrived
    ensures Arrived(WorldAt(w, legs, u + 1).pos, Targets[u])
  {
    var moved := LegRun(WorldAt(w, legs, u), legs, u);
    assert WorldAt(w, legs, u + 1) == moved.world;
  }

  /** Every target before the count was reached from its own world. */
  lemma {:induction false} MissionReachedFrom(w: World, legs: seq<Leg>, t: nat)
    requires t <= |Targets| == |legs| && LegsValid(legs) && w.direction.magnitude > 0.0
    ensures var r := Mission(WorldAt(w, legs, t), legs, t);
      forall u :: t <= u < r.1 ==> LegRun(WorldAt(w, legs, u), legs, u).arrived
    decreases |Targets| - t
  {
    if t < |Targets| {
      var here := WorldAt(w, legs, t);
      var moved := LegRun(here, legs, t);
      if moved.arrived {
        var next := WorldAt(w, legs, t + 1);
        assert next == moved.world;
        assert Mission(here, legs, t) == Mission(next, legs, t + 1);
        MissionReachedFrom(w, legs, t + 1);
        var r := Mission(next, legs, t + 1);
        forall u | t <= u < r.1
          ensures LegRun(WorldAt(w, legs, u), legs, u).arrived
        {
          if u != t {
            assert t + 1 <= u < r.1;
          }
        }
      }
    }
  }

  /** Where `main` stops short: at the first target not reached, with the
      world its `move_to_target` left. */
  lemma {:induction false} MissionStopsFrom(w: World, legs: seq<Leg>, t: nat)
    requires t <= |Targets| == |legs| && LegsValid(legs) && w.direction.magnitude > 0.0
    ensures var r := Mission(WorldAt(w, legs, t), legs, t);
      r.1 < |legs| ==> !LegRun(WorldAt(w, legs, r.1), legs, r.1).arrived
                       && r.0 == LegRun(WorldAt(w, legs, r.1), legs, r.1).world
    decreases |Targets| - t
  {
    if t < |Targets| && LegRun(WorldAt(w, legs, t), legs, t).arrived {
      MissionStopsFrom(w, legs, t + 1);
    }
  }

  /** When every target from `t` on is reached, `main` ends with the world
      the last one left. */
  lemma {:induction false} MissionEndsFrom(w: World, legs: seq<Leg>, t: nat)
    requires t <= |Targets| == |legs| && LegsValid(legs) && w.direction.magnitude > 0.0
    ensures var r := Mission(WorldAt(w, legs, t), legs, t);
      r.1 == |legs| ==> r.0 == WorldAt(w, legs, |legs|)
    decreases |Targets| - t
  {
    if t < |Targets| && LegRun(WorldAt(w, legs, t), legs, t).arrived {
      MissionEndsFrom(w, legs, t + 1);
    }
  }

  class Rover {
    var currentPos: Point
    var currentDirection: Direction
    /** The `time.sleep` durations so far. */
    var sleeps: seq<real>

    constructor()
      ensures currentPos == Point(9.7, 12.5) && currentDirection == Direction(90.0, 1.0) && sleeps == []
    {
      currentPos := Point(9.7, 12.5);
      currentDirection := Direction(90.0, 1.0);
      sleeps := [];
    }

    function Snapshot(): World
      reads this
    {
      World(currentPos, currentDirection, sleeps)
    }

    /** `update_position()` with the tracker's pixel. */
    method UpdatePosition(pixel: Point)
      modifies this`currentPos
      ensures currentPos == PixelToInches(pixel)
    {
      var scaleX := MapWidthInches / (TopRightPixel.x - TopLeftPixel.x);
      var scaleY := MapHeightInches / (BottomLeftPixel.y - TopLeftPixel.y);
      var xInches := (pixel.x - TopLeftPixel.x) * scaleX;
      var yInches := (pixel.y - TopLeftPixel.y) * scaleY;
      currentPos := Point(xInches, yInches);
    }

    /** `move_forward(distance)`: sleep for the distance, then take the
        tracker's position, which overwrites the dead-reckoned one. */
    method MoveForward(distance: real, pixel: Point)
      modifies this`currentPos, this`sleeps
      ensures sleeps == old(sleeps) + [ForwardTime(distance)]
      ensures currentPos == PixelToInches(pixel)
    {
      var timeToMove := (distance / 12.0) * TimePerFoot;
      sleeps := sleeps + [timeToMove];
      UpdatePosition(pixel);
    }

    /** `turn_angle(angle)`: sleep for the turn, then rotate the direction
        vector by the angle, keeping its magnitude. */
    method TurnAngle(angle: real)
      requires currentDirection.magnitude > 0.0
      modifies this`currentDirection, this`sleeps
      ensures sleeps == old(sleeps) + [TurnTime(angle)]
      ensures currentDirection == Direction(HeadingOf(old(currentDirection)) + angle, old(currentDirection).magnitude)
    {
      var turnTime := Abs(angle) / DegreesPerSecond;
      sleeps := sleeps + [turnTime];
      var currentAngle, magnitude := HeadingOf(currentDirection), currentDirection.magnitude;
      var newAngle := currentAngle + angle;
      currentDirection := Direction(newAngle, magnitude);
    }

    /** `adjust_heading(target_angle)` for an `atan2` bearing. Its `while
        True` ends after at most one turn. */
    method AdjustHeadingTo(targetAngle: real)
      requires currentDirection.magnitude > 0.0 && -180.0 < targetAngle <= 180.0
      modifies this`currentDirection, this`sleeps
      ensures var r := AdjustHeading(old(currentDirection), targetAngle);
        currentDirection == r.0 && sleeps == old(sleeps) + r.1
    {
      var turned := false;
      while true
        invariant currentDirection.magnitude == old(currentDirection).magnitude
        invariant !turned ==> currentDirection == old(currentDirection) && sleeps == old(sleeps)
        invariant turned ==> (!Aligned(old(currentDirection), targetAngle)
          && currentDirection == AdjustHeading(old(currentDirection), targetAngle).0
          && sleeps == old(sleeps) + AdjustHeading(old(currentDirection), targetAngle).1)
        decreases if turned then 0 else 1
      {
        var currentAngle := HeadingOf(currentDirection);
        var angleError := targetAngle - currentAngle;
        angleError := WrapOnce(angleError);
        if Abs(angleError) <= AngleTolerance {
          break;
        }
        OneTurnAligns(currentDirection, targetAngle);
        TurnAngle(angleError);
        turned := true;
      }
    }

    /** One pass of `move_to_target`: take the tracker's position and, when
        not yet there, compute the steering and sleep one step. */
    method MovePass(target: Point, f: MoveFix) returns (arrivedNow: bool, steering: real)
      requires currentDirection.magnitude > 0.0
      modifies this`currentPos, this`sleeps
      ensures currentPos == PixelToInches(f.pixel)
      ensures arrivedNow <==> Arrived(currentPos, target)
      ensures arrivedNow ==> sleeps == old(sleeps)
      ensures !arrivedNow ==> (sleeps == old(sleeps) + [StepTime]
        && steering == Steering(WrapOnce(f.bearing - HeadingOf(currentDirection))))
    {
      UpdatePosition(f.pixel);
      var targetVector := Subtract(target, currentPos);
      if DistSq(targetVector.x, targetVector.y) <= PositionTolerance * PositionTolerance {
        return true, 0.0;
      }
      var desiredAngle := f.bearing;
      var currentAngle := HeadingOf(currentDirection);
      var angleError := WrapOnce(desiredAngle - currentAngle);
      steering := KpSteering * angleError;
      steering := Max(-1.0, Min(1.0, steering));
      sleeps := sleeps + [StepTime];
      return false, steering;
    }

    /** `move_to_target(target)`; `steerings` are the values the loop
        computes and, with the motor writes commented out, never applies. */
    method MoveToTarget(target: Point, fixes: seq<MoveFix>) returns (arrived: bool, at: nat, steerings: seq<real>)
      requires currentDirection.magnitude > 0.0
      modifies this`currentPos, this`sleeps
      ensures var r := Move(old(Snapshot()), target, fixes, 0);
        Snapshot() == r.world && arrived == r.arrived && at == r.at && steerings == r.steerings
    {
      var i := 0;
      steerings := [];
      ghost var r0 := Move(Snapshot(), target, fixes, 0);
      ghost var r := r0;
      while i < |fixes|
        invariant i <= |fixes| && r == Move(Snapshot(), target, fixes, i)
        invariant r.world == r0.world && r.arrived == r0.arrived && r.at == r0.at
        invariant steerings + r.steerings == r0.steerings
        decreases |fixes| - i
      {
        ghost var before := Snapshot();
        var arrivedNow, steering := MovePass(target, fixes[i]);
        if arrivedNow {
          MoveArrivesAt(before, target, fixes, i);
          assert steerings + [] == steerings;
          return true, i, steerings;
        }
        ghost var after := Snapshot();
        assert after == before.(pos := PixelToInches(fixes[i].pixel), sleeps := before.sleeps + [StepTime]);
        MovePassStep(before, after, target, fixes, i, steering, steerings);
        ghost var next := Move(after, target, fixes, i + 1);
        steerings := steerings + [steering];
        r := next;
        i := i + 1;
      }
      assert steerings + [] == steerings;
      return false, i, steerings;
    }

    /** The body of `main`'s `for target in targets` loop for target `t`. */
    method DriveLeg(legs: seq<Leg>, t: nat) returns (arrived: bool)
      requires t < |Targets| == |legs| && LegsValid(legs) && currentDirection.magnitude > 0.0
      modifies this`currentPos, this`currentDirection, this`sleeps
      ensures var r := LegRun(old(Snapshot()), legs, t);
        Snapshot() == r.world && arrived == r.arrived
    {
      AdjustHeadingTo(legs[t].targetAngle);
      var at, steerings;
      arrived, at, steerings := MoveToTarget(Targets[t], legs[t].fixes);
    }

    /** `main()`: take a position, drive 3 inches, point the direction along
        the displacement (its `atan2` angle `displacementAngle`), then
        adjust the heading and drive to each target in turn. */
    method RunMain(startPixel: Point, afterPixel: Point, displacementAngle: real, legs: seq<Leg>) returns (reached: nat)
      requires |legs| == |Targets| && LegsValid(legs)
      modifies this
      ensures var start := World(PixelToInches(afterPixel), Direction(displacementAngle, 1.0),
                                 old(sleeps) + [ForwardTime(3.0)]);
        (Snapshot(), reached) == Mission(start, legs, 0)
    {
      UpdatePosition(startPixel);
      MoveForward(3.0, afterPixel);
      currentDirection := Direction(displacementAngle, 1.0);
      ghost var before := Snapshot();
      ghost var goal := Mission(before, legs, 0);
      var t := 0;
      while t < |Targets|
        invariant t <= |Targets| && currentDirection.magnitude == 1.0
        invariant before == Snapshot() && Mission(before, legs, t) == goal
        decreases |Targets| - t
      {
        ghost var moved := LegRun(before, legs, t);
        assert Mission(before, legs, t)
          == if !moved.arrived then (moved.world, t) else Mission(moved.world, legs, t + 1);
        var arrived := DriveLeg(legs, t);
        before := Snapshot();
        if !arrived {
          return t;
        }
        t := t + 1;
      }
      return t;
    }
  }
}
