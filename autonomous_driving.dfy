/** Autonomous_Driving_Code.py: waypoint driving on a 94 x 143 inch map
    where the heading is measured by driving a few inches and taking the
    `atan2` angle of the displacement.

    `get_current_pixel` is a stub that always answers the pixel (393, 609),
    so after the first `update_position` the position never changes, every
    measured displacement is zero and `atan2(0, 0)` reads it as 0 degrees.
    The `while True` loops of `adjust_heading` and `move_to_target` are
    modelled with an explicit number of passes. `atan2` of a non-zero
    displacement enters as a reading. */
module AutonomousDriving {
  import opened RoverMath
  import opened Motors

  const TimePer360 := 4.0
  const DegreesPerSecond := 360.0 / TimePer360
  const AngleTolerance := 5.0
  const PositionTolerance := 1.0
  const KpSteering := 0.5
  const TimePerFoot := 2.0
  const Speed := 0.5
  const StepTime := 0.1

  const MapWidthInches := 94.0
  const MapHeightInches := 143.0
  const TopLeftPixel := Point(243.0, 359.0)
  const TopRightPixel := Point(543.0, 359.0)
  const BottomLeftPixel := Point(243.0, 859.0)

  const Targets: seq<Point> := [Point(50.0, 50.0), Point(30.0, 80.0), Point(90.0, 120.0)]

  /** `get_current_pixel()`: the stub's answer. */
  const StubPixel := Point(393.0, 609.0)

  const ScaleX := MapWidthInches / (TopRightPixel.x - TopLeftPixel.x)
  const ScaleY := MapHeightInches / (BottomLeftPixel.y - TopLeftPixel.y)

  /** The arithmetic of `update_position`. */
  function PixelToInches(p: Point): Point
  {
    Point((p.x - TopLeftPixel.x) * ScaleX, (p.y - TopLeftPixel.y) * ScaleY)
  }

  /** The scales are 94/300 and 143/500 inch per pixel, the top-left corner
      is the origin, and the stub pixel is the centre of the map. */
  lemma MapFacts(p: Point, q: Point)
    ensures ScaleX == 94.0 / 300.0 && ScaleY == 143.0 / 500.0
    ensures PixelToInches(TopLeftPixel) == Point(0.0, 0.0)
    ensures PixelToInches(StubPixel) == Point(47.0, 71.5) == Point(MapWidthInches / 2.0, MapHeightInches / 2.0)
    ensures PixelToInches(p).x - PixelToInches(q).x == (p.x - q.x) * ScaleX
    ensures PixelToInches(p).y - PixelToInches(q).y == (p.y - q.y) * ScaleY
  {
  }

  /** Where the rover always is once it has taken a position. */
  const StubPosition := PixelToInches(StubPixel)

  /** `calculate_angle(x1, y1, x2, y2)`: `atan2` of the displacement in
      degrees, which is 0 for a zero displacement; `reading` is the
      `atan2` value for a non-zero one. */
  function CalculateAngle(from: Point, to: Point, reading: real): (r: real)
    ensures from == to ==> r == 0.0
  {
    if from == to then 0.0 else reading
  }

  /** `move_forward`'s sleep. */
  function ForwardTime(distance: real): (r: real)
    ensures distance >= 0.0 ==> r >= 0.0
    ensures distance == 12.0 ==> r == TimePerFoot
  {
    (distance / 12.0) * TimePerFoot
  }

  /** `turn_angle`'s sleep. */
  function TurnTime(angle: real): (r: real)
    ensures r >= 0.0 && (r == 0.0 <==> angle == 0.0)
    ensures Abs(angle) == 360.0 ==> r == TimePer360
  {
    Abs(angle) / DegreesPerSecond
  }

  /** The spin `turn_angle` commands at full `SPEED`: right wheel forward
      for a positive angle, backward otherwise. */
  function TurnThrottles(angle: real): (r: Throttles)
    ensures Spin(r) && Abs(r.motor1) == Speed && (r.motor1 > 0.0 <==> angle > 0.0)
  {
    if angle > 0.0 then Throttles(Speed, -Speed) else Throttles(-Speed, Speed)
  }

  /** The steering of `move_to_target`: `clamp(KP_STEERING * err, -1, 1)`. */
  function Steering(err: real): (r: real)
    ensures -1.0 <= r <= 1.0
    ensures Abs(err) <= 2.0 ==> r == KpSteering * err
  {
    Max(-1.0, Min(1.0, KpSteering * err))
  }

  /** `motor1 = SPEED + steering`, `motor2 = SPEED - steering`. */
  function SteerThrottles(err: real): (r: Throttles)
    ensures r.motor1 + r.motor2 == 2.0 * Speed
    ensures -0.5 <= r.motor1 <= 1.5 && -0.5 <= r.motor2 <= 1.5
    ensures err > 0.0 ==> r.motor1 > r.motor2
  {
    Throttles(Speed + Steering(err), Speed - Steering(err))
  }

  datatype World = World(kit: Kit, pos: Point)

  /** `move_forward(distance)`: both wheels at `SPEED` for the distance's
      time, then stopped, then a new position from the stub. */
  function Forward(w: World, distance: real): (r: World)
    ensures r.kit.throttles == Stopped && r.pos == StubPosition
    ensures r.kit.pulses == w.kit.pulses + [Pulse(Throttles(Speed, Speed), ForwardTime(distance))]
  {
    World(Kit(Stopped, w.kit.pulses + [Pulse(Throttles(Speed, Speed), ForwardTime(distance))]), StubPosition)
  }

  /** `turn_angle(angle)`: the spin for the angle's time, then stopped. */
  function Turn(w: World, angle: real): (r: World)
    ensures r.kit.throttles == Stopped && r.pos == w.pos
    ensures r.kit.pulses == w.kit.pulses + [Pulse(TurnThrottles(angle), TurnTime(angle))]
  {
    World(Kit(Stopped, w.kit.pulses + [Pulse(TurnThrottles(angle), TurnTime(angle))]), w.pos)
  }

  datatype AdjustEnd = AdjustEnd(world: World, aligned: bool, at: nat)

  /** The heading error of one `adjust_heading` pass that started at
      `start`. */
  function AdjustError(start: Point, targetAngle: real, reading: real): real
  {
    WrapOnce(targetAngle - CalculateAngle(start, StubPosition, reading))
  }

  /** `adjust_heading(target_angle)` for passes `i` up to `passes`: drive 3
      inches, measure the heading, stop when within 5 degrees, else turn by
      the wrapped error. */
  function Adjust(w: World, targetAngle: real, reading: real, passes: nat, i: nat): (r: AdjustEnd)
    requires i <= passes
    ensures i <= r.at <= passes && (r.aligned <==> r.at < passes)
    ensures r.world.kit.throttles == Stopped || (r.at == i && r.world == w)
    ensures r.world.pos == StubPosition || (r.at == i && r.world == w)
    ensures r.aligned ==> r.world.kit.throttles == Stopped && r.world.pos == StubPosition
    decreases passes - i
  {
    if i == passes then AdjustEnd(w, false, i)
    else
      var err := AdjustError(w.pos, targetAngle, reading);
      var moved := Forward(w, 3.0);
      if Abs(err) <= AngleTolerance then AdjustEnd(moved, true, i)
      else Adjust(Turn(moved, err), targetAngle, reading, passes, i + 1)
  }

  /** With the stub, a rover that has a position measures heading 0 on
      every pass: `adjust_heading` ends on its first pass when the target
      bearing is within 5 degrees of 0, and otherwise never ends, adding
      the same 3-inch drive and the same turn on every pass. */
  lemma {:induction false} AdjustStuck(w: World, targetAngle: real, reading: real, passes: nat, i: nat)
    requires i <= passes && w.pos == StubPosition
    ensures var r := Adjust(w, targetAngle, reading, passes, i);
      var err := WrapOnce(targetAngle);
      (i < passes && Abs(err) <= AngleTolerance ==> r.aligned && r.at == i)
      && (Abs(err) > AngleTolerance ==>
            !r.aligned && r.at == passes
            && |r.world.kit.pulses| == |w.kit.pulses| + 2 * (passes - i)
            && forall k :: 0 <= k < passes - i ==>
                 r.world.kit.pulses[|w.kit.pulses| + 2 * k] == Pulse(Throttles(Speed, Speed), ForwardTime(3.0))
                 && r.world.kit.pulses[|w.kit.pulses| + 2 * k + 1] == Pulse(TurnThrottles(err), TurnTime(err)))
    decreases passes - i
  {
    var err := WrapOnce(targetAngle);
    if i < passes && Abs(err) > AngleTolerance {
      assert AdjustError(w.pos, targetAngle, reading) == err;
      var w1 := Turn(Forward(w, 3.0), err);
      AdjustStuck(w1, targetAngle, reading, passes, i + 1);
      var r := Adjust(w1, targetAngle, reading, passes, i + 1);
      assert r == Adjust(w, targetAngle, reading, passes, i);
      AdjustPulsePrefix(w1, targetAngle, reading, passes, i + 1);
      forall k | 0 <= k < passes - i
        ensures r.world.kit.pulses[|w.kit.pulses| + 2 * k] == Pulse(Throttles(Speed, Speed), ForwardTime(3.0))
        ensures r.world.kit.pulses[|w.kit.pulses| + 2 * k + 1] == Pulse(TurnThrottles(err), TurnTime(err))
      {
        if k == 0 {
          assert r.world.kit.pulses[|w.kit.pulses|] == w1.kit.pulses[|w.kit.pulses|];
          assert r.world.kit.pulses[|w.kit.pulses| + 1] == w1.kit.pulses[|w.kit.pulses| + 1];
        } else {
          assert |w.kit.pulses| + 2 * k == |w1.kit.pulses| + 2 * (k - 1);
        }
      }
    }
  }

  /** `adjust_heading` only appends to the pulse log. */
  lemma {:induction false} AdjustPulsePrefix(w: World, targetAngle: real, reading: real, passes: nat, i: nat)
    requires i <= passes
    ensures var r := Adjust(w, targetAngle, reading, passes, i);
      |r.world.kit.pulses| >= |w.kit.pulses| && r.world.kit.pulses[..|w.kit.pulses|] == w.kit.pulses
    decreases passes - i
  {
    if i < passes {
      var err := AdjustError(w.pos, targetAngle, reading);
      if Abs(err) > AngleTolerance {
        var w1 := Turn(Forward(w, 3.0), err);
        AdjustPulsePrefix(w1, targetAngle, reading, passes, i + 1);
        var r := Adjust(w1, targetAngle, reading, passes, i + 1);
        assert r.world.kit.pulses[..|w.kit.pulses|] == w1.kit.pulses[..|w.kit.pulses|];
      }
    }
  }

  /** Within the position tolerance, `hypot(dx, dy) <= 1`. */
  predicate Arrived(pos: Point, target: Point)
  {
    DistSq(target.x - pos.x, target.y - pos.y) <= PositionTolerance * PositionTolerance
  }

  datatype MoveEnd = MoveEnd(world: World, arrived: bool, at: nat)

  /** The loop of `move_to_target(target)` from pass `i` on; `bearings[j]`
      is the `atan2` bearing to the target on pass `j`. After each 2-inch
      drive the measured heading is `calculate_angle` of the displacement,
      and the steering throttles are held for 0.1 s. The motors are
      stopped on arrival. */
  function Move(w: World, target: Point, bearings: seq<real>, reading: real, i: nat): (r: MoveEnd)
    requires i <= |bearings|
    ensures i <= r.at <= |bearings| && (r.arrived <==> r.at < |bearings|)
    ensures r.arrived ==> r.world.kit.throttles == Stopped && Arrived(StubPosition, target)
    ensures r.at > i ==> !Arrived(StubPosition, target)
    decreases |bearings| - i
  {
    if i == |bearings| then MoveEnd(w, false, i)
    else
      var here := w.(pos := StubPosition);
      if Arrived(here.pos, target) then MoveEnd(here.(kit := here.kit.(throttles := Stopped)), true, i)
      else
        var moved := Forward(here, 2.0);
        var err := WrapOnce(bearings[i] - CalculateAngle(here.pos, moved.pos, reading));
        var t := SteerThrottles(err);
        Move(moved.(kit := Kit(t, moved.kit.pulses + [Pulse(t, StepTime)])), target, bearings, reading, i + 1)
  }

  /** With the stub, each pass measures heading 0 and so steers by the
      bearing alone, whatever the rover's real heading. */
  lemma MovePassSteersByBearing(w: World, target: Point, bearings: seq<real>, reading: real, i: nat)
    requires i < |bearings| && !Arrived(StubPosition, target)
    ensures var moved := Forward(w.(pos := StubPosition), 2.0);
      var t := SteerThrottles(WrapOnce(bearings[i]));
      Move(w, target, bearings, reading, i)
        == Move(moved.(kit := Kit(t, moved.kit.pulses + [Pulse(t, StepTime)])), target, bearings, reading, i + 1)
  {
  }

  /** No waypoint is within an inch of the stub position, so
      `move_to_target` never arrives, however many passes it makes. */
  lemma NoTargetReachable(w: World, bearings: seq<real>, reading: real, t: nat)
    requires t < |Targets|
    ensures !Arrived(StubPosition, Targets[t])
    ensures !Move(w, Targets[t], bearings, reading, 0).arrived
  {
    assert StubPosition == Point(47.0, 71.5);
  }

  /** What `main` receives per target: the `atan2` bearing from the current
      position to the target, the passes `adjust_heading` makes, and the
      bearings `move_to_target` reads. */
  datatype Leg = Leg(targetAngle: real, passes: nat, bearings: seq<real>)

  /** `main` from target `t` on, stopping where a loop has not ended; the
      result's number is how many targets were reached. */
  function Mission(w: World, legs: seq<Leg>, reading: real, t: nat): (r: (World, nat))
    requires t <= |Targets| == |legs|
    ensures t <= r.1 <= |Targets|
    decreases |Targets| - t
  {
    if t == |Targets| then (w, t)
    else
      var adjusted := Adjust(w, legs[t].targetAngle, reading, legs[t].passes, 0);
      if !adjusted.aligned then (adjusted.world, t)
      else
        var moved := Move(adjusted.world, Targets[t], legs[t].bearings, reading, 0);
        if !moved.arrived then (moved.world, t) else Mission(moved.world, legs, reading, t + 1)
  }

  /** With the stub, `main` reaches no target at all. */
  lemma MissionReachesNothing(kit: Kit, legs: seq<Leg>, reading: real)
    requires |legs| == |Targets|
    ensures Mission(World(kit, StubPosition), legs, reading, 0).1 == 0
  {
    var w := World(kit, StubPosition);
    var adjusted := Adjust(w, legs[0].targetAngle, reading, legs[0].passes, 0);
    if adjusted.aligned {
      NoTargetReachable(adjusted.world, legs[0].bearings, reading, 0);
    }
  }

  class Rover {
    const kit: MotorKit
    var currentPos: Point

    constructor(kit: MotorKit)
      ensures this.kit == kit && currentPos == Point(0.0, 0.0)
    {
      this.kit := kit;
      currentPos := Point(0.0, 0.0);
    }

    function Snapshot(): World
      reads this, kit
    {
      World(kit.Snapshot(), currentPos)
    }

    /** `update_position()`. */
    method UpdatePosition()
      modifies this`currentPos
      ensures currentPos == StubPosition
    {
      var scaleX := MapWidthInches / (TopRightPixel.x - TopLeftPixel.x);
      var scaleY := MapHeightInches / (BottomLeftPixel.y - TopLeftPixel.y);
      var pixel := StubPixel;
      currentPos := Point((pixel.x - TopLeftPixel.x) * scaleX, (pixel.y - TopLeftPixel.y) * scaleY);
    }

    /** `move_forward(distance)`. */
    method MoveForward(distance: real)
      modifies kit, this`currentPos
      ensures Snapshot() == Forward(old(Snapshot()), distance)
    {
      var timeToMove := (distance / 12.0) * TimePerFoot;
      kit.Set(Throttles(Speed, Speed));
      kit.Sleep(timeToMove);
      kit.Stop();
      UpdatePosition();
    }

    /** `turn_angle(angle)`. */
    method TurnAngle(angle: real)
      modifies kit
      ensures Snapshot() == Turn(old(Snapshot()), angle)
    {
      var turnTime := Abs(angle) / DegreesPerSecond;
      if angle > 0.0 {
        kit.Set(Throttles(Speed, -Speed));
      } else {
        kit.Set(Throttles(-Speed, Speed));
      }
      kit.Sleep(turnTime);
      kit.Stop();
    }

    /** `adjust_heading(target_angle)` for at most `passes` passes. */
    method AdjustHeading(targetAngle: real, reading: real, passes: nat) returns (aligned: bool, at: nat)
      modifies kit, this`currentPos
      ensures var r := Adjust(old(Snapshot()), targetAngle, reading, passes, 0);
        Snapshot() == r.world && aligned == r.aligned && at == r.at
    {
      ghost var goal := Adjust(Snapshot(), targetAngle, reading, passes, 0);
      var i := 0;
      while i < passes
        invariant i <= passes && Adjust(Snapshot(), targetAngle, reading, passes, i) == goal
        decreases passes - i
      {
        var startPos := currentPos;
        MoveForward(3.0);
        var currentAngle := CalculateAngle(startPos, currentPos, reading);
        var angleError := WrapOnce(targetAngle - currentAngle);
        if Abs(angleError) <= AngleTolerance {
          return true, i;
        }
        TurnAngle(angleError);
        i := i + 1;
      }
      return false, i;
    }

    /** One pass of `move_to_target` that has not arrived. */
    method SteerPass(bearing: real, reading: real)
      requires currentPos == StubPosition
      modifies kit, this`currentPos
      ensures var moved := Forward(old(Snapshot()), 2.0);
        var t := SteerThrottles(WrapOnce(bearing - CalculateAngle(old(currentPos), moved.pos, reading)));
        Snapshot() == moved.(kit := Kit(t, moved.kit.pulses + [Pulse(t, StepTime)]))
    {
      var desiredAngle := bearing;
      var prevPos := currentPos;
      MoveForward(2.0);
      var currentAngle := CalculateAngle(prevPos, currentPos, reading);
      var angleError := WrapOnce(desiredAngle - currentAngle);
      var steering := KpSteering * angleError;
      steering := Max(-1.0, Min(1.0, steering));
      kit.Set(Throttles(Speed + steering, Speed - steering));
      kit.Sleep(StepTime);
    }

    /** `move_to_target(target)` over the bearings of its passes. */
    method MoveToTarget(target: Point, bearings: seq<real>, reading: real) returns (arrived: bool, at: nat)
      modifies kit, this`currentPos
      ensures var r := Move(old(Snapshot()), target, bearings, reading, 0);
        Snapshot() == r.world && arrived == r.arrived && at == r.at
    {
      ghost var goal := Move(Snapshot(), target, bearings, reading, 0);
      var i := 0;
      while i < |bearings|
        invariant i <= |bearings| && Move(Snapshot(), target, bearings, reading, i) == goal
        decreases |bearings| - i
      {
        UpdatePosition();
        var dx := target.x - currentPos.x;
        var dy := target.y - currentPos.y;
        if DistSq(dx, dy) <= PositionTolerance * PositionTolerance {
          kit.Stop();
          return true, i;
        }
        SteerPass(bearings[i], reading);
        i := i + 1;
      }
      return false, i;
    }

    /** `main()`: take a position, then each target in turn. */
    method RunMain(legs: seq<Leg>, reading: real) returns (reached: nat)
      requires |legs| == |Targets|
      modifies kit, this`currentPos
      ensures (Snapshot(), reached) == Mission(old(Snapshot()).(pos := StubPosition), legs, reading, 0)
    {
      UpdatePosition();
      ghost var goal := Mission(Snapshot(), legs, reading, 0);
      var t := 0;
      while t < |Targets|
        invariant t <= |Targets| && Mission(Snapshot(), legs, reading, t) == goal
        decreases |Targets| - t
      {
        var targetAngle := legs[t].targetAngle;
        var aligned, _ := AdjustHeading(targetAngle, reading, legs[t].passes);
        if !aligned {
          return t;
        }
        var arrived, _ := MoveToTarget(Targets[t], legs[t].bearings, reading);
        if !arrived {
          return t;
        }
        t := t + 1;
      }
      return t;
    }
  }
}
