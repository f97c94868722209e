/** Testing/deepSEEKRover.py: navigation by the two colour markers on the
    rover as the camera server reports them. The heading is the angle of the
    red-to-blue line; a misaligned rover turns in place in 0.1 s steps, an
    aligned one drives forward for 0.1 s with proportional steering, and a
    target counts as reached within 20 pixels of the markers' midpoint.

    Each `get_markers` reply enters as an observation carrying the two
    pixels and the `atan2`/`hypot` values the script derives from them. */
module DeepSeekRover {
  import opened RoverMath
  import opened Motors

  const AngleTolerance := 10.0
  const PositionTolerance := 20.0
  const Speed := 0.75
  const KpSteering := 0.02
  const StepTime := 0.1

  /** `forward(speed)`: both wheels forward. */
  method Forward(kit: MotorKit, speed: real)
    modifies kit`motor1, kit`motor2
    ensures kit.Current() == Throttles(speed, speed)
  {
    kit.Set(Throttles(speed, speed));
  }

  /** `backward(speed)`: both wheels backward. */
  method Backward(kit: MotorKit, speed: real)
    modifies kit`motor1, kit`motor2
    ensures kit.Current() == Throttles(-speed, -speed)
  {
    kit.Set(Throttles(-speed, -speed));
  }

  /** `left(speed)`: right wheel forward, left wheel backward. */
  method Left(kit: MotorKit, speed: real)
    modifies kit`motor1, kit`motor2
    ensures kit.Current() == LeftThrottles(speed)
  {
    kit.Set(Throttles(speed, -speed));
  }

  /** `right(speed)`: right wheel backward, left wheel forward. */
  method Right(kit: MotorKit, speed: real)
    modifies kit`motor1, kit`motor2
    ensures kit.Current() == RightThrottles(speed)
  {
    kit.Set(Throttles(-speed, speed));
  }

  function LeftThrottles(speed: real): Throttles { Throttles(speed, -speed) }

  function RightThrottles(speed: real): Throttles { Throttles(-speed, speed) }

  /** The four drive commands: forward and backward are straight and
      opposite, left and right are spins in place that mirror each other. */
  lemma DriveMapping(speed: real)
    requires speed != 0.0
    ensures Straight(Throttles(speed, speed)) && Straight(Throttles(-speed, -speed))
    ensures Spin(LeftThrottles(speed)) && Spin(RightThrottles(speed))
    ensures RightThrottles(speed) == Throttles(LeftThrottles(speed).motor2, LeftThrottles(speed).motor1)
    ensures LeftThrottles(speed) != RightThrottles(speed)
  {
  }

  /** One `get_markers(target_index)` reply and what the script derives
      from it: the `atan2` angle of the red-to-blue line in degrees, and the
      `hypot` distance and `atan2` bearing from the markers' midpoint to the
      target. */
  datatype Markers = Markers(red: Pixel, blue: Pixel, angle: real, distance: real, bearing: real)

  /** `calculate_center(red, blue)`. */
  function Center(m: Markers): Pixel { CalculateCenter(m.red, m.blue) }

  /** The spin `turn_to_angle` commands for a heading error outside the
      tolerance: left for a positive error, right otherwise, for 0.1 s. */
  function TurnPulse(err: real): Pulse
  {
    Pulse(if err > 0.0 then LeftThrottles(Speed) else RightThrottles(Speed), StepTime)
  }

  datatype TurnEnd = TurnEnd(kit: Kit, aligned: bool, at: nat)

  /** The loop of `turn_to_angle(target_angle, target_index)` from
      observation `i` on. */
  function Turn(k: Kit, targetAngle: real, obs: seq<Markers>, i: nat): (r: TurnEnd)
    requires i <= |obs|
    ensures i <= r.at <= |obs|
    ensures r.aligned <==> r.at < |obs|
    ensures r.aligned ==> r.kit.throttles == Stopped
    ensures |r.kit.pulses| == |k.pulses| + (r.at - i) && r.kit.pulses[..|k.pulses|] == k.pulses
    decreases |obs| - i
  {
    if i == |obs| then TurnEnd(k, false, i)
    else
      var err := NormalizeAngle(targetAngle - obs[i].angle);
      if Abs(err) <= AngleTolerance then TurnEnd(k.(throttles := Stopped), true, i)
      else
        var p := TurnPulse(err);
        Turn(Kit(p.throttles, k.pulses + [p]), targetAngle, obs, i + 1)
  }

  /** What `turn_to_angle` did, observation by observation: a pulse in the
      direction of the error for every observation outside the tolerance,
      and a final observation within it when the turn ends aligned. */
  lemma {:induction false} TurnPulses(k: Kit, targetAngle: real, obs: seq<Markers>, i: nat)
    requires i <= |obs|
    ensures var r := Turn(k, targetAngle, obs, i);
      (r.aligned ==> Abs(NormalizeAngle(targetAngle - obs[r.at].angle)) <= AngleTolerance)
      && forall j :: i <= j < r.at ==>
           Abs(NormalizeAngle(targetAngle - obs[j].angle)) > AngleTolerance
           && r.kit.pulses[|k.pulses| + (j - i)] == TurnPulse(NormalizeAngle(targetAngle - obs[j].angle))
    decreases |obs| - i
  {
    if i < |obs| {
      var err := NormalizeAngle(targetAngle - obs[i].angle);
      if Abs(err) > AngleTolerance {
        var p := TurnPulse(err);
        var k1 := Kit(p.throttles, k.pulses + [p]);
        TurnPulses(k1, targetAngle, obs, i + 1);
        var r := Turn(k1, targetAngle, obs, i + 1);
        assert r.kit.pulses[..|k1.pulses|] == k1.pulses;
        assert r.kit.pulses[|k.pulses|] == k1.pulses[|k.pulses|];
      }
    }
  }

  /** A turn that receives an aligned reading first issues no pulse. */
  lemma TurnAlreadyAligned(k: Kit, targetAngle: real, obs: seq<Markers>)
    requires |obs| > 0 && Abs(NormalizeAngle(targetAngle - obs[0].angle)) <= AngleTolerance
    ensures Turn(k, targetAngle, obs, 0) == TurnEnd(k.(throttles := Stopped), true, 0)
  {
  }

  /** `steering = clamp(KP_STEERING * err, -1, 1)`. */
  function Steering(err: real): real { Clamp(KpSteering * err, -1.0, 1.0) }

  /** The forward step: right wheel `SPEED - steering`, left wheel
      `SPEED + steering`. */
  function SteerThrottles(err: real): Throttles
  {
    Throttles(Speed - Steering(err), Speed + Steering(err))
  }

  /** Within the angle tolerance the steering clamp never binds: the two
      throttles sum to `2 * SPEED`, both stay in [0.55, 0.95], and a positive
      error drives the left wheel faster than the right. */
  lemma SteeringWithinTolerance(err: real)
    requires Abs(err) <= AngleTolerance
    ensures Steering(err) == KpSteering * err
    ensures SteerThrottles(err).motor1 + SteerThrottles(err).motor2 == 2.0 * Speed
    ensures 0.55 <= SteerThrottles(err).motor1 <= 0.95 && 0.55 <= SteerThrottles(err).motor2 <= 0.95
    ensures err > 0.0 <==> SteerThrottles(err).motor2 > SteerThrottles(err).motor1
  {
  }

  /** One pass of the navigation loop: the markers, and the replies the
      nested `turn_to_angle` consumes when the rover is misaligned. */
  datatype NavPass = NavPass(markers: Markers, turn: seq<Markers>)

  datatype NavOutcome = Reached | TurnUnfinished | OutOfFixes

  datatype NavEnd = NavEnd(kit: Kit, outcome: NavOutcome, at: nat)

  /** The inner `while True` of `main` for one target, from pass `i` on. */
  function Navigate(k: Kit, passes: seq<NavPass>, i: nat): (r: NavEnd)
    requires i <= |passes|
    ensures i <= r.at <= |passes|
    ensures r.outcome == OutOfFixes <==> r.at == |passes|
    ensures r.outcome == Reached ==> passes[r.at].markers.distance <= PositionTolerance
    ensures forall j :: i <= j < r.at ==> passes[j].markers.distance > PositionTolerance
    ensures r.outcome != TurnUnfinished && (r.at > i || k.throttles == Stopped) ==> r.kit.throttles == Stopped
    decreases |passes| - i
  {
    if i == |passes| then NavEnd(k, OutOfFixes, i)
    else
      var m := passes[i].markers;
      if m.distance <= PositionTolerance then NavEnd(k, Reached, i)
      else
        var err := NormalizeAngle(m.bearing - m.angle);
        if Abs(err) > AngleTolerance then
          var turned := Turn(k, m.bearing, passes[i].turn, 0);
          if !turned.aligned then NavEnd(turned.kit, TurnUnfinished, i)
          else Navigate(turned.kit, passes, i + 1)
        else
          Navigate(Kit(Stopped, k.pulses + [Pulse(SteerThrottles(err), StepTime)]), passes, i + 1)
  }

  /** One pass short of the target. An aligned pass adds exactly one
      forward pulse with the steering throttles and stops. A misaligned pass
      makes no forward step: it adds only the spin pulses of its
      `turn_to_angle`, and once that turn is aligned the loop re-evaluates
      from the next reply. */
  lemma NavigateStep(k: Kit, passes: seq<NavPass>, i: nat)
    requires i < |passes| && passes[i].markers.distance > PositionTolerance
    ensures var m := passes[i].markers;
      var err := NormalizeAngle(m.bearing - m.angle);
      Abs(err) <= AngleTolerance ==>
        Navigate(k, passes, i) == Navigate(Kit(Stopped, k.pulses + [Pulse(SteerThrottles(err), StepTime)]), passes, i + 1)
    ensures var m := passes[i].markers;
      var err := NormalizeAngle(m.bearing - m.angle);
      var turned := Turn(k, m.bearing, passes[i].turn, 0);
      Abs(err) > AngleTolerance ==>
        turned.kit.pulses[..|k.pulses|] == k.pulses
        && (forall q :: |k.pulses| <= q < |turned.kit.pulses| ==>
              Spin(turned.kit.pulses[q].throttles) && turned.kit.pulses[q].seconds == StepTime)
        && Navigate(k, passes, i) == (if turned.aligned then Navigate(turned.kit, passes, i + 1)
                                      else NavEnd(turned.kit, TurnUnfinished, i))
  {
    var m := passes[i].markers;
    var turned := Turn(k, m.bearing, passes[i].turn, 0);
    TurnPulses(k, m.bearing, passes[i].turn, 0);
    DriveMapping(Speed);
    forall q | |k.pulses| <= q < |turned.kit.pulses|
      ensures Spin(turned.kit.pulses[q].throttles) && turned.kit.pulses[q].seconds == StepTime
    {
      var j := q - |k.pulses|;
      assert turned.kit.pulses[|k.pulses| + (j - 0)] == TurnPulse(NormalizeAngle(m.bearing - passes[i].turn[j].angle));
    }
  }

  /** Reaching a target means the squared pixel distance from the markers'
      midpoint to the target is at most 20 * 20, and every pass before it
      was further away. */
  lemma ReachedWithinTolerance(k: Kit, target: Pixel, passes: seq<NavPass>)
    requires forall j :: 0 <= j < |passes| ==>
      IsHypot(passes[j].markers.distance, (target.x - Center(passes[j].markers).x) as real,
              (target.y - Center(passes[j].markers).y) as real)
    ensures var r := Navigate(k, passes, 0);
      (r.outcome == Reached ==>
         PixelDistSq(target, Center(passes[r.at].markers)) as real <= PositionTolerance * PositionTolerance)
      && forall j :: 0 <= j < r.at ==>
           PixelDistSq(target, Center(passes[j].markers)) as real > PositionTolerance * PositionTolerance
  {
    var r := Navigate(k, passes, 0);
    if r.outcome == Reached {
      var m := passes[r.at].markers;
      PixelHypotCompare(m.distance, target, Center(m), PositionTolerance);
    }
    forall j | 0 <= j < r.at
      ensures PixelDistSq(target, Center(passes[j].markers)) as real > PositionTolerance * PositionTolerance
    {
      var m := passes[j].markers;
      PixelHypotCompare(m.distance, target, Center(m), PositionTolerance);
    }
  }

  /** `main` from target `t` on: every target in turn, then the final
      `stop()`. The result is the kit and the number of targets reached;
      when a target's replies run out before it is reached, the script is
      still navigating and the kit is as that leg left it. */
  function Tour(k: Kit, legs: seq<seq<NavPass>>, t: nat): (r: (Kit, nat))
    requires t <= |legs|
    ensures t <= r.1 <= |legs|
    ensures r.1 == |legs| ==> r.0.throttles == Stopped
    decreases |legs| - t
  {
    if t == |legs| then (k.(throttles := Stopped), t)
    else
      var nav := Navigate(k, legs[t], 0);
      if nav.outcome != Reached then (nav.kit, t)
      else Tour(nav.kit, legs, t + 1)
  }

  /** The kit after the first `u` legs of `main`, each navigated from the
      kit the one before left. */
  function KitAt(k: Kit, legs: seq<seq<NavPass>>, u: nat): Kit
    requires u <= |legs|
  {
    if u == 0 then k else Navigate(KitAt(k, legs, u - 1), legs[u - 1], 0).kit
  }

  /** `main` visits the targets in order: target `u` is navigated from the
      kit target `u - 1` left, every target before the last one navigated
      was reached, and `main` stops where one is not. */
  lemma TourInOrder(k: Kit, legs: seq<seq<NavPass>>)
    ensures var r := Tour(k, legs, 0);
      (forall u :: 0 <= u < r.1 ==> Navigate(KitAt(k, legs, u), legs[u], 0).outcome == Reached)
      && (r.1 < |legs| ==> Navigate(KitAt(k, legs, r.1), legs[r.1], 0).outcome != Reached
                           && r.0 == Navigate(KitAt(k, legs, r.1), legs[r.1], 0).kit)
      && (r.1 == |legs| ==> r.0 == KitAt(k, legs, |legs|).(throttles := Stopped))
  {
    assert KitAt(k, legs, 0) == k;
    TourReachedFrom(k, legs, 0);
    TourStopsFrom(k, legs, 0);
  }

  /** From target `t` on, every target `main` got past was reached. */
  lemma {:induction false} TourReachedFrom(k: Kit, legs: seq<seq<NavPass>>, t: nat)
    requires t <= |legs|
    ensures var r := Tour(KitAt(k, legs, t), legs, t);
      forall u :: t <= u < r.1 ==> Navigate(KitAt(k, legs, u), legs[u], 0).outcome == Reached
    decreases |legs| - t
  {
    var r := Tour(KitAt(k, legs, t), legs, t);
    if t < |legs| {
      var nav := Navigate(KitAt(k, legs, t), legs[t], 0);
      if nav.outcome == Reached {
        assert KitAt(k, legs, t + 1) == nav.kit;
        assert r == Tour(KitAt(k, legs, t + 1), legs, t + 1);
        TourReachedFrom(k, legs, t + 1);
        forall u | t <= u < r.1
          ensures Navigate(KitAt(k, legs, u), legs[u], 0).outcome == Reached
        {
          if u != t {
            assert t + 1 <= u < r.1;
          }
        }
      }
    }
  }

  /** From target `t` on, `main` ends where a target is not reached, with
      the kit that leg left, or after the last target with the motors
      stopped. */
  lemma {:induction false} TourStopsFrom(k: Kit, legs: seq<seq<NavPass>>, t: nat)
    requires t <= |legs|
    ensures var r := Tour(KitAt(k, legs, t), legs, t);
      (r.1 < |legs| ==> (Navigate(KitAt(k, legs, r.1), legs[r.1], 0).outcome != Reached
                         && r.0 == Navigate(KitAt(k, legs, r.1), legs[r.1], 0).kit))
      && (r.1 == |legs| ==> r.0 == KitAt(k, legs, |legs|).(throttles := Stopped))
    decreases |legs| - t
  {
    if t < |legs| {
      var nav := Navigate(KitAt(k, legs, t), legs[t], 0);
      if nav.outcome == Reached {
        assert KitAt(k, legs, t + 1) == nav.kit;
        assert Tour(KitAt(k, legs, t), legs, t) == Tour(KitAt(k, legs, t + 1), legs, t + 1);
        TourStopsFrom(k, legs, t + 1);
      } else {
        assert Tour(KitAt(k, legs, t), legs, t) == (nav.kit, t);
      }
    }
  }

  /** `turn_to_angle(target_angle, target_index)`. */
  method TurnToAngle(kit: MotorKit, targetAngle: real, obs: seq<Markers>) returns (aligned: bool, at: nat)
    modifies kit
    ensures var r := Turn(old(kit.Snapshot()), targetAngle, obs, 0);
      kit.Snapshot() == r.kit && aligned == r.aligned && at == r.at
  {
    var i := 0;
    while i < |obs|
      invariant i <= |obs|
      invariant Turn(kit.Snapshot(), targetAngle, obs, i) == Turn(old(kit.Snapshot()), targetAngle, obs, 0)
      decreases |obs| - i
    {
      var angleError := NormalizeAngle(targetAngle - obs[i].angle);
      if Abs(angleError) <= AngleTolerance {
        kit.Stop();
        return true, i;
      }
      if angleError > 0.0 {
        Left(kit, Speed);
      } else {
        Right(kit, Speed);
      }
      kit.Sleep(StepTime);
      i := i + 1;
    }
    return false, i;
  }

  /** One aligned pass: steer by the error for one step, then stop. */
  method SteerForward(kit: MotorKit, angleError: real)
    modifies kit
    ensures kit.Snapshot() == Kit(Stopped, old(kit.Snapshot()).pulses + [Pulse(SteerThrottles(angleError), StepTime)])
  {
    var steering := KpSteering * angleError;
    steering := Max(-1.0, Min(1.0, steering));
    kit.Set(Throttles(Speed - steering, Speed + steering));
    kit.Sleep(StepTime);
    kit.Stop();
  }

  /** The inner loop of `main` for one target. */
  method NavigateTo(kit: MotorKit, passes: seq<NavPass>) returns (outcome: NavOutcome, at: nat)
    modifies kit
    ensures var r := Navigate(old(kit.Snapshot()), passes, 0);
      kit.Snapshot() == r.kit && outcome == r.outcome && at == r.at
  {
    var i := 0;
    while i < |passes|
      invariant i <= |passes|
      invariant Navigate(kit.Snapshot(), passes, i) == Navigate(old(kit.Snapshot()), passes, 0)
      decreases |passes| - i
    {
      var m := passes[i].markers;
      if m.distance <= PositionTolerance {
        return Reached, i;
      }
      var angleError := NormalizeAngle(m.bearing - m.angle);
      if Abs(angleError) > AngleTolerance {
        var aligned, _ := TurnToAngle(kit, m.bearing, passes[i].turn);
        if !aligned {
          return TurnUnfinished, i;
        }
      } else {
        NavigateStep(kit.Snapshot(), passes, i);
        SteerForward(kit, angleError);
      }
      i := i + 1;
    }
    return OutOfFixes, i;
  }

  /** `main()` over the targets. */
  method RunMain(kit: MotorKit, legs: seq<seq<NavPass>>) returns (reached: nat)
    modifies kit
    ensures (kit.Snapshot(), reached) == Tour(old(kit.Snapshot()), legs, 0)
  {
    var t := 0;
    while t < |legs|
      invariant t <= |legs|
      invariant Tour(kit.Snapshot(), legs, t) == Tour(old(kit.Snapshot()), legs, 0)
      decreases |legs| - t
    {
      var outcome, _ := NavigateTo(kit, legs[t]);
      if outcome != Reached {
        return t;
      }
      t := t + 1;
    }
    kit.Stop();
    return t;
  }
}
