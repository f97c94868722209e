/** Rover_Controlling_Code.py: arrow keys drive the two motors, each of
    whose speed ramps towards its key's target, up by
    `ACCELERATION_STEP` and down by `DECELERATION_STEP` per pass, until
    `esc` ends the loop and stops both motors. The keys `keyboard` reports
    on each pass enter as a sequence. */
module RoverControlling {
  import opened RoverMath
  import opened Motors

  const MaxSpeed := 1.0
  const AccelerationStep := 0.01
  const DecelerationStep := 0.05
  const UpdateRate := 0.01

  /** The keys `keyboard.is_pressed` reports as held on one pass. */
  datatype Keys = Keys(up: bool, down: bool, left: bool, right: bool, esc: bool)

  /** The target of one motor: full speed for its positive key, full
      reverse for its negative key, the positive key winning, else 0. */
  function TargetSpeed(positive: bool, negative: bool): (r: real)
    ensures r == MaxSpeed || r == -MaxSpeed || r == 0.0
    ensures r > 0.0 <==> positive
    ensures r < 0.0 <==> !positive && negative
  {
    if positive then MaxSpeed else if negative then -MaxSpeed else 0.0
  }

  /** One ramp step of a motor's speed towards its target. */
  function Ramp(speed: real, target: real): (r: real)
    ensures speed < target ==> speed < r <= target && r - speed <= AccelerationStep
    ensures speed > target ==> target <= r < speed && speed - r <= DecelerationStep
    ensures speed == target ==> r == speed
  {
    if speed < target then Min(speed + AccelerationStep, target)
    else if speed > target then Max(speed - DecelerationStep, target)
    else speed
  }

  /** `round(x, 3)` on an exact value: the nearest multiple of 0.001, ties
      to the even multiple. */
  function Round3(x: real): (r: real)
    ensures Abs(r - x) <= 0.0005
  {
    var scaled := x * 1000.0;
    var n := scaled.Floor;
    var frac := scaled - n as real;
    var k := if frac < 0.5 then n else if frac > 0.5 then n + 1 else if n % 2 == 0 then n else n + 1;
    k as real / 1000.0
  }

  /** A speed on the grid of hundredths, where every speed of the loop
      lies. */
  predicate OnGrid(x: real) { IsInteger(x * 100.0) }

  /** Rounding to three places leaves a speed on the grid as it is. */
  lemma Round3OnGrid(x: real)
    requires OnGrid(x)
    ensures Round3(x) == x
  {
    var m := (x * 100.0).Floor;
    assert x * 1000.0 == (10 * m) as real;
    assert (x * 1000.0).Floor == 10 * m;
  }

  /** A speed the loop can hold: on the grid and within full speed. */
  predicate Valid(x: real) { OnGrid(x) && -MaxSpeed <= x <= MaxSpeed }

  /** Ramping a valid speed towards a valid target gives a valid speed. */
  lemma RampValid(speed: real, target: real)
    requires Valid(speed) && Valid(target)
    ensures Valid(Ramp(speed, target))
  {
    IntegerOf(1);
    IntegerOf(-5);
    assert (speed + AccelerationStep) * 100.0 == speed * 100.0 + 1.0;
    assert (speed - DecelerationStep) * 100.0 == speed * 100.0 + -5.0;
    IntegerSum(speed * 100.0, 1.0);
    IntegerSum(speed * 100.0, -5.0);
  }

  lemma TargetValid(positive: bool, negative: bool)
    ensures Valid(TargetSpeed(positive, negative))
  {
    IntegerOf(100);
    IntegerOf(-100);
    IntegerOf(0);
  }

  datatype Speeds = Speeds(motor1: real, motor2: real)

  /** Lines 22-50 of one pass: both targets, both ramps, both roundings. */
  function Step(s: Speeds, keys: Keys): Speeds
  {
    Speeds(Round3(Ramp(s.motor1, TargetSpeed(keys.up, keys.down))),
           Round3(Ramp(s.motor2, TargetSpeed(keys.left, keys.right))))
  }

  predicate ValidSpeeds(s: Speeds) { Valid(s.motor1) && Valid(s.motor2) }

  /** From valid speeds, a pass is exactly the two ramps (the rounding
      changes nothing) and the speeds stay valid. */
  lemma StepValid(s: Speeds, keys: Keys)
    requires ValidSpeeds(s)
    ensures Step(s, keys) == Speeds(Ramp(s.motor1, TargetSpeed(keys.up, keys.down)),
                                    Ramp(s.motor2, TargetSpeed(keys.left, keys.right)))
    ensures ValidSpeeds(Step(s, keys))
  {
    TargetValid(keys.up, keys.down);
    TargetValid(keys.left, keys.right);
    RampValid(s.motor1, TargetSpeed(keys.up, keys.down));
    RampValid(s.motor2, TargetSpeed(keys.left, keys.right));
    Round3OnGrid(Ramp(s.motor1, TargetSpeed(keys.up, keys.down)));
    Round3OnGrid(Ramp(s.motor2, TargetSpeed(keys.left, keys.right)));
  }

  function ThrottlesOf(s: Speeds): Throttles { Throttles(s.motor1, s.motor2) }

  datatype World = World(kit: Kit, speeds: Speeds)

  datatype RunEnd = RunEnd(world: World, exited: bool, at: nat)

  /** The loop from pass `i` on: each pass steps the speeds and writes them
      to the motors; `esc` ends it with both motors stopped, any other
      pass sleeps `UPDATE_RATE`. */
  function Run(w: World, passes: seq<Keys>, i: nat): (r: RunEnd)
    requires i <= |passes|
    ensures i <= r.at <= |passes| && (r.exited <==> r.at < |passes|)
    ensures r.exited ==> passes[r.at].esc && r.world.kit.throttles == Stopped
    ensures forall j :: i <= j < r.at ==> !passes[j].esc
    decreases |passes| - i
  {
    if i == |passes| then RunEnd(w, false, i)
    else
      var speeds := Step(w.speeds, passes[i]);
      if passes[i].esc then RunEnd(World(Kit(Stopped, w.kit.pulses), speeds), true, i)
      else
        var t := ThrottlesOf(speeds);
        Run(World(Kit(t, w.kit.pulses + [Pulse(t, UpdateRate)]), speeds), passes, i + 1)
  }

  /** Speeds that start valid stay valid, so every throttle the loop holds
      is within full speed. */
  lemma {:induction false} RunValid(w: World, passes: seq<Keys>, i: nat)
    requires i <= |passes| && ValidSpeeds(w.speeds)
    requires forall k :: 0 <= k < |w.kit.pulses| ==>
      -MaxSpeed <= w.kit.pulses[k].throttles.motor1 <= MaxSpeed && -MaxSpeed <= w.kit.pulses[k].throttles.motor2 <= MaxSpeed
    ensures var r := Run(w, passes, i);
      ValidSpeeds(r.world.speeds)
      && forall k :: 0 <= k < |r.world.kit.pulses| ==>
           -MaxSpeed <= r.world.kit.pulses[k].throttles.motor1 <= MaxSpeed
           && -MaxSpeed <= r.world.kit.pulses[k].throttles.motor2 <= MaxSpeed
    decreases |passes| - i
  {
    if i < |passes| {
      StepValid(w.speeds, passes[i]);
      if !passes[i].esc {
        var speeds := Step(w.speeds, passes[i]);
        var t := ThrottlesOf(speeds);
        RunValid(World(Kit(t, w.kit.pulses + [Pulse(t, UpdateRate)]), speeds), passes, i + 1);
      }
    }
  }

  class Controller {
    const kit: MotorKit
    var motor1Speed: real
    var motor2Speed: real

    constructor(kit: MotorKit)
      ensures this.kit == kit && motor1Speed == 0.0 && motor2Speed == 0.0
    {
      this.kit := kit;
      motor1Speed, motor2Speed := 0.0, 0.0;
    }

    function Snapshot(): World
      reads this, kit
    {
      World(kit.Snapshot(), Speeds(motor1Speed, motor2Speed))
    }

    /** Lines 22-54 of one pass: the new speeds, written to the motors. */
    method Adjust(keys: Keys)
      modifies this, kit`motor1, kit`motor2
      ensures Speeds(motor1Speed, motor2Speed) == Step(old(Speeds(motor1Speed, motor2Speed)), keys)
      ensures kit.Current() == ThrottlesOf(Speeds(motor1Speed, motor2Speed)) && kit.pulses == old(kit.pulses)
    {
      var targetSpeedM1 := TargetSpeed(keys.up, keys.down);
      var targetSpeedM2 := TargetSpeed(keys.left, keys.right);
      motor1Speed := Round3(Ramp(motor1Speed, targetSpeedM1));
      motor2Speed := Round3(Ramp(motor2Speed, targetSpeedM2));
      kit.Set(Throttles(motor1Speed, motor2Speed));
    }

    /** The script's loop over the keys of its passes. */
    method Control(passes: seq<Keys>) returns (exited: bool, at: nat)
      modifies this, kit
      ensures var r := Run(old(Snapshot()), passes, 0);
        Snapshot() == r.world && exited == r.exited && at == r.at
    {
      ghost var goal := Run(Snapshot(), passes, 0);
      var i := 0;
      while i < |passes|
        invariant i <= |passes| && Run(Snapshot(), passes, i) == goal
        decreases |passes| - i
      {
        Adjust(passes[i]);
        if passes[i].esc {
          kit.Stop();
          return true, i;
        }
        kit.Sleep(UpdateRate);
        i := i + 1;
      }
      return false, i;
    }
  }
}
