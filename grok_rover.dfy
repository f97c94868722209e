/** Testing/grokRover.py: the rover side of the camera-driven loop. It asks
    the camera server for an action, drives the matching motor command for
    one 0.1 s step, and ends only when the action is `'stop'`. The HTTP retry
    loop of `get_action` is outside the model: each reply's `action` field
    enters as an element of the sequence of replies (`None` when absent). */
module GrokRover {
  import opened RoverMath
  import opened Motors

  const Speed := 0.75
  const StepTime := 0.1

  /** `forward(speed)`: on this rover both throttles negative drive forward. */
  method Forward(kit: MotorKit, speed: real)
    modifies kit`motor1, kit`motor2
    ensures kit.Current() == Throttles(-speed, -speed)
  {
    kit.Set(Throttles(-speed, -speed));
  }

  /** `backward(speed)`: both throttles `+speed`. */
  method Backward(kit: MotorKit, speed: real)
    modifies kit`motor1, kit`motor2
    ensures kit.Current() == Throttles(speed, speed)
  {
    kit.Set(Throttles(speed, speed));
  }

  /** `left(speed)`: full throttle (1, -1) whatever `speed` is. */
  method Left(kit: MotorKit, speed: real)
    modifies kit`motor1, kit`motor2
    ensures kit.Current() == Throttles(1.0, -1.0)
  {
    kit.Set(Throttles(1.0, -1.0));
  }

  /** `right(speed)`: full throttle (-1, 1) whatever `speed` is. */
  method Right(kit: MotorKit, speed: real)
    modifies kit`motor1, kit`motor2
    ensures kit.Current() == Throttles(-1.0, 1.0)
  {
    kit.Set(Throttles(-1.0, 1.0));
  }

  /** The throttles one dispatch of `main` leaves for an action other than
      `'stop'`: the matching motor command, and stopped motors for an
      unknown or missing action. */
  function ThrottlesFor(action: Option<string>): (r: Throttles)
    ensures action == Some("forward") ==> Straight(r) && r.motor1 == -Speed
    ensures action == Some("left") || action == Some("right") ==> Spin(r) && (r.motor1 == 1.0 <==> action == Some("left"))
    ensures action !in {Some("forward"), Some("left"), Some("right")} ==> r == Stopped
  {
    if action == Some("forward") then Throttles(-Speed, -Speed)
    else if action == Some("left") then Throttles(1.0, -1.0)
    else if action == Some("right") then Throttles(-1.0, 1.0)
    else Stopped
  }

  const StopAction: Option<string> := Some("stop")

  /** Where `main` ends: stopped by a `'stop'` reply at index `at`, or out of
      replies. */
  datatype RunEnd = RunEnd(kit: Kit, stopped: bool, at: nat)

  /** `main` from reply `i` on: every reply but `'stop'` sets the throttles
      and sleeps one step; `'stop'` stops the motors and ends the loop. */
  function Run(k: Kit, actions: seq<Option<string>>, i: nat): (r: RunEnd)
    requires i <= |actions|
    ensures i <= r.at <= |actions|
    ensures r.stopped <==> r.at < |actions|
    ensures r.stopped ==> actions[r.at] == StopAction && r.kit.throttles == Stopped
    ensures forall j :: i <= j < r.at ==> actions[j] != StopAction
    ensures |r.kit.pulses| == |k.pulses| + (r.at - i) && r.kit.pulses[..|k.pulses|] == k.pulses
    decreases |actions| - i
  {
    if i == |actions| then RunEnd(k, false, i)
    else if actions[i] == StopAction then RunEnd(k.(throttles := Stopped), true, i)
    else
      var t := ThrottlesFor(actions[i]);
      Run(Kit(t, k.pulses + [Pulse(t, StepTime)]), actions, i + 1)
  }

  /** Each step before the `'stop'` held exactly the throttles of its own
      action for 0.1 s: an unknown action is a stopped step, not the end. */
  lemma {:induction false} RunPulses(k: Kit, actions: seq<Option<string>>, i: nat)
    requires i <= |actions|
    ensures var r := Run(k, actions, i);
      forall j :: i <= j < r.at ==> r.kit.pulses[|k.pulses| + (j - i)] == Pulse(ThrottlesFor(actions[j]), StepTime)
    decreases |actions| - i
  {
    if i < |actions| && actions[i] != StopAction {
      var t := ThrottlesFor(actions[i]);
      var k1 := Kit(t, k.pulses + [Pulse(t, StepTime)]);
      RunPulses(k1, actions, i + 1);
      var r := Run(k1, actions, i + 1);
      assert r.kit.pulses[..|k1.pulses|] == k1.pulses;
      assert r.kit.pulses[|k.pulses|] == k1.pulses[|k.pulses|];
    }
  }

  /** The loop ends at the first `'stop'`, and only there. */
  lemma RunEndsAtFirstStop(k: Kit, actions: seq<Option<string>>, n: nat)
    requires n < |actions| && actions[n] == StopAction
    requires forall j :: 0 <= j < n ==> actions[j] != StopAction
    ensures Run(k, actions, 0).stopped && Run(k, actions, 0).at == n
  {
  }

  /** One dispatch of `main`: `'stop'` stops the motors and tells the loop
      to end; every other action sets its throttles. */
  method Dispatch(kit: MotorKit, action: Option<string>) returns (done: bool)
    modifies kit`motor1, kit`motor2
    ensures done <==> action == StopAction
    ensures kit.Current() == ThrottlesFor(action)
  {
    if action == Some("forward") {
      Forward(kit, Speed);
    } else if action == Some("left") {
      Left(kit, Speed);
    } else if action == Some("right") {
      Right(kit, Speed);
    } else if action == StopAction {
      kit.Stop();
      return true;
    } else {
      kit.Stop();
    }
    return false;
  }

  /** `main()` over the camera server's replies. */
  method RunMain(kit: MotorKit, actions: seq<Option<string>>) returns (stopped: bool, at: nat)
    modifies kit
    ensures var r := Run(old(kit.Snapshot()), actions, 0);
      kit.Snapshot() == r.kit && stopped == r.stopped && at == r.at
  {
    var i := 0;
    while i < |actions|
      invariant i <= |actions|
      invariant Run(kit.Snapshot(), actions, i) == Run(old(kit.Snapshot()), actions, 0)
      decreases |actions| - i
    {
      var done := Dispatch(kit, actions[i]);
      if done {
        return true, i;
      }
      kit.Sleep(StepTime);
      i := i + 1;
    }
    return false, i;
  }
}
