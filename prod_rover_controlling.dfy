/** Production/Prod_Rover_Controlling_Code.py: `motor_control` reads one
    key per pass with curses and drives the motors by the arrow keys: a
    turn only starts from rest, forward and backward always apply, any
    other key (or none) stops, and `q` ends the loop. The keys `getch`
    returns enter as a sequence (-1 for no key). */
module ProdRoverControlling {
  import opened Motors

  /** The curses key codes of the arrow keys, and `ord('q')`. */
  const KeyDown := 258
  const KeyUp := 259
  const KeyLeft := 260
  const KeyRight := 261
  const QuitKey := 'q' as int

  const TurnSpeed := 0.75
  const HoldTime := 0.15
  const UpdateRate := 0.05

  /** `previous_action`: 'stop', 'right', 'left', 'backward' or 'forward'. */
  datatype Action = Stop | Right | Left | Backward | Forward

  /** The loop's globals (`motor1_speed`, `motor2_speed`, only displayed)
      and the kit. */
  datatype State = State(kit: Kit, motor1Speed: real, motor2Speed: real, previous: Action)

  /** The throttles each action leaves on the motors. */
  function ThrottlesOf(a: Action): Throttles
  {
    match a
    case Stop => Stopped
    case Right => Throttles(TurnSpeed, -TurnSpeed)
    case Left => Throttles(-TurnSpeed, TurnSpeed)
    case Backward => Throttles(-1.0, -1.0)
    case Forward => Throttles(1.0, 1.0)
  }

  /** The speeds each action leaves on the display. */
  function SpeedsOf(a: Action): (real, real)
  {
    if a == Right then (TurnSpeed, TurnSpeed) else (0.0, 0.0)
  }

  /** Start action `a`: write its throttles, hold them 0.15 s. */
  function Apply(s: State, a: Action): State
  {
    var t := ThrottlesOf(a);
    State(Kit(t, s.kit.pulses + [Pulse(t, HoldTime)]), SpeedsOf(a).0, SpeedsOf(a).1, a)
  }

  /** Lines 34-73 of one pass, for the key `getch` returned. */
  function Press(s: State, key: int): (r: State)
    ensures key == KeyRight && s.previous == Stop ==>
      r.kit.throttles == Throttles(0.75, -0.75) && r.previous == Right
    ensures key == KeyLeft && s.previous == Stop ==>
      r.kit.throttles == Throttles(-0.75, 0.75) && r.previous == Left
    ensures (key == KeyRight || key == KeyLeft) && s.previous != Stop ==> r == s
    ensures key == KeyDown ==> r.kit.throttles == Throttles(-1.0, -1.0) && r.previous == Backward
    ensures key == KeyUp ==> r.kit.throttles == Throttles(1.0, 1.0) && r.previous == Forward
    ensures key !in {KeyRight, KeyLeft, KeyDown, KeyUp} ==>
      r.kit.throttles == Stopped && r.previous == Stop && r.motor1Speed == 0.0 && r.motor2Speed == 0.0
      && r.kit.pulses == s.kit.pulses
  {
    if key == KeyRight then (if s.previous == Stop then Apply(s, Right) else s)
    else if key == KeyLeft then (if s.previous == Stop then Apply(s, Left) else s)
    else if key == KeyDown then Apply(s, Backward)
    else if key == KeyUp then Apply(s, Forward)
    else State(Kit(Stopped, s.kit.pulses), 0.0, 0.0, Stop)
  }

  /** The throttles and the displayed speeds are always those of
      `previous_action`. */
  predicate Consistent(s: State)
  {
    s.kit.throttles == ThrottlesOf(s.previous) && (s.motor1Speed, s.motor2Speed) == SpeedsOf(s.previous)
  }

  /** Every key keeps the throttles in step with `previous_action`. */
  lemma PressConsistent(s: State, key: int)
    requires Consistent(s)
    ensures Consistent(Press(s, key))
    ensures Press(s, key).previous != Stop <==> Press(s, key).kit.throttles != Stopped
  {
  }

  datatype RunEnd = RunEnd(state: State, quit: bool, at: nat)

  /** The loop of `motor_control` from pass `i` on: `q` (after the stop
      branch) ends it with both motors stopped; any other pass sleeps
      `UPDATE_RATE`. */
  function Run(s: State, keys: seq<int>, i: nat): (r: RunEnd)
    requires i <= |keys|
    ensures i <= r.at <= |keys| && (r.quit <==> r.at < |keys|)
    ensures r.quit ==> keys[r.at] == QuitKey && r.state.kit.throttles == Stopped && r.state.previous == Stop
    ensures forall j :: i <= j < r.at ==> keys[j] != QuitKey
    decreases |keys| - i
  {
    if i == |keys| then RunEnd(s, false, i)
    else
      var next := Press(s, keys[i]);
      if keys[i] == QuitKey then RunEnd(next, true, i)
      else Run(next.(kit := next.kit.(pulses := next.kit.pulses + [Pulse(next.kit.throttles, UpdateRate)])), keys, i + 1)
  }

  /** From a consistent state the loop stays consistent: the motors are
      still exactly when `previous_action` is 'stop'. */
  lemma {:induction false} RunConsistent(s: State, keys: seq<int>, i: nat)
    requires i <= |keys| && Consistent(s)
    ensures Consistent(Run(s, keys, i).state)
    decreases |keys| - i
  {
    if i < |keys| {
      PressConsistent(s, keys[i]);
      var next := Press(s, keys[i]);
      if keys[i] != QuitKey {
        RunConsistent(next.(kit := next.kit.(pulses := next.kit.pulses + [Pulse(next.kit.throttles, UpdateRate)])), keys, i + 1);
      }
    }
  }

  /** Holding a turn key does not restart the turn: once turning right, a
      second RIGHT changes nothing, and only a pass with another key (or
      none) returns to 'stop'. */
  lemma RepeatedTurnIgnored(s: State)
    requires s.previous == Stop
    ensures Press(Press(s, KeyRight), KeyRight) == Press(s, KeyRight)
    ensures Press(Press(Press(s, KeyRight), -1), KeyRight).previous == Right
  {
  }

  class Controller {
    const kit: MotorKit
    var motor1Speed: real
    var motor2Speed: real
    var previousAction: Action

    constructor(kit: MotorKit)
      ensures this.kit == kit && motor1Speed == 0.0 && motor2Speed == 0.0 && previousAction == Stop
    {
      this.kit := kit;
      motor1Speed, motor2Speed, previousAction := 0.0, 0.0, Stop;
    }

    function Snapshot(): State
      reads this, kit
    {
      State(kit.Snapshot(), motor1Speed, motor2Speed, previousAction)
    }

    /** Lines 34-73 for one key. */
    method HandleKey(key: int)
      modifies this, kit
      ensures Snapshot() == Press(old(Snapshot()), key)
    {
      if key == KeyRight {
        if previousAction == Stop {
          kit.Set(Throttles(0.75, -0.75));
          kit.Sleep(0.15);
          motor1Speed, motor2Speed := 0.75, 0.75;
          previousAction := Right;
        }
      } else if key == KeyLeft {
        if previousAction == Stop {
          kit.Set(Throttles(-0.75, 0.75));
          kit.Sleep(0.15);
          motor1Speed, motor2Speed := -0.0, -0.0;
          previousAction := Left;
        }
      } else if key == KeyDown {
        kit.Set(Throttles(-1.0, -1.0));
        kit.Sleep(0.15);
        motor1Speed, motor2Speed := 0.0, 0.0;
        previousAction := Backward;
      } else if key == KeyUp {
        kit.Set(Throttles(1.0, 1.0));
        kit.Sleep(0.15);
        motor1Speed, motor2Speed := 0.0, 0.0;
        previousAction := Forward;
      } else {
        kit.Stop();
        motor1Speed, motor2Speed := 0.0, 0.0;
        previousAction := Stop;
      }
    }

    /** `motor_control` over the keys of its passes. */
    method MotorControl(keys: seq<int>) returns (quit: bool, at: nat)
      modifies this, kit
      ensures var r := Run(old(Snapshot()), keys, 0);
        Snapshot() == r.state && quit == r.quit && at == r.at
    {
      ghost var goal := Run(Snapshot(), keys, 0);
      var i := 0;
      while i < |keys|
        invariant i <= |keys| && Run(Snapshot(), keys, i) == goal
        decreases |keys| - i
      {
        var key := keys[i];
        HandleKey(key);
        if key == QuitKey {
          kit.Stop();
          return true, i;
        }
        kit.Sleep(UpdateRate);
        i := i + 1;
      }
      return false, i;
    }
  }
}
