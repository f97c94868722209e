/** The Adafruit MotorKit as the scripts use it: two DC motor channels, each
    with a `throttle` the scripts assign, and the `time.sleep` calls during
    which the rover holds whatever throttles were last written. */
module Motors {

  /** A pair of throttle values, `kit.motor1.throttle` and `kit.motor2.throttle`. */
  datatype Throttles = Throttles(motor1: real, motor2: real)

  const Stopped := Throttles(0.0, 0.0)

  /** One `time.sleep(seconds)` while the kit held `throttles`. */
  datatype Pulse = Pulse(throttles: Throttles, seconds: real)

  /** The throttles and the sleep log of a kit, as one value. */
  datatype Kit = Kit(throttles: Throttles, pulses: seq<Pulse>)

  /** Both wheels turn the same way at the same throttle. */
  predicate Straight(t: Throttles) { t.motor1 == t.motor2 }

  /** The wheels turn opposite ways at the same throttle: a turn in place. */
  predicate Spin(t: Throttles) { t.motor2 == -t.motor1 && t.motor1 != 0.0 }

  class MotorKit {
    var motor1: real
    var motor2: real
    /** Every sleep taken while the kit was driven, oldest first. */
    var pulses: seq<Pulse>

    constructor()
      ensures Current() == Stopped && pulses == []
    {
      motor1, motor2, pulses := 0.0, 0.0, [];
    }

    function Current(): Throttles
      reads this
    {
      Throttles(motor1, motor2)
    }

    function Snapshot(): Kit
      reads this
    {
      Kit(Current(), pulses)
    }

    /** Writes both throttles, motor 1 first. */
    method Set(t: Throttles)
      modifies this`motor1, this`motor2
      ensures Current() == t
    {
      motor1 := t.motor1;
      motor2 := t.motor2;
    }

    /** `kit.motor1.throttle = 0; kit.motor2.throttle = 0`. */
    method Stop()
      modifies this`motor1, this`motor2
      ensures Current() == Stopped
    {
      Set(Stopped);
    }

    /** `time.sleep(seconds)`: the throttles stay as they are for that long. */
    method Sleep(seconds: real)
      modifies this`pulses
      ensures pulses == old(pulses) + [Pulse(Current(), seconds)]
    {
      pulses := pulses + [Pulse(Current(), seconds)];
    }
  }
}
