/** Autonomous/finalPiSky.py: the camera server that smooths the two marker
    detections, drops the head waypoint once the markers' midpoint is within
    20 pixels of it, and answers `/action` with a drive command.

    The dominant-pixel search is outside the model: each frame enters as
    whether the capture succeeded and the two detections. `atan2` in degrees
    enters as a parameter, and `math.sqrt` of an integer squared distance is
    compared through the squared distance, which is exact. */
module FinalPiSky {
  import opened RoverMath
  import opened Markers

  const PixelTolerance := 20
  const AngleTolerance := 10.0
  const LengthTolerance := 20.0

  /** The waypoints the server starts with, in pixel coordinates. */
  const InitialTargets: seq<Pixel> := [
    Pixel(249, 252), Pixel(267, 375), Pixel(266, 494), Pixel(322, 571), Pixel(443, 580),
    Pixel(573, 599), Pixel(698, 595), Pixel(803, 589), Pixel(818, 535), Pixel(818, 446),
    Pixel(814, 371), Pixel(775, 333), Pixel(682, 323), Pixel(573, 312), Pixel(485, 313),
    Pixel(414, 325), Pixel(409, 424), Pixel(457, 494)]

  /** `get_absolute_angle`, given the `atan2` result in degrees: a negative
      angle is moved up by 360, so an `atan2` result lands in [0, 360). */
  function AbsoluteAngle(degrees: real): (r: real)
    ensures -360.0 <= degrees < 360.0 ==> 0.0 <= r < 360.0
    ensures Congruent360(r, degrees)
    ensures degrees >= 0.0 ==> r == degrees
  {
    IntegerOf(0);
    IntegerOf(1);
    if degrees < 0.0 then degrees + 360.0 else degrees
  }

  /** `get_signed_angle_difference`: the plain difference. */
  function SignedAngleDifference(angle1: real, angle2: real): real
  {
    angle1 - angle2
  }

  /** Despite its doc-comment, the difference is not wrapped into
      [-180, 180]: two absolute angles 350 and 10 give 340. */
  lemma SignedDifferenceUnwrapped()
    ensures SignedAngleDifference(AbsoluteAngle(-10.0), AbsoluteAngle(10.0)) == 340.0
    ensures SignedAngleDifference(AbsoluteAngle(-10.0), AbsoluteAngle(10.0)) > 180.0
  {
  }

  /** `is_reading_valid`: with no previous reading everything is valid;
      otherwise the length may move by at most 20 pixels and the normalised
      angle by at most 10 degrees. */
  function IsReadingValid(prevLength: Option<real>, prevAngle: Option<real>, newLength: real, newAngle: real): (r: bool)
    ensures prevLength == None || prevAngle == None ==> r
    ensures r && prevLength != None && prevAngle != None ==> Abs(newLength - prevLength.value) <= LengthTolerance
  {
    if prevLength == None || prevAngle == None then true
    else
      var lengthDiff := Abs(newLength - prevLength.value);
      var angleDiff := Abs(NormalizeAngle(newAngle - prevAngle.value));
      lengthDiff <= LengthTolerance && angleDiff <= AngleTolerance
  }

  /** The angle test compares headings modulo 360: a reading that equals the
      previous one up to whole turns is valid, and adding a whole turn to
      the new angle never changes the verdict. */
  lemma ReadingValidUpToWholeTurns(prevLength: real, prevAngle: real, newLength: real, newAngle: real)
    ensures IsReadingValid(Some(prevLength), Some(prevAngle), prevLength, prevAngle + 360.0)
    ensures IsReadingValid(Some(prevLength), Some(prevAngle), newLength, newAngle + 360.0)
        == IsReadingValid(Some(prevLength), Some(prevAngle), newLength, newAngle)
  {
    var d := newAngle - prevAngle;
    IntegerOf(1);
    assert Congruent360(d + 360.0, d);
    NormalizeOfCongruent(d + 360.0, d);
    IntegerOf(1);
    assert Congruent360(360.0, 0.0);
    NormalizeOfCongruent(360.0, 0.0);
    assert NormalizeAngle(0.0) == 0.0 by {
      assert PyMod(180.0, 360.0) == 180.0;
    }
  }

  /** Two angles that agree modulo 360 normalise alike. */
  lemma NormalizeOfCongruent(a: real, b: real)
    requires Congruent360(a, b)
    ensures NormalizeAngle(a) == NormalizeAngle(b)
  {
    var ra, rb := NormalizeAngle(a), NormalizeAngle(b);
    CongruentTransitive(ra, a, b);
    CongruentSymmetric(rb, b);
    CongruentTransitive(ra, b, rb);
    CongruentUnique(ra, rb, -180.0);
  }

  /** Whether the markers' midpoint is within the pixel tolerance of a
      target: `sqrt(dx**2 + dy**2) <= 20` on whole pixels. */
  predicate Within(center: Pixel, target: Pixel)
  {
    PixelDistSq(center, target) <= PixelTolerance * PixelTolerance
  }

  /** The waypoint list `draw_visuals` leaves: the head is dropped when both
      markers are seen and their midpoint is within tolerance of it. */
  function AfterVisit(targets: seq<Pixel>, red: Option<Pixel>, blue: Option<Pixel>): (r: seq<Pixel>)
    ensures r == targets || (|targets| > 0 && r == targets[1..])
    ensures r != targets <==>
      red != None && blue != None && |targets| > 0 && Within(CalculateCenter(red.value, blue.value), targets[0])
  {
    if red != None && blue != None && |targets| > 0
       && Within(CalculateCenter(red.value, blue.value), targets[0])
    then
      assert |targets[1..]| < |targets|;
      targets[1..]
    else targets
  }

  /** Repeated frames drop waypoints one at a time, in order: after any
      number of calls the list is a suffix of the original. */
  lemma {:induction false} VisitsKeepSuffix(targets: seq<Pixel>, frames: seq<(Option<Pixel>, Option<Pixel>)>)
    ensures var r := Visits(targets, frames);
      IsSuffix(r, targets) && |targets| - |r| <= |frames|
    decreases |frames|
  {
    if |frames| > 0 {
      var next := AfterVisit(targets, frames[0].0, frames[0].1);
      VisitsKeepSuffix(next, frames[1..]);
      assert IsSuffix(next, targets);
      SuffixTransitive(Visits(next, frames[1..]), next, targets);
    }
  }

  function Visits(targets: seq<Pixel>, frames: seq<(Option<Pixel>, Option<Pixel>)>): seq<Pixel>
    decreases |frames|
  {
    if |frames| == 0 then targets
    else Visits(AfterVisit(targets, frames[0].0, frames[0].1), frames[1..])
  }

  datatype Action = Forward | Left | Right | Stop

  /** The `/action` reply. `FlipRaises` is the `cv2.error` that `cv2.flip`
      raises on a failed read (Flask's bare HTTP 500, since the read's `ret`
      is tested only after the flip), `MarkersNotDetected` the 400 reply,
      then the `'stop'` reply when no waypoint is left, or a command with
      the angle. */
  datatype ActionReply = FlipRaises | MarkersNotDetected | Command(action: Action, angle: real)

  /** The steering angle `-(anglex - angley)` with `angle2` the absolute
      angle of the fixed reference segment (100,100)-(200,100). */
  function SteeringAngle(bearingDegrees: real, lineDegrees: real): real
  {
    var angle1 := AbsoluteAngle(bearingDegrees);
    var angle2 := AbsoluteAngle(0.0);
    var angle3 := AbsoluteAngle(lineDegrees);
    -(SignedAngleDifference(angle1, angle2) - SignedAngleDifference(angle3, angle2))
  }

  /** The reference angle is 0, so the steering angle is the plain
      difference of the two absolute angles, never normalised. */
  lemma SteeringAngleIsDifference(bearingDegrees: real, lineDegrees: real)
    ensures SteeringAngle(bearingDegrees, lineDegrees)
         == AbsoluteAngle(lineDegrees) - AbsoluteAngle(bearingDegrees)
  {
  }

  /** `get_action`'s decision once a frame was captured, in the order of its
      checks. `bearingDegrees` is `atan2` from the midpoint to the head
      waypoint, `lineDegrees` `atan2` from red to blue. */
  function Decide(red: Option<Pixel>, blue: Option<Pixel>, targets: seq<Pixel>,
                  bearingDegrees: real, lineDegrees: real): (r: ActionReply)
    ensures r == MarkersNotDetected <==> red == None || blue == None
    ensures r != MarkersNotDetected ==> r.Command?
    ensures r.Command? && r.action == Stop <==> red != None && blue != None && |targets| == 0
    ensures r.Command? && |targets| > 0 ==>
      (Within(CalculateCenter(red.value, blue.value), targets[0]) ==> r.action == Forward)
      && (!Within(CalculateCenter(red.value, blue.value), targets[0]) ==>
            var a := SteeringAngle(bearingDegrees, lineDegrees);
            r.action == (if a > AngleTolerance then Left else if a < -AngleTolerance then Right else Forward))
  {
    if red == None || blue == None then MarkersNotDetected
    else if |targets| == 0 then Command(Stop, 0.0)
    else
      var center := CalculateCenter(red.value, blue.value);
      var angle := SteeringAngle(bearingDegrees, lineDegrees);
      if Within(center, targets[0]) then Command(Forward, angle)
      else if angle > AngleTolerance then Command(Left, angle)
      else if angle < -AngleTolerance then Command(Right, angle)
      else Command(Forward, angle)
  }

  /** Because the angle is not wrapped, a rover whose red-to-blue line is
      only two degrees clockwise of the bearing to the waypoint (bearing 1
      degree, line -1 degree) is told to turn left, the long way round. */
  lemma WrapAroundTurnsTheLongWay(red: Pixel, blue: Pixel, target: Pixel)
    requires !Within(CalculateCenter(red, blue), target)
    ensures Decide(Some(red), Some(blue), [target], 1.0, -1.0) == Command(Left, 358.0)
  {
  }

  /** The `/markers` reply: the `cv2.error` that `cv2.flip` raises on a
      failed read, the server error the reply's `center` raises when a
      smoothed marker is missing, or both smoothed positions. Both errors
      reach the client as Flask's bare HTTP 500. */
  datatype MarkersReply = MarkersFlipRaises | MarkerMissing | Positions(red: Pixel, blue: Pixel)

  /** The server's mutable globals: the two smoothed markers and the
      waypoint list. */
  class Server {
    var smoothedRed: Option<Pixel>
    var smoothedBlue: Option<Pixel>
    var targets: seq<Pixel>

    constructor()
      ensures smoothedRed == None && smoothedBlue == None && targets == InitialTargets
    {
      smoothedRed, smoothedBlue, targets := None, None, InitialTargets;
    }

    /** `process_frame`: on a failed capture `cv2.flip(None, 1)` raises
        before anything is assigned, so `ok` is false and nothing changes
        (the `return None, None, None` after the `ret` test is never
        reached); otherwise each marker is smoothed with its new detection. */
    method ProcessFrame(captured: bool, redPixel: Option<Pixel>, bluePixel: Option<Pixel>) returns (ok: bool)
      modifies this`smoothedRed, this`smoothedBlue
      ensures ok == captured
      ensures captured ==> (smoothedRed == Smooth(old(smoothedRed), redPixel)
                            && smoothedBlue == Smooth(old(smoothedBlue), bluePixel))
      ensures !captured ==> smoothedRed == old(smoothedRed) && smoothedBlue == old(smoothedBlue)
    {
      if !captured {
        return false;
      }
      if redPixel != None {
        if smoothedRed == None {
          smoothedRed := redPixel;
        } else {
          smoothedRed := Some(Pixel(Blend(smoothedRed.value.x, redPixel.value.x),
                                    Blend(smoothedRed.value.y, redPixel.value.y)));
        }
      } else {
        smoothedRed := None;
      }
      if bluePixel != None {
        if smoothedBlue == None {
          smoothedBlue := bluePixel;
        } else {
          smoothedBlue := Some(Pixel(Blend(smoothedBlue.value.x, bluePixel.value.x),
                                     Blend(smoothedBlue.value.y, bluePixel.value.y)));
        }
      } else {
        smoothedBlue := None;
      }
      return true;
    }

    /** The waypoint part of `draw_visuals`: pop the head waypoint when the
        markers' midpoint is within tolerance of it. */
    method DrawVisuals()
      modifies this`targets
      ensures targets == AfterVisit(old(targets), smoothedRed, smoothedBlue)
    {
      if smoothedRed != None && smoothedBlue != None {
        var center := CalculateCenter(smoothedRed.value, smoothedBlue.value);
        if |targets| > 0 {
          var targetPoint := targets[0];
          if PixelDistSq(center, targetPoint) <= PixelTolerance * PixelTolerance {
            targets := targets[1..];
          }
        }
      }
    }

    /** The `/markers` route. */
    method GetMarkers(captured: bool, redPixel: Option<Pixel>, bluePixel: Option<Pixel>) returns (reply: MarkersReply)
      modifies this
      ensures !captured ==> (reply == MarkersFlipRaises
        && smoothedRed == old(smoothedRed) && smoothedBlue == old(smoothedBlue) && targets == old(targets))
      ensures captured ==> (smoothedRed == Smooth(old(smoothedRed), redPixel)
        && smoothedBlue == Smooth(old(smoothedBlue), bluePixel)
        && targets == AfterVisit(old(targets), smoothedRed, smoothedBlue)
        && reply == if smoothedRed.Some? && smoothedBlue.Some? then Positions(smoothedRed.value, smoothedBlue.value)
                    else MarkerMissing)
    {
      var ok := ProcessFrame(captured, redPixel, bluePixel);
      if !ok {
        return MarkersFlipRaises;
      }
      DrawVisuals();
      if smoothedRed.None? || smoothedBlue.None? {
        return MarkerMissing;
      }
      return Positions(smoothedRed.value, smoothedBlue.value);
    }

    /** The `/action` route. It smooths the new frame but never touches the
        waypoint list. */
    method GetAction(captured: bool, redPixel: Option<Pixel>, bluePixel: Option<Pixel>,
                     bearingDegrees: real, lineDegrees: real) returns (reply: ActionReply)
      modifies this`smoothedRed, this`smoothedBlue
      ensures !captured ==> (reply == FlipRaises
        && smoothedRed == old(smoothedRed) && smoothedBlue == old(smoothedBlue))
      ensures captured ==> (smoothedRed == Smooth(old(smoothedRed), redPixel)
        && smoothedBlue == Smooth(old(smoothedBlue), bluePixel)
        && reply == Decide(smoothedRed, smoothedBlue, targets, bearingDegrees, lineDegrees))
    {
      var ok := ProcessFrame(captured, redPixel, bluePixel);
      if !ok {
        return FlipRaises;
      }
      if smoothedRed == None || smoothedBlue == None {
        return MarkersNotDetected;
      }
      if |targets| == 0 {
        return Command(Stop, 0.0);
      }
      var center := CalculateCenter(smoothedRed.value, smoothedBlue.value);
      var targetPoint := targets[0];
      var angle1 := AbsoluteAngle(bearingDegrees);
      var angle2 := AbsoluteAngle(0.0);
      var angle3 := AbsoluteAngle(lineDegrees);
      var anglex := SignedAngleDifference(angle1, angle2);
      var angley := SignedAngleDifference(angle3, angle2);
      var angle := -(anglex - angley);
      var action;
      if PixelDistSq(center, targetPoint) <= PixelTolerance * PixelTolerance {
        action := Forward;
      } else if angle > AngleTolerance {
        action := Left;
      } else if angle < -AngleTolerance {
        action := Right;
      } else {
        action := Forward;
      }
      return Command(action, angle);
    }
  }
}
