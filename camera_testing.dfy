/** Testing/CameraTestingCode.py: a webcam loop that smooths the red and
    blue marker detections, joins them, and walks a list of waypoints,
    dropping the head waypoint once the markers' midpoint is within
    `PIXEL_TOLERANCE` of it. The frames `cap.read` delivers (with their
    detections) and the `q` key enter as a sequence; drawing, text and the
    angles shown on screen are outside the model. */
module CameraTesting {
  import opened RoverMath
  import opened Markers

  const PixelTolerance := 20

  /** The example waypoints the script starts with. */
  const InitialPoints: seq<Pixel> :=
    [Pixel(233, 84), Pixel(390, 86), Pixel(617, 92), Pixel(563, 290),
     Pixel(438, 392), Pixel(239, 414), Pixel(70, 394), Pixel(56, 313)]

  /** One pass's input: a failed capture, or the two detections of a
      captured frame and whether `q` was pressed once it was shown. */
  datatype Frame = Failed | Captured(red: Option<Pixel>, blue: Option<Pixel>, quit: bool)

  /** The loop's globals `smoothed_red`, `smoothed_blue` and `points`. */
  datatype State = State(red: Option<Pixel>, blue: Option<Pixel>, points: seq<Pixel>)

  /** Lines 152-168: with the midpoint at `center`, the head waypoint is
      dropped when its distance is at most the tolerance. Since the
      squared distance is an integer, `sqrt(d2) <= 20` is `d2 <= 400`. */
  function Waypoints(points: seq<Pixel>, center: Pixel): (r: seq<Pixel>)
    ensures r == points || (|points| > 0 && r == points[1..])
    ensures r != points <==> |points| > 0 && PixelDistSq(center, points[0]) <= PixelTolerance * PixelTolerance
  {
    if |points| > 0 && PixelDistSq(center, points[0]) <= PixelTolerance * PixelTolerance then points[1..]
    else points
  }

  /** Lines 109-168 of one captured frame. */
  function Pass(s: State, red: Option<Pixel>, blue: Option<Pixel>): (r: State)
    ensures r.red == Smooth(s.red, red) && r.blue == Smooth(s.blue, blue)
    ensures r.points == s.points || (|s.points| > 0 && r.points == s.points[1..])
    ensures r.points != s.points <==>
      (red.Some? && blue.Some? && |s.points| > 0
       && PixelDistSq(CalculateCenter(r.red.value, r.blue.value), s.points[0]) <= PixelTolerance * PixelTolerance)
  {
    var smoothedRed := Smooth(s.red, red);
    var smoothedBlue := Smooth(s.blue, blue);
    if smoothedRed.Some? && smoothedBlue.Some? then
      State(smoothedRed, smoothedBlue, Waypoints(s.points, CalculateCenter(smoothedRed.value, smoothedBlue.value)))
    else State(smoothedRed, smoothedBlue, s.points)
  }

  /** How the loop ends: at the frame that broke it, or after all of them. */
  datatype RunEnd = RunEnd(state: State, stopped: bool, at: nat)

  /** The loop from frame `i` on: a failed capture breaks before any
      change; `q` breaks after the frame is processed. */
  function Run(s: State, frames: seq<Frame>, i: nat): (r: RunEnd)
    requires i <= |frames|
    ensures i <= r.at <= |frames| && (r.stopped <==> r.at < |frames|)
    ensures r.stopped ==> frames[r.at].Failed? || frames[r.at].quit
    ensures forall j :: i <= j < r.at ==> frames[j].Captured? && !frames[j].quit
    decreases |frames| - i
  {
    if i == |frames| then RunEnd(s, false, i)
    else if frames[i].Failed? then RunEnd(s, true, i)
    else
      var next := Pass(s, frames[i].red, frames[i].blue);
      if frames[i].quit then RunEnd(next, true, i) else Run(next, frames, i + 1)
  }

  /** The waypoint list never grows: whatever the frames, it ends as a
      suffix of the list it started with, so waypoints are visited in
      order and none is revisited. */
  lemma {:induction false} RunKeepsSuffix(s: State, frames: seq<Frame>, i: nat)
    requires i <= |frames|
    ensures IsSuffix(Run(s, frames, i).state.points, s.points)
    decreases |frames| - i
  {
    if i < |frames| && frames[i].Captured? {
      var next := Pass(s, frames[i].red, frames[i].blue);
      assert IsSuffix(next.points, s.points);
      if !frames[i].quit {
        RunKeepsSuffix(next, frames, i + 1);
        SuffixTransitive(Run(next, frames, i + 1).state.points, next.points, s.points);
      }
    }
  }

  /** A pass in which a marker is missing leaves the waypoints alone and
      forgets that marker's smoothed position. */
  lemma MissingMarkerKeepsWaypoints(s: State, red: Option<Pixel>, blue: Option<Pixel>)
    requires red.None? || blue.None?
    ensures Pass(s, red, blue).points == s.points
    ensures red.None? ==> Pass(s, red, blue).red.None?
    ensures blue.None? ==> Pass(s, red, blue).blue.None?
  {
  }

  class Tracker {
    var smoothedRed: Option<Pixel>
    var smoothedBlue: Option<Pixel>
    var points: seq<Pixel>

    constructor()
      ensures smoothedRed == None && smoothedBlue == None && points == InitialPoints
    {
      smoothedRed, smoothedBlue, points := None, None, InitialPoints;
    }

    function Snapshot(): State
      reads this
    {
      State(smoothedRed, smoothedBlue, points)
    }

    /** Lines 109-168 for one captured frame's detections. */
    method ProcessFrame(redPixel: Option<Pixel>, bluePixel: Option<Pixel>)
      modifies this
      ensures Snapshot() == Pass(old(Snapshot()), redPixel, bluePixel)
    {
      smoothedRed := Smooth(smoothedRed, redPixel);
      smoothedBlue := Smooth(smoothedBlue, bluePixel);
      if smoothedRed.Some? && smoothedBlue.Some? {
        var center := CalculateCenter(smoothedRed.value, smoothedBlue.value);
        if |points| > 0 {
          var target := points[0];
          var distanceSq := (center.x - target.x) * (center.x - target.x) + (center.y - target.y) * (center.y - target.y);
          if distanceSq <= PixelTolerance * PixelTolerance {
            points := points[1..];
          }
        }
      }
    }

    /** The script's main loop over the frames it reads. */
    method MainLoop(frames: seq<Frame>) returns (stopped: bool, at: nat)
      modifies this
      ensures var r := Run(old(Snapshot()), frames, 0);
        Snapshot() == r.state && stopped == r.stopped && at == r.at
    {
      ghost var goal := Run(Snapshot(), frames, 0);
      var i := 0;
      while i < |frames|
        invariant i <= |frames| && Run(Snapshot(), frames, i) == goal
        decreases |frames| - i
      {
        var frame := frames[i];
        if frame.Failed? {
          return true, i;
        }
        ProcessFrame(frame.red, frame.blue);
        if frame.quit {
          return true, i;
        }
        i := i + 1;
      }
      return false, i;
    }
  }
}
