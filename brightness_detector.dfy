/** Camera_Brightness_Detector.py: read webcam frames, box the brightest
    pixel of each and stop after ten consecutive failed attempts or on `q`.
    The attempts (a failure, or the location `minMaxLoc` returns and whether
    `q` was pressed) enter as a sequence; the boxes drawn are the observable
    output. Grey-scale conversion, the brightness value, the text and the
    retry delay are outside the model. */
module BrightnessDetector {
  import opened RoverMath

  const MaxFailures := 10
  const BoxSize := 20

  /** The limits the box is clamped to: 320 x 240, though frames are
      resized to 640 x 480. */
  const ClampWidth := 320
  const ClampHeight := 240

  datatype Read = Failure | Frame(brightest: Pixel, quit: bool)

  datatype Box = Box(topLeft: Pixel, bottomRight: Pixel)

  /** Lines 44-47: the box around the brightest pixel, its top-left
      clamped to 0 and its bottom-right to 320 x 240. Inside those limits
      it is the pixel's 20-pixel square; a pixel in the frame further right
      than 330 (or lower than 250) gets a box whose corners are
      inverted. */
  function BoxAround(p: Pixel): (r: Box)
    ensures r.topLeft.x >= 0 && r.topLeft.y >= 0
    ensures r.bottomRight.x <= ClampWidth && r.bottomRight.y <= ClampHeight
    ensures BoxSize / 2 <= p.x <= ClampWidth - BoxSize / 2 ==>
      r.topLeft.x == p.x - BoxSize / 2 && r.bottomRight.x == p.x + BoxSize / 2
    ensures BoxSize / 2 <= p.y <= ClampHeight - BoxSize / 2 ==>
      r.topLeft.y == p.y - BoxSize / 2 && r.bottomRight.y == p.y + BoxSize / 2
    ensures 0 <= p.x ==> (r.bottomRight.x < r.topLeft.x <==> p.x > ClampWidth + BoxSize / 2)
    ensures 0 <= p.y ==> (r.bottomRight.y < r.topLeft.y <==> p.y > ClampHeight + BoxSize / 2)
  {
    Box(Pixel(IntMax(0, p.x - BoxSize / 2), IntMax(0, p.y - BoxSize / 2)),
        Pixel(IntMin(ClampWidth, p.x + BoxSize / 2), IntMin(ClampHeight, p.y + BoxSize / 2)))
  }

  /** Why the loop ended, if it did. */
  datatype Exit = Running | TooManyFailures | Quit

  datatype End = End(failures: nat, boxes: seq<Box>, exit: Exit, at: nat)

  /** The loop from read `i` on, with `failure_count` at `failures` and
      the boxes drawn so far. */
  function Run(failures: nat, boxes: seq<Box>, attempts: seq<Read>, i: nat): (r: End)
    requires i <= |attempts|
    ensures i <= r.at <= |attempts| && (r.exit == Running <==> r.at == |attempts|)
    ensures r.exit == TooManyFailures ==> attempts[r.at].Failure? && r.failures >= MaxFailures
    ensures r.exit == Quit ==> attempts[r.at].Frame? && attempts[r.at].quit && r.failures == 0
    ensures failures < MaxFailures && r.exit != TooManyFailures ==> r.failures < MaxFailures
    ensures |boxes| <= |r.boxes| && r.boxes[..|boxes|] == boxes
    decreases |attempts| - i
  {
    if i == |attempts| then End(failures, boxes, Running, i)
    else
      match attempts[i]
      case Failure =>
        if failures + 1 >= MaxFailures then End(failures + 1, boxes, TooManyFailures, i)
        else Run(failures + 1, boxes, attempts, i + 1)
      case Frame(p, quit) =>
        var drawn := boxes + [BoxAround(p)];
        assert drawn[..|boxes|] == boxes;
        if quit then End(0, drawn, Quit, i) else Run(0, drawn, attempts, i + 1)
  }

  /** A successful read resets the counter, so the loop gives up only
      after ten failures in a row: the read it stops on and the nine before
      it all failed. The counter holds the failures just before read `i`. */
  lemma {:induction false} ExitNeedsConsecutiveFailures(failures: nat, boxes: seq<Box>, attempts: seq<Read>, i: nat)
    requires i <= |attempts| && failures < MaxFailures && failures <= i
    requires forall j :: i - failures <= j < i ==> attempts[j].Failure?
    ensures var r := Run(failures, boxes, attempts, i);
      r.exit == TooManyFailures ==>
        r.at >= MaxFailures - 1 && forall j :: r.at - (MaxFailures - 1) <= j <= r.at ==> attempts[j].Failure?
    decreases |attempts| - i
  {
    if i < |attempts| {
      match attempts[i]
      case Failure =>
        if failures + 1 < MaxFailures {
          ExitNeedsConsecutiveFailures(failures + 1, boxes, attempts, i + 1);
        }
      case Frame(p, quit) =>
        if !quit {
          ExitNeedsConsecutiveFailures(0, boxes + [BoxAround(p)], attempts, i + 1);
        }
    }
  }

  /** A box whose corners lie within the clamp limits. */
  predicate Clamped(b: Box)
  {
    b.topLeft.x >= 0 && b.topLeft.y >= 0 && b.bottomRight.x <= ClampWidth && b.bottomRight.y <= ClampHeight
  }

  predicate AllClamped(boxes: seq<Box>)
  {
    forall k :: 0 <= k < |boxes| ==> Clamped(boxes[k])
  }

  /** Every box the loop draws keeps its corners inside the clamp limits. */
  lemma {:induction false} RunBoxesClamped(failures: nat, boxes: seq<Box>, attempts: seq<Read>, i: nat)
    requires i <= |attempts| && AllClamped(boxes)
    ensures AllClamped(Run(failures, boxes, attempts, i).boxes)
    decreases |attempts| - i
  {
    if i < |attempts| {
      match attempts[i]
      case Failure =>
        if failures + 1 < MaxFailures {
          RunBoxesClamped(failures + 1, boxes, attempts, i + 1);
        }
      case Frame(p, quit) =>
        var drawn := boxes + [BoxAround(p)];
        assert Clamped(drawn[|boxes|]);
        assert AllClamped(drawn);
        if !quit {
          RunBoxesClamped(0, drawn, attempts, i + 1);
        }
    }
  }

  class Detector {
    var failureCount: nat
    var boxes: seq<Box>

    constructor()
      ensures failureCount == 0 && boxes == []
    {
      failureCount, boxes := 0, [];
    }

    /** The script's loop over the attempts it makes. */
    method Capture(attempts: seq<Read>) returns (exit: Exit, at: nat)
      modifies this
      ensures var r := Run(old(failureCount), old(boxes), attempts, 0);
        failureCount == r.failures && boxes == r.boxes && exit == r.exit && at == r.at
    {
      ghost var goal := Run(failureCount, boxes, attempts, 0);
      var i := 0;
      while i < |attempts|
        invariant i <= |attempts| && Run(failureCount, boxes, attempts, i) == goal
        decreases |attempts| - i
      {
        var read := attempts[i];
        if read.Failure? {
          failureCount := failureCount + 1;
          if failureCount >= MaxFailures {
            return TooManyFailures, i;
          }
        } else {
          failureCount := 0;
          var x, y := read.brightest.x, read.brightest.y;
          var topLeft := Pixel(IntMax(0, x - BoxSize / 2), IntMax(0, y - BoxSize / 2));
          var bottomRight := Pixel(IntMin(ClampWidth, x + BoxSize / 2), IntMin(ClampHeight, y + BoxSize / 2));
          boxes := boxes + [Box(topLeft, bottomRight)];
          if read.quit {
            return Quit, i;
          }
        }
        i := i + 1;
      }
      return Running, i;
    }
  }
}
