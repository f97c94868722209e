/** Exponential smoothing of a colour-marker position, as the camera scripts
    do it (Autonomous/finalPiSky.py, Testing/grokPiInTheSky.py,
    Testing/CameraTestingCode.py): keep 10% of the previous smoothed
    position and 90% of the new detection, truncated with `int()`, and forget
    the marker as soon as one frame misses it. */
module Markers {
  import opened RoverMath

  const SmoothingFactor := 0.1

  /** `int(old * SMOOTHING_FACTOR + new * (1 - SMOOTHING_FACTOR))`. */
  function Blend(prev: int, next: int): int
  {
    Trunc(prev as real * SmoothingFactor + next as real * (1.0 - SmoothingFactor))
  }

  /** The smoothed position after one frame: `None` on a miss, the detection
      itself when nothing was smoothed yet, otherwise the blend. */
  function Smooth(previous: Option<Pixel>, detection: Option<Pixel>): (r: Option<Pixel>)
    ensures detection == None <==> r == None
    ensures previous == None ==> r == detection
  {
    match detection
    case None => None
    case Some(d) =>
      match previous
      case None => Some(d)
      case Some(p) => Some(Pixel(Blend(p.x, d.x), Blend(p.y, d.y)))
  }

  /** The blend of two non-negative coordinates lies between them, and is
      within one pixel of the exact weighted average. */
  lemma BlendBetween(prev: int, next: int)
    requires prev >= 0 && next >= 0
    ensures IntMin(prev, next) <= Blend(prev, next) <= IntMax(prev, next)
    ensures var exact := prev as real * 0.1 + next as real * 0.9;
      Blend(prev, next) as real <= exact < Blend(prev, next) as real + 1.0
  {
    var exact := prev as real * 0.1 + next as real * 0.9;
    var lo, hi := IntMin(prev, next), IntMax(prev, next);
    assert lo as real <= exact <= hi as real;
    var b := Blend(prev, next);
    assert b as real <= exact < b as real + 1.0;
    assert lo <= b;
  }

  /** A marker that sits still is reported exactly where it is. */
  lemma SmoothFixedPoint(p: Pixel)
    ensures Smooth(Some(p), Some(p)) == Some(p)
  {
    assert p.x as real * 0.1 + p.x as real * 0.9 == p.x as real;
    assert p.y as real * 0.1 + p.y as real * 0.9 == p.y as real;
    TruncOfInteger(p.x);
    TruncOfInteger(p.y);
  }

  /** With both positions non-negative, each smoothed coordinate lies between
      the previous smoothed coordinate and the new detection. */
  lemma SmoothBetween(p: Pixel, d: Pixel)
    requires p.x >= 0 && p.y >= 0 && d.x >= 0 && d.y >= 0
    ensures var r := Smooth(Some(p), Some(d)).value;
      IntMin(p.x, d.x) <= r.x <= IntMax(p.x, d.x) && IntMin(p.y, d.y) <= r.y <= IntMax(p.y, d.y)
  {
    BlendBetween(p.x, d.x);
    BlendBetween(p.y, d.y);
  }
}
