/** Testing/grokPiInTheSky.py: the camera server of the Grok rover. The
    `/markers` route smooths the red and blue marker detections, draws the
    rover's orientation and, for a valid `target_index`, the line to that
    target, and replies with the smoothed markers; `/set_targets` replaces
    the target list. Pixel detection, `atan2`/`hypot` and the drawing
    itself are outside the model: detections enter as parameters and the
    overlay is returned as the vectors the angles and distance are taken
    of. */
module GrokPiInTheSky {
  import opened RoverMath
  import opened Markers

  /** The JSON reply of `/markers`. */
  datatype Reply = CaptureFailed | MarkersReply(red: Option<Pixel>, blue: Option<Pixel>)

  /** What the overlay measures when both markers are present: the
      midpoint, the red-to-blue orientation vector, and the vector from the
      midpoint to the selected target when there is one. */
  datatype Overlay = Overlay(midpoint: Pixel, orientation: Pixel, toTarget: Option<Pixel>)

  /** `0 <= target_index < len(targets)` for a given index. */
  predicate ValidIndex(targetIndex: Option<int>, count: nat)
  {
    targetIndex.Some? && 0 <= targetIndex.value < count
  }

  /** The overlay of lines 94-110. */
  function Measure(red: Option<Pixel>, blue: Option<Pixel>, targetIndex: Option<int>, targets: seq<Pixel>): (r: Option<Overlay>)
    ensures r.Some? <==> red.Some? && blue.Some?
    ensures r.Some? ==> r.value.midpoint == CalculateCenter(red.value, blue.value)
    ensures r.Some? ==> (r.value.toTarget.Some? <==> ValidIndex(targetIndex, |targets|))
    ensures r.Some? && r.value.toTarget.Some? ==>
      var t := targets[targetIndex.value];
      r.value.toTarget.value.x + r.value.midpoint.x == t.x && r.value.toTarget.value.y + r.value.midpoint.y == t.y
  {
    if red.Some? && blue.Some? then
      var midpoint := CalculateCenter(red.value, blue.value);
      var orientation := Pixel(blue.value.x - red.value.x, blue.value.y - red.value.y);
      var toTarget :=
        if targetIndex.Some? && 0 <= targetIndex.value < |targets| then
          var t := targets[targetIndex.value];
          Some(Pixel(t.x - midpoint.x, t.y - midpoint.y))
        else None;
      Some(Overlay(midpoint, orientation, toTarget))
    else None
  }

  /** The markers' midpoint is the floor average of the two: it moves with
      the markers and lies between them. */
  lemma MidpointBetween(red: Pixel, blue: Pixel, dx: int, dy: int)
    ensures CalculateCenter(Pixel(red.x + 2 * dx, red.y + 2 * dy), Pixel(blue.x, blue.y))
         == Pixel(CalculateCenter(red, blue).x + dx, CalculateCenter(red, blue).y + dy)
    ensures IntMin(red.x, blue.x) <= CalculateCenter(red, blue).x <= IntMax(red.x, blue.x)
  {
    var c := CalculateCenter(red, blue);
    assert (red.x + 2 * dx + blue.x) / 2 == (red.x + blue.x) / 2 + dx;
    assert (red.y + 2 * dy + blue.y) / 2 == (red.y + blue.y) / 2 + dy;
  }

  class Server {
    var smoothedRed: Option<Pixel>
    var smoothedBlue: Option<Pixel>
    var targets: seq<Pixel>

    constructor()
      ensures smoothedRed == None && smoothedBlue == None && targets == []
    {
      smoothedRed, smoothedBlue, targets := None, None, [];
    }

    /** `/set_targets`: the posted list replaces the old one wholesale,
        and a body without `targets` empties it. */
    method SetTargets(posted: Option<seq<Pixel>>)
      modifies this`targets
      ensures targets == (if posted.Some? then posted.value else [])
    {
      targets := if posted.Some? then posted.value else [];
    }

    /** `/markers` for one captured frame (or a failed capture) with the
        detections of the red and blue markers. */
    method GetMarkers(targetIndex: Option<int>, captured: bool, redPixel: Option<Pixel>, bluePixel: Option<Pixel>)
      returns (reply: Reply, overlay: Option<Overlay>)
      modifies this`smoothedRed, this`smoothedBlue
      ensures !captured ==> (reply == CaptureFailed && overlay == None
        && smoothedRed == old(smoothedRed) && smoothedBlue == old(smoothedBlue))
      ensures captured ==> (smoothedRed == Smooth(old(smoothedRed), redPixel)
        && smoothedBlue == Smooth(old(smoothedBlue), bluePixel))
      ensures captured ==> (reply == MarkersReply(smoothedRed, smoothedBlue)
        && overlay == Measure(smoothedRed, smoothedBlue, targetIndex, targets))
    {
      if !captured {
        return CaptureFailed, None;
      }
      smoothedRed := Smooth(smoothedRed, redPixel);
      smoothedBlue := Smooth(smoothedBlue, bluePixel);
      overlay := None;
      if smoothedRed.Some? && smoothedBlue.Some? {
        var midpoint := Pixel((smoothedRed.value.x + smoothedBlue.value.x) / 2,
                              (smoothedRed.value.y + smoothedBlue.value.y) / 2);
        var orientation := Pixel(smoothedBlue.value.x - smoothedRed.value.x,
                                 smoothedBlue.value.y - smoothedRed.value.y);
        var toTarget := None;
        if targetIndex.Some? && 0 <= targetIndex.value < |targets| {
          var target := targets[targetIndex.value];
          toTarget := Some(Pixel(target.x - midpoint.x, target.y - midpoint.y));
        }
        overlay := Some(Overlay(midpoint, orientation, toTarget));
      }
      reply := MarkersReply(smoothedRed, smoothedBlue);
    }
  }

  /** The reply reports a marker exactly when this frame detected it, and a
      marker seen for the first time is reported exactly where it was
      detected. */
  lemma ReplyTracksDetections(previousRed: Option<Pixel>, previousBlue: Option<Pixel>, red: Option<Pixel>, blue: Option<Pixel>)
    ensures var reply := MarkersReply(Smooth(previousRed, red), Smooth(previousBlue, blue));
      (reply.red == None <==> red == None) && (reply.blue == None <==> blue == None)
      && (previousRed == None ==> reply.red == red) && (previousBlue == None ==> reply.blue == blue)
  {
  }
}
