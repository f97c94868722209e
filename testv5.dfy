/** testv5.py: the map spans the pixel box from `TOP_LEFT_PIXEL` to
    `BOTTOM_RIGHT_PIXEL`, which stands for 140 x 90 inches; hovering shows
    a pixel's position in inches. The image, the window and the mouse
    event are outside the model; arithmetic is on exact values. */
module Testv5 {
  import opened RoverMath

  const TopLeftPixel := Pixel(58, 23)
  const BottomRightPixel := Pixel(760, 469)
  const MapWidthInches := 140
  const MapHeightInches := 90

  /** Lines 21-28: the box's `(width, height)`, or None where the script
      exits because one of them is not positive. */
  function MapSize(topLeft: Pixel, bottomRight: Pixel): (r: Option<(int, int)>)
    ensures r.Some? <==> bottomRight.x > topLeft.x && bottomRight.y > topLeft.y
    ensures r.Some? ==> (r.value.0 > 0 && r.value.1 > 0
      && topLeft.x + r.value.0 == bottomRight.x && topLeft.y + r.value.1 == bottomRight.y)
  {
    var width := bottomRight.x - topLeft.x;
    var height := bottomRight.y - topLeft.y;
    if width <= 0 || height <= 0 then None else Some((width, height))
  }

  /** The script's own corners give a 702 x 446 box. */
  lemma ScriptMapSize()
    ensures MapSize(TopLeftPixel, BottomRightPixel) == Some((702, 446))
  {
  }

  /** Lines 34-35 and 45-46: a pixel's position in inches for a box of the
      given size. The box's near corner reads 0 and its far corner the
      map's size. */
  function PixelInches(x: int, y: int, width: int, height: int): (r: Point)
    requires width > 0 && height > 0
    ensures x == 0 ==> r.x == 0.0
    ensures y == 0 ==> r.y == 0.0
    ensures x == width ==> r.x == MapWidthInches as real
    ensures y == height ==> r.y == MapHeightInches as real
  {
    Point(x as real * (MapWidthInches as real / width as real),
          y as real * (MapHeightInches as real / height as real))
  }

  /** The conversion never decreases as the pixel moves right or down, and
      strictly increases as it moves right. */
  lemma PixelInchesMonotone(x1: int, y1: int, x2: int, y2: int, width: int, height: int)
    requires width > 0 && height > 0 && x1 <= x2 && y1 <= y2
    ensures PixelInches(x1, y1, width, height).x <= PixelInches(x2, y2, width, height).x
    ensures PixelInches(x1, y1, width, height).y <= PixelInches(x2, y2, width, height).y
    ensures x1 < x2 ==> PixelInches(x1, y1, width, height).x < PixelInches(x2, y2, width, height).x
  {
    MulMono(MapWidthInches as real / width as real, x1 as real, x2 as real);
    MulMono(MapHeightInches as real / height as real, y1 as real, y2 as real);
  }

  /** Doubling a pixel's offsets doubles its reading. */
  lemma PixelInchesLinear(x: int, y: int, width: int, height: int)
    requires width > 0 && height > 0
    ensures PixelInches(2 * x, 2 * y, width, height).x == 2.0 * PixelInches(x, y, width, height).x
    ensures PixelInches(2 * x, 2 * y, width, height).y == 2.0 * PixelInches(x, y, width, height).y
  {
  }
}
