/** Production/Prod_Pixel_Testing.py: scale a map image, keeping its
    aspect ratio, until it covers 702 x 448 pixels, crop the centre to
    exactly that size, and report the cursor's position in inches of the
    142 x 92 inch map. The image enters as its width and height; arithmetic
    is on exact values, and the window and mouse events are outside the
    model. */
module ProdPixelTesting {
  import opened RoverMath

  const TargetWidth := 702
  const TargetHeight := 448
  const InchesWidth := 142
  const InchesHeight := 92

  /** Lines 17-25: the resized `(new_width, new_height)`. A wider image is
      scaled to the target height, any other to the target width; the
      other side is truncated, so the aspect ratio is kept to within one
      pixel, and both sides cover the target. */
  function Resize(width: int, height: int): (r: (int, int))
    requires width > 0 && height > 0
    ensures r.0 >= TargetWidth && r.1 >= TargetHeight
    ensures width * TargetHeight > TargetWidth * height ==>
      r.1 == TargetHeight && r.0 * height <= TargetHeight * width < (r.0 + 1) * height
    ensures width * TargetHeight <= TargetWidth * height ==>
      r.0 == TargetWidth && r.1 * width <= TargetWidth * height < (r.1 + 1) * width
  {
    var aspectRatio := width as real / height as real;
    if aspectRatio > TargetWidth as real / TargetHeight as real then
      WiderScalesByHeight(width, height);
      (Trunc(TargetHeight as real * aspectRatio), TargetHeight)
    else
      TallerScalesByWidth(width, height);
      (TargetWidth, Trunc(TargetWidth as real / aspectRatio))
  }

  /** The wider branch: the comparison of ratios is the comparison of
      cross products, and `int(448 * aspect)` is the floor of
      `448 * width / height`, at least 702. */
  lemma WiderScalesByHeight(width: int, height: int)
    requires width > 0 && height > 0
    ensures var aspectRatio := width as real / height as real;
      var n := Trunc(TargetHeight as real * aspectRatio);
      (aspectRatio > TargetWidth as real / TargetHeight as real <==> width * TargetHeight > TargetWidth * height)
      && (aspectRatio > TargetWidth as real / TargetHeight as real ==>
            n >= TargetWidth && n * height <= TargetHeight * width < (n + 1) * height)
  {
    var aspectRatio := width as real / height as real;
    var h := height as real;
    assert aspectRatio * h == width as real;
    var x := TargetHeight as real * aspectRatio;
    assert x * h == (TargetHeight * width) as real;
    RatioOrder(width as real, height as real, TargetWidth as real, TargetHeight as real);
    if aspectRatio > TargetWidth as real / TargetHeight as real {
      assert x > TargetWidth as real;
      var n := Trunc(x);
      assert n == x.Floor;
      assert n as real <= x < (n + 1) as real;
      FloorBounds(x, h, n, TargetHeight * width, height);
    }
  }

  /** The other branch: `int(702 / aspect)` is the floor of
      `702 * height / width`, at least 448. */
  lemma TallerScalesByWidth(width: int, height: int)
    requires width > 0 && height > 0
    ensures var aspectRatio := width as real / height as real;
      var n := Trunc(TargetWidth as real / aspectRatio);
      !(aspectRatio > TargetWidth as real / TargetHeight as real) ==>
        n >= TargetHeight && n * width <= TargetWidth * height < (n + 1) * width
  {
    var aspectRatio := width as real / height as real;
    var w := width as real;
    assert aspectRatio > 0.0;
    var x := TargetWidth as real / aspectRatio;
    assert x == TargetWidth as real * height as real / w;
    assert x * w == (TargetWidth * height) as real;
    RatioOrder(width as real, height as real, TargetWidth as real, TargetHeight as real);
    if !(aspectRatio > TargetWidth as real / TargetHeight as real) {
      assert x >= TargetHeight as real;
      var n := Trunc(x);
      assert n == x.Floor;
      FloorBounds(x, w, n, TargetWidth * height, width);
    }
  }

  /** `a / b > c / d` exactly when `a * d > c * b`, for positive `b`, `d`. */
  lemma RatioOrder(a: real, b: real, c: real, d: real)
    requires b > 0.0 && d > 0.0
    ensures a / b > c / d <==> a * d > c * b
  {
    assert a / b - c / d == (a * d - c * b) / (b * d);
  }

  /** The floor `n` of `x = m / k` satisfies `n * k <= m < (n + 1) * k`. */
  lemma FloorBounds(x: real, k: real, n: int, m: int, kInt: int)
    requires k > 0.0 && k == kInt as real && x * k == m as real && n == x.Floor
    ensures n * kInt <= m < (n + 1) * kInt
  {
    var lo, hi := n as real, (n + 1) as real;
    assert lo <= x < hi;
    MulMono(k, lo, x);
    MulMono(k, x, hi);
    assert k * lo <= m as real < k * hi;
    CastProduct(n, kInt);
    CastProduct(n + 1, kInt);
  }

  lemma CastProduct(a: int, b: int)
    ensures (a * b) as real == b as real * a as real
  {
  }

  /** Lines 31-32: the crop's top-left corner. */
  function CropStart(newWidth: int, newHeight: int): (r: (int, int))
    requires newWidth >= TargetWidth && newHeight >= TargetHeight
    ensures 0 <= r.0 && r.0 + TargetWidth <= newWidth && 0 <= r.1 && r.1 + TargetHeight <= newHeight
    ensures r.0 <= newWidth - (r.0 + TargetWidth) <= r.0 + 1
    ensures r.1 <= newHeight - (r.1 + TargetHeight) <= r.1 + 1
  {
    ((newWidth - TargetWidth) / 2, (newHeight - TargetHeight) / 2)
  }

  /** The length of `a[start:stop]` for an axis of `n` elements and
      non-negative bounds, as numpy clamps them. */
  function SliceLength(n: nat, start: nat, stop: nat): (r: nat)
    ensures r <= n && r <= if stop >= start then stop - start else 0
  {
    var hi := if stop <= n then stop else n;
    var lo := if start <= n then start else n;
    if hi >= lo then hi - lo else 0
  }

  /** Line 35: the cropped image's `(width, height)` for an original of
      the given size. */
  function CroppedSize(width: int, height: int): (r: (nat, nat))
    requires width > 0 && height > 0
  {
    var (newWidth, newHeight) := Resize(width, height);
    var (startX, startY) := CropStart(newWidth, newHeight);
    (SliceLength(newWidth, startX, startX + TargetWidth), SliceLength(newHeight, startY, startY + TargetHeight))
  }

  /** Whatever the image's size, the crop is exactly 702 x 448, so the
      scale of lines 40-41 is `142 / 702` and `92 / 448` inches per pixel. */
  lemma CropIsTarget(width: int, height: int)
    requires width > 0 && height > 0
    ensures CroppedSize(width, height) == (TargetWidth, TargetHeight)
  {
    var (newWidth, newHeight) := Resize(width, height);
    var (startX, startY) := CropStart(newWidth, newHeight);
    assert SliceLength(newWidth, startX, startX + TargetWidth) == TargetWidth;
    assert SliceLength(newHeight, startY, startY + TargetHeight) == TargetHeight;
  }

  /** Lines 40-48: the cursor's position in inches from the map's top-left
      corner, for a crop of the given size. */
  function CursorInches(x: int, y: int, cropWidth: nat, cropHeight: nat): (r: Point)
    requires cropWidth > 0 && cropHeight > 0
    ensures x == 0 ==> r.x == 0.0
    ensures y == 0 ==> r.y == 0.0
    ensures x == cropWidth ==> r.x == InchesWidth as real
    ensures y == cropHeight ==> r.y == InchesHeight as real
  {
    Point(x as real * (InchesWidth as real / cropWidth as real),
          y as real * (InchesHeight as real / cropHeight as real))
  }

  /** The reading grows with the cursor: moving right or down never
      decreases the inches shown, and the crop's corner reads the map's
      full size. */
  lemma CursorMonotone(x1: int, y1: int, x2: int, y2: int, width: int, height: int)
    requires width > 0 && height > 0 && x1 <= x2 && y1 <= y2
    ensures var (cw, ch) := CroppedSize(width, height);
      cw > 0 && ch > 0
      && CursorInches(x1, y1, cw, ch).x <= CursorInches(x2, y2, cw, ch).x
      && CursorInches(x1, y1, cw, ch).y <= CursorInches(x2, y2, cw, ch).y
      && CursorInches(TargetWidth, TargetHeight, cw, ch) == Point(InchesWidth as real, InchesHeight as real)
  {
    CropIsTarget(width, height);
    MulMono(InchesWidth as real / TargetWidth as real, x1 as real, x2 as real);
    MulMono(InchesHeight as real / TargetHeight as real, y1 as real, y2 as real);
  }
}
