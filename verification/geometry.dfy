/** The aspect-preserving fit of `Thumbnail` (thumbnailer.go): given the
    measured size of the extracted region, the size at which the foreground
    is rendered and its offset inside the fixed 400x300 canvas.

    thumbnailer.go computes in float64; this model computes over exact reals.
 */
module Geometry {
  import opened Truncation

  const CanvasWidth: int := 400
  const CanvasHeight: int := 300

  /** A measured image side; a decoded image is at least one pixel wide. */
  type Pixels = n: int | 0 < n witness 1

  /** The `bimg.ImageSize` reported for the extracted region. */
  datatype Dimensions = Dimensions(width: Pixels, height: Pixels)

  /** Foreground render size and its offset inside the canvas, before the
      values are converted to int. */
  datatype Layout = Layout(width: real, height: real, top: real, left: real)

  /** The branch test of thumbnailer.go: strictly wider than high. A square
      region is not landscape. */
  predicate Landscape(d: Dimensions) {
    d.width > d.height
  }

  /** The foreground has the region's aspect ratio. */
  ghost predicate PreservesAspect(d: Dimensions, l: Layout) {
    l.width * d.height as real == l.height * d.width as real
  }

  /** The foreground is centred on both axes of the canvas: equal margins
      left and right, and equal margins above and below. */
  ghost predicate Centred(l: Layout) {
    && 2.0 * l.left + l.width == CanvasWidth as real
    && 2.0 * l.top + l.height == CanvasHeight as real
  }

  /** The foreground spans the whole canvas along the axis the branch test
      selects: the full width for a landscape region, the full height
      otherwise. */
  ghost predicate FillsAxis(d: Dimensions, l: Layout) {
    if Landscape(d) then l.width == CanvasWidth as real
    else l.height == CanvasHeight as real
  }

  /** The whole foreground lies inside the canvas. */
  ghost predicate InsideCanvas(l: Layout) {
    && 0.0 <= l.left && l.left + l.width <= CanvasWidth as real
    && 0.0 <= l.top && l.top + l.height <= CanvasHeight as real
  }

  /** The fit of thumbnailer.go: scale to the canvas width and centre
      vertically when the region is landscape, otherwise scale to the canvas
      height and centre horizontally. */
  function Fit(d: Dimensions): (l: Layout)
    ensures PreservesAspect(d, l)
    ensures Centred(l)
    ensures FillsAxis(d, l)
    ensures 0.0 < l.width && 0.0 < l.height
  {
    var w := d.width as real;
    var h := d.height as real;
    if w > h then
      var height := h * (CanvasWidth as real / w);
      Layout(CanvasWidth as real, height, (CanvasHeight as real - height) / 2.0, 0.0)
    else
      var width := w * (CanvasHeight as real / h);
      Layout(width, CanvasHeight as real, 0.0, (CanvasWidth as real - width) / 2.0)
  }

  /** The three properties of `Fit`'s contract determine the layout: a
      layout keeps the aspect ratio, fills the selected axis and is centred
      exactly when it is the one `Fit` returns. */
  lemma FitDetermined(d: Dimensions, l: Layout)
    ensures PreservesAspect(d, l) && Centred(l) && FillsAxis(d, l) <==> l == Fit(d)
  {
  }

  /** Landscape branch: full width, no left margin, the height scaled by
      400/width (below 400, since the region is wider than high), centred
      vertically. */
  lemma FitLandscape(d: Dimensions)
    requires d.width > d.height
    ensures Fit(d).width == 400.0
    ensures Fit(d).left == 0.0
    ensures Fit(d).height == d.height as real * 400.0 / d.width as real
    ensures Fit(d).height < 400.0
    ensures Fit(d).top == (300.0 - Fit(d).height) / 2.0
  {
  }

  /** The other branch: full height, no top margin, the width scaled by
      300/height (at most 300), centred horizontally with a left margin of
      at least 50. */
  lemma FitPortrait(d: Dimensions)
    requires d.height >= d.width
    ensures Fit(d).height == 300.0
    ensures Fit(d).top == 0.0
    ensures Fit(d).width == d.width as real * 300.0 / d.height as real
    ensures Fit(d).width <= 300.0
    ensures Fit(d).left == (400.0 - Fit(d).width) / 2.0
    ensures 50.0 <= Fit(d).left < 200.0
  {
  }

  /** A square region takes the second branch: 300x300 at left 50, top 0. */
  lemma FitSquare(d: Dimensions)
    requires d.width == d.height
    ensures Fit(d) == Layout(300.0, 300.0, 0.0, 50.0)
  {
  }

  /** In the landscape branch the top margin is non-negative exactly when
      the region is at least 4:3. */
  lemma FitLandscapeTopIff(d: Dimensions)
    requires Landscape(d)
    ensures 0.0 <= Fit(d).top <==> 4 * d.height <= 3 * d.width
  {
    var w := d.width as real;
    var h := d.height as real;
    assert Fit(d).top == (300.0 * w - 400.0 * h) / (2.0 * w);
    QuotientBounds(0.0, 300.0 * w - 400.0 * h, 0.0, 2.0 * w);
  }

  /** The defect of the branch test: a landscape region narrower than 4:3
      is scaled taller than the canvas, so the top offset is negative and
      the foreground overflows above and below. */
  lemma FitLandscapeOverflow(d: Dimensions)
    requires d.height < d.width
    requires 3 * d.width < 4 * d.height
    ensures Fit(d).height > 300.0
    ensures -50.0 < Fit(d).top < 0.0
    ensures Fit(d).top + Fit(d).height > 300.0
  {
  }

  /** The foreground lies inside the canvas exactly when the region is not a
      landscape narrower than 4:3. */
  lemma FitInsideCanvasIff(d: Dimensions)
    ensures InsideCanvas(Fit(d)) <==> d.width <= d.height || 4 * d.height <= 3 * d.width
  {
  }

  /** The fit as evidently intended: the branch compares the region's
      aspect ratio with the canvas's 4:3, so the foreground always fits
      inside the canvas (letterboxed or pillarboxed). */
  function FitLetterbox(d: Dimensions): (l: Layout)
    ensures PreservesAspect(d, l)
    ensures Centred(l)
    ensures InsideCanvas(l)
    ensures l.width == CanvasWidth as real || l.height == CanvasHeight as real
    ensures 0.0 < l.width && 0.0 < l.height
  {
    var w := d.width as real;
    var h := d.height as real;
    if CanvasHeight * d.width > CanvasWidth * d.height then
      var height := h * (CanvasWidth as real / w);
      Layout(CanvasWidth as real, height, (CanvasHeight as real - height) / 2.0, 0.0)
    else
      var width := w * (CanvasHeight as real / h);
      Layout(width, CanvasHeight as real, 0.0, (CanvasWidth as real - width) / 2.0)
  }

  /** The correction changes only the regions the as-written fit lets
      overflow: wherever `Fit` stays inside the canvas the two agree. */
  lemma FitLetterboxAgrees(d: Dimensions)
    ensures InsideCanvas(Fit(d)) <==> FitLetterbox(d) == Fit(d)
  {
    FitInsideCanvasIff(d);
    if Landscape(d) && 3 * d.width == 4 * d.height {
      // Exactly 4:3: the two fits take different branches but meet at the
      // full canvas.
      FitDetermined(d, FitLetterbox(d));
    }
  }

  /** A 7x6 region overflows the canvas; its top offset, about -21.43, is
      passed to the engine as -21, not as the floor -22. */
  lemma FitOverflowExample()
    ensures Fit(Dimensions(7, 6)) == Layout(400.0, 2400.0 / 7.0, -150.0 / 7.0, 0.0)
    ensures !InsideCanvas(Fit(Dimensions(7, 6)))
    ensures Trunc(Fit(Dimensions(7, 6)).top) == -21
    ensures FitLetterbox(Dimensions(7, 6)) == Layout(350.0, 300.0, 0.0, 25.0)
  {
  }

  /** A 300x800 region is rendered 112 wide at left offset 143 once the
      values are converted to int (112.5 and 143.75 before conversion). */
  lemma FitPortraitExample()
    ensures Fit(Dimensions(300, 800)) == Layout(112.5, 300.0, 0.0, 143.75)
    ensures Trunc(112.5) == 112 && Trunc(143.75) == 143
  {
  }

  /** The integer render size handed to the engine keeps the region's aspect
      ratio up to the truncation error: the cross products differ by less
      than the longer side of the region. */
  lemma TruncatedAspect(d: Dimensions)
    ensures var l := Fit(d);
      var cross := Trunc(l.width) * d.height - Trunc(l.height) * d.width;
      -(if d.width < d.height then d.height else d.width) < cross < (if d.width < d.height then d.height else d.width)
  {
  }

  /** After conversion to int the foreground is still centred to within
      two pixels: the two horizontal margins and the width add up to 398,
      399 or 400, and the two vertical margins and the height to between 298
      and 301 (above 300 only when a negative top is rounded up). */
  lemma TruncatedCentred(d: Dimensions)
    ensures var l := Fit(d);
      CanvasWidth - 2 <= 2 * Trunc(l.left) + Trunc(l.width) <= CanvasWidth
    ensures var l := Fit(d);
      CanvasHeight - 2 <= 2 * Trunc(l.top) + Trunc(l.height) <= CanvasHeight + 1
  {
  }

  /** The integers handed to the engine: render size and offset. */
  datatype Placement = Placement(width: int, height: int, top: int, left: int)

  /** Each field of a layout converted with `int(...)`, as the pipeline
      does before calling the engine. */
  function Rendered(l: Layout): Placement {
    Placement(Trunc(l.width), Trunc(l.height), Trunc(l.top), Trunc(l.left))
  }

  /** The fit computed in integers only, with Go's truncating integer
      division: a reference for the values the engine receives. */
  function IntegerFit(d: Dimensions): Placement {
    var w := d.width as int;
    var h := d.height as int;
    if w > h then
      Placement(CanvasWidth, TruncDiv(CanvasWidth * h, w),
                TruncDiv(CanvasHeight * w - CanvasWidth * h, 2 * w), 0)
    else
      Placement(TruncDiv(CanvasHeight * w, h), CanvasHeight,
                0, TruncDiv(CanvasWidth * h - CanvasHeight * w, 2 * h))
  }

  /** Converting the real-valued fit to int gives exactly the integer fit:
      the rendered height of a landscape region is `400*h/w` rounded toward
      zero, its top `(300*w - 400*h)/(2*w)` rounded toward zero, and
      symmetrically for the other branch. */
  lemma {:induction false} RenderedFit(d: Dimensions)
    ensures Rendered(Fit(d)) == IntegerFit(d)
  {
    if Landscape(d) {
      RenderedLandscape(d);
    } else {
      RenderedPortrait(d);
    }
  }

  lemma RenderedLandscape(d: Dimensions)
    requires Landscape(d)
    ensures Rendered(Fit(d)) == IntegerFit(d)
  {
    LandscapeHeight(d);
    LandscapeTop(d);
    TruncOfInt(CanvasWidth);
    TruncOfInt(0);
  }

  lemma LandscapeHeight(d: Dimensions)
    requires Landscape(d)
    ensures Trunc(Fit(d).height) == TruncDiv(CanvasWidth * d.height, d.width)
  {
    ScaledTrunc(d.height, CanvasWidth, d.width);
  }

  lemma LandscapeTop(d: Dimensions)
    requires Landscape(d)
    ensures Trunc(Fit(d).top) == TruncDiv(CanvasHeight * d.width - CanvasWidth * d.height, 2 * d.width)
  {
    MarginTrunc(d.height, CanvasWidth, d.width, CanvasHeight);
  }

  lemma RenderedPortrait(d: Dimensions)
    requires !Landscape(d)
    ensures Rendered(Fit(d)) == IntegerFit(d)
  {
    PortraitWidth(d);
    PortraitLeft(d);
    TruncOfInt(CanvasHeight);
    TruncOfInt(0);
  }

  lemma PortraitWidth(d: Dimensions)
    requires !Landscape(d)
    ensures Trunc(Fit(d).width) == TruncDiv(CanvasHeight * d.width, d.height)
  {
    ScaledTrunc(d.width, CanvasHeight, d.height);
  }

  lemma PortraitLeft(d: Dimensions)
    requires !Landscape(d)
    ensures Trunc(Fit(d).left) == TruncDiv(CanvasWidth * d.height - CanvasHeight * d.width, 2 * d.height)
  {
    MarginTrunc(d.width, CanvasHeight, d.height, CanvasWidth);
  }

  /** `int(n * (k / m))` for the scaled side. */
  lemma ScaledTrunc(n: int, k: int, m: int)
    requires 0 < m
    ensures Trunc(n as real * (k as real / m as real)) == TruncDiv(k * n, m)
  {
    assert n as real * (k as real / m as real) == (k * n) as real / m as real;
    TruncOfQuotient(k * n, m);
  }

  /** `int((c - n * (k / m)) / 2)` for the centring margin. */
  lemma MarginTrunc(n: int, k: int, m: int, c: int)
    requires 0 < m
    ensures Trunc((c as real - n as real * (k as real / m as real)) / 2.0) == TruncDiv(c * m - k * n, 2 * m)
  {
    assert (c as real - n as real * (k as real / m as real)) / 2.0 == (c * m - k * n) as real / (2 * m) as real;
    TruncOfQuotient(c * m - k * n, 2 * m);
  }

  /** The offset handed to the engine: left 0 and a top from -49 to 149 for
      a landscape region, top 0 and a left from 50 to 199 otherwise. */
  lemma RenderedOffset(d: Dimensions)
    ensures Landscape(d) ==> Rendered(Fit(d)).left == 0 && -49 <= Rendered(Fit(d)).top <= 149
    ensures !Landscape(d) ==> Rendered(Fit(d)).top == 0 && 50 <= Rendered(Fit(d)).left <= 199
  {
    if !Landscape(d) {
      FitPortrait(d);
    }
  }
}
