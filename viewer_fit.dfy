/** Small-image fit sizing (`patchViewer` in src/lib/utils.js and, in the
    same form, in src/utils.js).

    The gallery patches the full-screen viewer so that, once the viewer has
    computed its default geometry for an image, an image whose natural
    height is below `options.imageMinHeight` is resized instead: by at most
    the integer factor `floor(imageMinHeight / naturalHeight)`, and never
    beyond `initialCoverage` of the viewer area that lies below the toolbar.
    The result is written into the viewer's `imageData` record and centred.
    The ratio can be below 1 when the viewer is small, and the source does
    not clamp the height below the toolbar, so a toolbar taller than the
    viewport gives a negative ratio; the model keeps both.

    Sizes are exact `real`s here.
 */
module ViewerFit {

  datatype Option<T> = None | Some(value: T)

  /** `viewer.viewerData`: the size of the viewer's viewport. */
  datatype ViewerData = ViewerData(width: real, height: real)

  /** `viewer.toolbar`: only its rendered height is read. */
  datatype Toolbar = Toolbar(clientHeight: real)

  /** The two viewer options the patch reads.  An absent `imageMinHeight`
      is `None`; the source also treats the value 0 as "off". */
  datatype Options = Options(imageMinHeight: Option<real>, initialCoverage: real)

  /** The five fields of `imageData` the patch writes. */
  datatype Placement = Placement(ratio: real, width: real, height: real, x: real, y: real)

  /** `toolbar?.clientHeight ?? 0`. */
  function ToolbarHeight(toolbar: Option<Toolbar>): real
  {
    match toolbar
    case None => 0.0
    case Some(t) => t.clientHeight
  }

  /** Height of the area the image is fitted to: the viewport minus the toolbar. */
  function ViewerHeight(viewerData: ViewerData, toolbar: Option<Toolbar>): real
  {
    viewerData.height - ToolbarHeight(toolbar)
  }

  /** The guard `options.imageMinHeight && naturalHeight < options.imageMinHeight`:
      the option is present and not 0, and the image is shorter than it. */
  predicate NeedsFit(naturalHeight: real, options: Options)
  {
    match options.imageMinHeight
    case None => false
    case Some(minHeight) => minHeight != 0.0 && naturalHeight < minHeight
  }

  /** The natural sizes the source divides by are defined whenever the guard holds. */
  predicate WellFormed(naturalWidth: real, naturalHeight: real, options: Options)
  {
    NeedsFit(naturalHeight, options) ==> 0.0 < naturalWidth && 0.0 < naturalHeight
  }

  // ---------------------------------------------------------------------
  // Arithmetic on positive factors

  lemma MulMonotone(a: real, b: real, h: real)
    requires a <= b && 0.0 < h
    ensures a * h <= b * h
  {
    assert b * h - a * h == (b - a) * h;
  }

  lemma MulStrictMonotone(a: real, b: real, h: real)
    requires a < b && 0.0 < h
    ensures a * h < b * h
  {
    assert b * h - a * h == (b - a) * h;
  }

  /** `a * r <= b` whenever `r <= b / a`, for positive `a`. */
  lemma ScaleBelowQuotient(a: real, b: real, r: real)
    requires 0.0 < a && r <= b / a
    ensures a * r <= b
  {
    MulMonotone(r, b / a, a);
    assert b / a * a == b;
  }

  /** `r <= b / a` whenever `a * r <= b`, for positive `a`. */
  lemma QuotientAboveScaled(a: real, b: real, r: real)
    requires 0.0 < a && a * r <= b
    ensures r <= b / a
  {
    assert b / a * a == b;
    if r > b / a {
      MulStrictMonotone(b / a, r, a);
    }
  }

  /** `floor(m / h)` times `h` is at most `m`, and one more times `h` passes it. */
  lemma FloorOfQuotient(h: real, m: real)
    requires 0.0 < h < m
    ensures 1 <= (m / h).Floor
    ensures (m / h).Floor as real * h <= m < ((m / h).Floor + 1) as real * h
  {
    var q := m / h;
    var f := q.Floor;
    assert q * h == m;
    QuotientAboveScaled(h, m, 1.0);
    assert f as real <= q < (f + 1) as real;
    MulMonotone(f as real, q, h);
    MulStrictMonotone(q, (f + 1) as real, h);
    assert m < (f + 1) as real * h;
  }

  // ---------------------------------------------------------------------
  // The fit computation

  /** `initialZoomRatio = Math.floor(imageMinHeight / naturalHeight)`: the
      largest whole factor by which the image can grow without its height
      passing `minHeight`.  For an image below `minHeight` it is at least 1. */
  function ZoomCap(naturalHeight: real, minHeight: real): (cap: int)
    requires 0.0 < naturalHeight < minHeight
    ensures 1 <= cap
    ensures cap as real * naturalHeight <= minHeight < (cap + 1) as real * naturalHeight
  {
    FloorOfQuotient(naturalHeight, minHeight);
    (minHeight / naturalHeight).Floor
  }

  /** `Math.min` of three numbers. */
  function Min3(a: real, b: real, c: real): (m: real)
    ensures m <= a && m <= b && m <= c
    ensures m == a || m == b || m == c
  {
    if a <= b && a <= c then a else if b <= c then b else c
  }

  /** A zoom ratio is admissible when the scaled image stays within the
      coverage-scaled viewer area in both directions and does not exceed
      the integer cap. */
  predicate Admissible(r: real, naturalWidth: real, naturalHeight: real,
                       viewerWidth: real, viewerHeight: real, coverage: real, cap: int)
  {
    r <= cap as real &&
    naturalWidth * r <= viewerWidth * coverage &&
    naturalHeight * r <= viewerHeight * coverage
  }

  /** `Math.min(viewerWidth * coverage / naturalWidth,
      viewerHeight * coverage / naturalHeight, cap)`: the largest admissible
      zoom ratio.  It fits the coverage-scaled viewer area in both
      directions and stays within the cap, and no larger ratio does all three. */
  function FitRatio(naturalWidth: real, naturalHeight: real,
                    viewerWidth: real, viewerHeight: real, coverage: real, cap: int): (r: real)
    requires 0.0 < naturalWidth && 0.0 < naturalHeight
    ensures Admissible(r, naturalWidth, naturalHeight, viewerWidth, viewerHeight, coverage, cap)
    ensures forall s :: Admissible(s, naturalWidth, naturalHeight, viewerWidth, viewerHeight, coverage, cap) ==> s <= r
  {
    var r := Min3(viewerWidth * coverage / naturalWidth, viewerHeight * coverage / naturalHeight, cap as real);
    MinIsLargestAdmissible(naturalWidth, naturalHeight, viewerWidth, viewerHeight, coverage, cap, r);
    r
  }

  lemma MinIsLargestAdmissible(naturalWidth: real, naturalHeight: real,
                               viewerWidth: real, viewerHeight: real, coverage: real, cap: int, r: real)
    requires 0.0 < naturalWidth && 0.0 < naturalHeight
    requires r == Min3(viewerWidth * coverage / naturalWidth, viewerHeight * coverage / naturalHeight, cap as real)
    ensures Admissible(r, naturalWidth, naturalHeight, viewerWidth, viewerHeight, coverage, cap)
    ensures forall s :: Admissible(s, naturalWidth, naturalHeight, viewerWidth, viewerHeight, coverage, cap) ==> s <= r
  {
    ScaleBelowQuotient(naturalWidth, viewerWidth * coverage, r);
    ScaleBelowQuotient(naturalHeight, viewerHeight * coverage, r);
    forall s | Admissible(s, naturalWidth, naturalHeight, viewerWidth, viewerHeight, coverage, cap)
      ensures s <= r
    {
      QuotientAboveScaled(naturalWidth, viewerWidth * coverage, s);
      QuotientAboveScaled(naturalHeight, viewerHeight * coverage, s);
    }
  }

  /** The image at zoom `ratio`, centred in a `viewerWidth` by `viewerHeight` area. */
  function Place(naturalWidth: real, naturalHeight: real,
                 viewerWidth: real, viewerHeight: real, ratio: real): Placement
  {
    var width := naturalWidth * ratio;
    var height := naturalHeight * ratio;
    Placement(ratio, width, height, (viewerWidth - width) / 2.0, (viewerHeight - height) / 2.0)
  }

  /** The geometry the patched callback computes for an image that passes
      the guard: the largest admissible ratio under the cap
      `floor(imageMinHeight / naturalHeight)`, both natural sides scaled by
      it, and the result centred in the area below the toolbar. */
  function FitPlacement(naturalWidth: real, naturalHeight: real, viewerData: ViewerData,
                        toolbar: Option<Toolbar>, options: Options): (p: Placement)
    requires NeedsFit(naturalHeight, options)
    requires 0.0 < naturalWidth && 0.0 < naturalHeight
    ensures var vw, vh := viewerData.width, ViewerHeight(viewerData, toolbar);
            var cap := ZoomCap(naturalHeight, options.imageMinHeight.value);
            Admissible(p.ratio, naturalWidth, naturalHeight, vw, vh, options.initialCoverage, cap) &&
            (forall s :: Admissible(s, naturalWidth, naturalHeight, vw, vh, options.initialCoverage, cap) ==> s <= p.ratio)
    ensures p.width == naturalWidth * p.ratio && p.height == naturalHeight * p.ratio
    ensures 2.0 * p.x + p.width == viewerData.width
    ensures 2.0 * p.y + p.height == ViewerHeight(viewerData, toolbar)
  {
    var viewerWidth := viewerData.width;
    var viewerHeight := ViewerHeight(viewerData, toolbar);
    var cap := ZoomCap(naturalHeight, options.imageMinHeight.value);
    Place(naturalWidth, naturalHeight, viewerWidth, viewerHeight,
          FitRatio(naturalWidth, naturalHeight, viewerWidth, viewerHeight, options.initialCoverage, cap))
  }

  /** The placement after the patched `initImage`: the fitted one for a
      small image, and otherwise the one the viewer had already computed. */
  function AfterInit(current: Placement, naturalWidth: real, naturalHeight: real,
                     viewerData: ViewerData, toolbar: Option<Toolbar>, options: Options): (p: Placement)
    requires WellFormed(naturalWidth, naturalHeight, options)
    ensures !NeedsFit(naturalHeight, options) ==> p == current
    ensures NeedsFit(naturalHeight, options) ==>
            p.ratio <= (options.imageMinHeight.value / naturalHeight).Floor as real &&
            p.width == naturalWidth * p.ratio && p.height == naturalHeight * p.ratio &&
            2.0 * p.x + p.width == viewerData.width &&
            2.0 * p.y + p.height == ViewerHeight(viewerData, toolbar)
  {
    if NeedsFit(naturalHeight, options)
    then FitPlacement(naturalWidth, naturalHeight, viewerData, toolbar, options)
    else current
  }

  // ---------------------------------------------------------------------
  // Properties of the fitted geometry

  /** The ratio never exceeds `floor(imageMinHeight / naturalHeight)`, that
      cap is at least 1, and so the resized image is never taller than
      `imageMinHeight`. */
  lemma FitRespectsZoomCap(naturalWidth: real, naturalHeight: real, viewerData: ViewerData,
                           toolbar: Option<Toolbar>, options: Options)
    requires NeedsFit(naturalHeight, options)
    requires 0.0 < naturalWidth && 0.0 < naturalHeight
    ensures var p := FitPlacement(naturalWidth, naturalHeight, viewerData, toolbar, options);
            var minHeight := options.imageMinHeight.value;
            1.0 <= (minHeight / naturalHeight).Floor as real &&
            p.ratio <= (minHeight / naturalHeight).Floor as real &&
            p.height <= minHeight
  {
    var minHeight := options.imageMinHeight.value;
    var cap := ZoomCap(naturalHeight, minHeight);
    var ratio := FitRatio(naturalWidth, naturalHeight, viewerData.width, ViewerHeight(viewerData, toolbar),
                          options.initialCoverage, cap);
    assert FitPlacement(naturalWidth, naturalHeight, viewerData, toolbar, options).height == naturalHeight * ratio;
    MulMonotone(ratio, cap as real, naturalHeight);
  }

  /** The fitted image covers at most `initialCoverage` of the viewer width
      and of the viewer height below the toolbar (the full viewport height
      when there is no toolbar). */
  lemma FitWithinCoverage(naturalWidth: real, naturalHeight: real, viewerData: ViewerData,
                          toolbar: Option<Toolbar>, options: Options)
    requires NeedsFit(naturalHeight, options)
    requires 0.0 < naturalWidth && 0.0 < naturalHeight
    ensures var p := FitPlacement(naturalWidth, naturalHeight, viewerData, toolbar, options);
            p.width <= viewerData.width * options.initialCoverage &&
            (toolbar.None? ==> p.height <= viewerData.height * options.initialCoverage) &&
            (toolbar.Some? ==>
               p.height <= (viewerData.height - toolbar.value.clientHeight) * options.initialCoverage)
  {
    var cap := ZoomCap(naturalHeight, options.imageMinHeight.value);
    var ratio := FitRatio(naturalWidth, naturalHeight, viewerData.width, ViewerHeight(viewerData, toolbar),
                          options.initialCoverage, cap);
    assert Admissible(ratio, naturalWidth, naturalHeight, viewerData.width, ViewerHeight(viewerData, toolbar),
                      options.initialCoverage, cap);
  }

  /** Scaling both sides by one ratio keeps their proportion. */
  lemma PlaceKeepsAspect(naturalWidth: real, naturalHeight: real,
                         viewerWidth: real, viewerHeight: real, ratio: real)
    requires 0.0 < naturalWidth && 0.0 < naturalHeight
    ensures var p := Place(naturalWidth, naturalHeight, viewerWidth, viewerHeight, ratio);
            p.width * naturalHeight == p.height * naturalWidth &&
            (p.height != 0.0 ==> p.width / p.height == naturalWidth / naturalHeight)
  {
    var w, h := naturalWidth * ratio, naturalHeight * ratio;
    assert w * naturalHeight == h * naturalWidth;
    if h != 0.0 {
      CrossMultiplied(w, h, naturalWidth, naturalHeight);
    }
  }

  /** `w / h == a / b` whenever `w * b == h * a`, for non-zero `h` and `b`. */
  lemma CrossMultiplied(w: real, h: real, a: real, b: real)
    requires h != 0.0 && b != 0.0 && w * b == h * a
    ensures w / h == a / b
  {
    var u, v := w / h, a / b;
    assert u * h == w;
    assert v * b == a;
    assert (u - v) * (h * b) == u * h * b - v * b * h;
    assert (u - v) * (h * b) == 0.0;
    assert h * b != 0.0;
  }

  /** Width and height are scaled by the same factor, so the aspect ratio
      of the natural image is kept.  The cross-multiplied equation is a
      corollary of the `FitPlacement` contract; the quotient form needs
      `CrossMultiplied`. */
  lemma FitPreservesAspect(naturalWidth: real, naturalHeight: real, viewerData: ViewerData,
                           toolbar: Option<Toolbar>, options: Options)
    requires NeedsFit(naturalHeight, options)
    requires 0.0 < naturalWidth && 0.0 < naturalHeight
    ensures var p := FitPlacement(naturalWidth, naturalHeight, viewerData, toolbar, options);
            p.width * naturalHeight == p.height * naturalWidth &&
            (p.height != 0.0 ==> p.width / p.height == naturalWidth / naturalHeight)
  {
    var cap := ZoomCap(naturalHeight, options.imageMinHeight.value);
    var ratio := FitRatio(naturalWidth, naturalHeight, viewerData.width, ViewerHeight(viewerData, toolbar),
                          options.initialCoverage, cap);
    PlaceKeepsAspect(naturalWidth, naturalHeight, viewerData.width, ViewerHeight(viewerData, toolbar), ratio);
  }

  /** The fitted image is centred in the area below the toolbar, in the
      source's own form `x = (viewerWidth - width) / 2` and
      `y = (viewerHeight - height) / 2`; so the margin on the left equals the
      one on the right, the one above equals the one below.  A corollary of
      the centring clauses of the `FitPlacement` contract. */
  lemma FitIsCentred(naturalWidth: real, naturalHeight: real, viewerData: ViewerData,
                     toolbar: Option<Toolbar>, options: Options)
    requires NeedsFit(naturalHeight, options)
    requires 0.0 < naturalWidth && 0.0 < naturalHeight
    ensures var p := FitPlacement(naturalWidth, naturalHeight, viewerData, toolbar, options);
            p.x == (viewerData.width - p.width) / 2.0 &&
            p.y == (viewerData.height - ToolbarHeight(toolbar) - p.height) / 2.0
    ensures var p := FitPlacement(naturalWidth, naturalHeight, viewerData, toolbar, options);
            p.x == viewerData.width - (p.x + p.width) &&
            p.y == viewerData.height - ToolbarHeight(toolbar) - (p.y + p.height)
  {
  }

  /** The guard decides whether the patched step changes anything: when it
      holds, some placement the viewer could have computed is replaced; when
      it does not, every placement is kept. */
  lemma GuardDecidesChange(naturalWidth: real, naturalHeight: real, viewerData: ViewerData,
                           toolbar: Option<Toolbar>, options: Options)
    requires WellFormed(naturalWidth, naturalHeight, options)
    ensures NeedsFit(naturalHeight, options) <==>
            exists current: Placement ::
              AfterInit(current, naturalWidth, naturalHeight, viewerData, toolbar, options) != current
  {
    if NeedsFit(naturalHeight, options) {
      var p := FitPlacement(naturalWidth, naturalHeight, viewerData, toolbar, options);
      var other := p.(ratio := p.ratio + 1.0);
      assert AfterInit(other, naturalWidth, naturalHeight, viewerData, toolbar, options) != other;
    }
  }

  /** When the viewer has room for the full integer enlargement, the image
      is shown at exactly that whole factor, so its pixels stay on pixel
      boundaries. */
  lemma FitUsesWholeZoomWhenRoomy(naturalWidth: real, naturalHeight: real, viewerData: ViewerData,
                                  toolbar: Option<Toolbar>, options: Options)
    requires NeedsFit(naturalHeight, options)
    requires 0.0 < naturalWidth && 0.0 < naturalHeight
    requires var cap := (options.imageMinHeight.value / naturalHeight).Floor as real;
             naturalWidth * cap <= viewerData.width * options.initialCoverage &&
             naturalHeight * cap <= ViewerHeight(viewerData, toolbar) * options.initialCoverage
    ensures var p := FitPlacement(naturalWidth, naturalHeight, viewerData, toolbar, options);
            p.ratio == (options.imageMinHeight.value / naturalHeight).Floor as real &&
            p.height == naturalHeight * (options.imageMinHeight.value / naturalHeight).Floor as real
  {
    var vw, vh := viewerData.width, ViewerHeight(viewerData, toolbar);
    var cap := ZoomCap(naturalHeight, options.imageMinHeight.value);
    var ratio := FitRatio(naturalWidth, naturalHeight, vw, vh, options.initialCoverage, cap);
    assert Admissible(cap as real, naturalWidth, naturalHeight, vw, vh, options.initialCoverage, cap);
    assert ratio == cap as real;
  }

  /** Images at or above `imageMinHeight`, or a viewer without that option
      (absent or 0), keep the placement the viewer already computed. */
  lemma AfterInitKeepsLargeImages(current: Placement, naturalWidth: real, naturalHeight: real,
                                  viewerData: ViewerData, toolbar: Option<Toolbar>, options: Options)
    requires options.imageMinHeight.None? || options.imageMinHeight.value == 0.0 ||
             naturalHeight >= options.imageMinHeight.value
    ensures AfterInit(current, naturalWidth, naturalHeight, viewerData, toolbar, options) == current
  {
  }

  /** Re-running the patched step changes nothing: it reads only the
      natural sizes, the viewer data and the options, never the placement
      it writes. */
  lemma AfterInitIdempotent(current: Placement, naturalWidth: real, naturalHeight: real,
                            viewerData: ViewerData, toolbar: Option<Toolbar>, options: Options)
    requires WellFormed(naturalWidth, naturalHeight, options)
    ensures var once := AfterInit(current, naturalWidth, naturalHeight, viewerData, toolbar, options);
            AfterInit(once, naturalWidth, naturalHeight, viewerData, toolbar, options) == once
  {
  }

  /** A 64x64 image in an 800x600 viewer with no toolbar, minimum height
      768 and coverage 0.9: the cap is 12, the width fit 11.25 and the
      height fit 8.4375, so the image is shown 540 pixels square, 130 from
      the left and 30 from the top. */
  lemma FitExampleSquareIcon()
    ensures FitPlacement(64.0, 64.0, ViewerData(800.0, 600.0), None, Options(Some(768.0), 0.9))
            == Placement(8.4375, 540.0, 540.0, 130.0, 30.0)
  {
    assert (768.0 / 64.0).Floor == 12;
    assert FitRatio(64.0, 64.0, 800.0, 600.0, 0.9, 12) == 8.4375;
  }

  /** A toolbar taller than the viewport: the source does not clamp the
      height below it, so the height fit, and with it the ratio, is negative. */
  lemma FitExampleToolbarTallerThanViewer()
    ensures var p := FitPlacement(64.0, 64.0, ViewerData(800.0, 30.0), Some(Toolbar(40.0)), Options(Some(768.0), 0.9));
            p.ratio == -0.140625 && p.height < 0.0
  {
    assert (768.0 / 64.0).Floor == 12;
    assert FitRatio(64.0, 64.0, 800.0, -10.0, 0.9, 12) == -0.140625;
  }

  // ---------------------------------------------------------------------
  // The viewer's state

  /** `viewer.imageData`: the natural size of the shown image and the
      geometry the viewer will paint it with. */
  class ImageData {
    var naturalWidth: real
    var naturalHeight: real
    var ratio: real
    var width: real
    var height: real
    var x: real
    var y: real

    constructor (naturalWidth: real, naturalHeight: real, placement: Placement)
      ensures this.naturalWidth == naturalWidth && this.naturalHeight == naturalHeight
      ensures Current() == placement
    {
      this.naturalWidth := naturalWidth;
      this.naturalHeight := naturalHeight;
      ratio := placement.ratio;
      width := placement.width;
      height := placement.height;
      x := placement.x;
      y := placement.y;
    }

    /** The five geometry fields as one value. */
    function Current(): Placement
      reads this
    {
      Placement(ratio, width, height, x, y)
    }
  }

  /** The parts of the viewer (`this` inside the patched `initImage`) that the
      fit step reads or writes. */
  class Viewer {
    var imageData: ImageData
    var viewerData: ViewerData
    var toolbar: Option<Toolbar>
    var options: Options

    constructor (imageData: ImageData, viewerData: ViewerData, toolbar: Option<Toolbar>, options: Options)
      ensures this.imageData == imageData && this.viewerData == viewerData
      ensures this.toolbar == toolbar && this.options == options
    {
      this.imageData := imageData;
      this.viewerData := viewerData;
      this.toolbar := toolbar;
      this.options := options;
    }

    /** The callback the patched `initImage` hands to the original one: for
        a small image it overwrites ratio, width, height, x and y of
        `imageData`; everything else, including the natural sizes, the
        viewer data and the options, stays as it was. */
    method ApplyFit()
      requires WellFormed(imageData.naturalWidth, imageData.naturalHeight, options)
      modifies imageData
      ensures unchanged(this)
      ensures imageData.naturalWidth == old(imageData.naturalWidth)
      ensures imageData.naturalHeight == old(imageData.naturalHeight)
      ensures imageData.Current() ==
              AfterInit(old(imageData.Current()), imageData.naturalWidth, imageData.naturalHeight,
                        viewerData, toolbar, options)
      ensures !NeedsFit(imageData.naturalHeight, options) ==> unchanged(imageData)
    {
      if options.imageMinHeight.Some? && options.imageMinHeight.value != 0.0 &&
         imageData.naturalHeight < options.imageMinHeight.value
      {
        var toolbarHeight := if toolbar.Some? then toolbar.value.clientHeight else 0.0;
        var viewerWidth := viewerData.width;
        var viewerHeight := viewerData.height - toolbarHeight;

        var initialZoomRatio := (options.imageMinHeight.value / imageData.naturalHeight).Floor;

        var ratio := FitRatio(imageData.naturalWidth, imageData.naturalHeight,
                              viewerWidth, viewerHeight, options.initialCoverage, initialZoomRatio);
        imageData.ratio := ratio;
        imageData.width := imageData.naturalWidth * ratio;
        imageData.height := imageData.naturalHeight * ratio;
        imageData.x := (viewerWidth - imageData.width) / 2.0;
        imageData.y := (viewerHeight - imageData.height) / 2.0;
        assert imageData.Current() ==
               Place(imageData.naturalWidth, imageData.naturalHeight, viewerWidth, viewerHeight, ratio);
      }
    }
  }

  /** Showing an image twice runs the fit step twice; the second run leaves
      the geometry exactly as the first one set it. */
  method ApplyFitTwice(viewer: Viewer)
    requires WellFormed(viewer.imageData.naturalWidth, viewer.imageData.naturalHeight, viewer.options)
    modifies viewer.imageData
    ensures viewer.imageData.naturalWidth == old(viewer.imageData.naturalWidth)
    ensures viewer.imageData.naturalHeight == old(viewer.imageData.naturalHeight)
    ensures viewer.imageData.Current() ==
            AfterInit(old(viewer.imageData.Current()), viewer.imageData.naturalWidth,
                      viewer.imageData.naturalHeight, viewer.viewerData, viewer.toolbar, viewer.options)
  {
    viewer.ApplyFit();
    viewer.ApplyFit();
    AfterInitIdempotent(old(viewer.imageData.Current()), viewer.imageData.naturalWidth,
                        viewer.imageData.naturalHeight, viewer.viewerData, viewer.toolbar, viewer.options);
  }
}
