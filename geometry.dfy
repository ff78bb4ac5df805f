/** The viewport geometry of the scalable image, over plain values: how a
    viewport extent follows from an allocation and a scale, where the viewport
    is placed on an axis, how the fit-to-window scale is chosen, how a zoom
    around an anchor and a pan move the origin, and what a scrollbar
    adjustment is rewritten to. The widget's methods are specified in these
    terms; the lemmas here are the properties of the rules themselves.

    Every rule is stated for one axis (`pos` a viewport origin, `view` a
    viewport extent, `extent` the image's extent on that axis); `Resize`,
    `Arrange` and `Pulled` lift them to the viewport rectangle. */
module Geometry {
  import opened Numerics

  /** A size in pixels: a `GtkRequisition`, or the width and height of an
      allocation. */
  datatype Size = Size(width: nat, height: nat)

  /** A `GdkRectangle`; the viewport's is in image coordinates. */
  datatype Rect = Rect(x: int, y: int, width: int, height: int)

  /** The numeric fields of a `GtkAdjustment`. */
  datatype Range = Range(value: real, lower: real, upper: real,
                         stepIncrement: real, pageIncrement: real, pageSize: real)

  datatype Axis = Horizontal | Vertical

  // ---------------------------------------------------------------------------
  // Viewport size

  /** `allocation / scale` stored into a `gint`: the whole number of image
      pixels covered by `alloc` screen pixels at `scale`. */
  function ViewportExtent(alloc: nat, scale: real): (v: nat)
    requires scale > 0.0
    ensures v as real <= alloc as real / scale < v as real + 1.0
  {
    assert alloc as real / scale >= 0.0 by { QuotientSign(alloc as real, scale); }
    Trunc(alloc as real / scale)
  }

  /** A quotient by a positive number keeps the sign of the dividend. */
  lemma QuotientSign(a: real, s: real)
    requires s > 0.0
    ensures a >= 0.0 ==> a / s >= 0.0
    ensures a < 0.0 ==> a / s < 0.0
  {
  }

  /** The viewport extent is the largest whole number of image pixels whose
      on-screen size at `scale` does not exceed the allocation. */
  lemma ViewportExtentFillsAllocation(alloc: nat, scale: real)
    requires scale > 0.0
    ensures ViewportExtent(alloc, scale) as real * scale <= alloc as real
    ensures alloc as real < (ViewportExtent(alloc, scale) as real + 1.0) * scale
  {
    var v := ViewportExtent(alloc, scale) as real;
    var q := alloc as real / scale;
    assert q * scale == alloc as real;
    MultiplyRight(v, q, scale);
    var w := v + 1.0;
    MultiplyRightStrict(q, w, scale);
    assert alloc as real < w * scale;
    assert w * scale == (ViewportExtent(alloc, scale) as real + 1.0) * scale;
  }

  lemma MultiplyRight(a: real, b: real, s: real)
    requires a <= b && s > 0.0
    ensures a * s <= b * s
  {
  }

  lemma MultiplyRightStrict(a: real, b: real, s: real)
    requires a < b && s > 0.0
    ensures a * s < b * s
  {
  }

  /** `update_viewport_size` on a rectangle: both extents recomputed from the
      allocation, the origin kept. */
  function Resize(vp: Rect, alloc: Size, scale: real): Rect
    requires scale > 0.0
  {
    vp.(width := ViewportExtent(alloc.width, scale), height := ViewportExtent(alloc.height, scale))
  }

  // ---------------------------------------------------------------------------
  // Viewport position

  /** `-(view - extent) / 2` in C: the origin that centres `extent` image
      pixels in a wider viewport. The margin left over on the near side is
      never larger than the far one and at most one pixel smaller. */
  function CentredOrigin(view: int, extent: int): (x: int)
    requires view > extent
    ensures x <= 0
    ensures -x <= x + view - extent <= -x + 1
  {
    CHalve(-(view - extent))
  }

  /** The position rule of `adjust_viewport_position` on one axis: a viewport
      strictly wider than the image is centred on it; otherwise the origin is
      left exactly where it was (the clamp the code computes there is
      discarded). */
  function AdjustedOrigin(pos: int, view: int, extent: int): (x: int)
    ensures view > extent ==> x <= 0 && -x <= x + view - extent <= -x + 1
    ensures view <= extent ==> x == pos
  {
    if view > extent then CentredOrigin(view, extent) else pos
  }

  /** The position rule applied to both axes of a viewport, against an image
      of size `n` (`Size(0, 0)` when there is none). */
  function Arrange(vp: Rect, n: Size): Rect
  {
    vp.(x := AdjustedOrigin(vp.x, vp.width, n.width), y := AdjustedOrigin(vp.y, vp.height, n.height))
  }

  /** Applying the position rule a second time changes nothing. */
  lemma ArrangeIdempotent(vp: Rect, n: Size)
    ensures Arrange(Arrange(vp, n), n) == Arrange(vp, n)
    ensures Arrange(vp, n).width == vp.width && Arrange(vp, n).height == vp.height
  {
  }

  /** The value-changed handler on a rectangle: the origin on `axis` is taken
      from the adjustment's value, truncated, and the position rule is
      applied to both axes. */
  function Pulled(vp: Rect, axis: Axis, value: real, n: Size): Rect
  {
    Arrange(if axis == Horizontal then vp.(x := Trunc(value)) else vp.(y := Trunc(value)), n)
  }

  // ---------------------------------------------------------------------------
  // Panning

  /** `translate` on one axis. Where the image is wider than the viewport the
      origin moves by `delta` and stops at either edge of the image; where
      the two are equal it stays put; where the viewport is wider it is
      centred and `delta` is ignored. */
  function PannedOrigin(pos: int, delta: int, view: int, extent: int): (x: int)
    ensures view < extent ==> 0 <= x <= extent - view
    ensures view < extent && 0 <= pos + delta <= extent - view ==> x == pos + delta
    ensures view < extent && pos + delta > extent - view ==> x == extent - view
    ensures view < extent && pos + delta < 0 ==> x == 0
    ensures view == extent ==> x == pos
    ensures view > extent ==> x <= 0 && -x <= x + view - extent <= -x + 1
  {
    if view < extent then Clamp(pos + delta, 0, extent - view) else AdjustedOrigin(pos, view, extent)
  }

  // ---------------------------------------------------------------------------
  // Zoom around an anchor

  /** How far `set_scale_at_point` moves the origin on one axis: the image
      offset of the anchor at the old scale minus that at the new scale, each
      truncated to a `gint`. */
  function ZoomShift(anchor: int, oldScale: real, newScale: real): int
    requires oldScale > 0.0 && newScale > 0.0
  {
    Trunc(anchor as real / oldScale) - Trunc(anchor as real / newScale)
  }

  /** The image point shown at screen offset `anchor` from the viewport's
      origin `pos` at `scale`. */
  function ImagePointAt(pos: int, anchor: int, scale: real): real
    requires scale > 0.0
  {
    pos as real + anchor as real / scale
  }

  /** Zooming from `s0` to `s1` around `anchor` keeps the image point under
      the anchor fixed to within less than one image pixel, before the
      position rule possibly re-centres the viewport. */
  lemma ZoomKeepsAnchorPoint(pos: int, anchor: int, s0: real, s1: real)
    requires s0 > 0.0 && s1 > 0.0
    ensures -1.0 < ImagePointAt(pos + ZoomShift(anchor, s0, s1), anchor, s1)
                   - ImagePointAt(pos, anchor, s0) < 1.0
  {
    var q0, q1 := anchor as real / s0, anchor as real / s1;
    var t0, t1 := Trunc(q0), Trunc(q1);
    QuotientSign(anchor as real, s0);
    QuotientSign(anchor as real, s1);
    assert ImagePointAt(pos + ZoomShift(anchor, s0, s1), anchor, s1) - ImagePointAt(pos, anchor, s0)
        == (t0 as real - q0) - (t1 as real - q1);
  }

  // ---------------------------------------------------------------------------
  // Fit to window

  /** The fit-to-window scale: the smaller of the two ratios of allocated to
      image size. */
  function FitScale(alloc: Size, width: int, height: int): (f: real)
    requires width >= 1 && height >= 1
    ensures f <= alloc.width as real / width as real && f <= alloc.height as real / height as real
    ensures f == alloc.width as real / width as real || f == alloc.height as real / height as real
  {
    Min(alloc.width as real / width as real, alloc.height as real / height as real)
  }

  /** The fit scale is usable (positive) exactly when the allocation is
      non-empty on both axes. */
  lemma FitScalePositive(alloc: Size, width: int, height: int)
    requires width >= 1 && height >= 1
    ensures FitScale(alloc, width, height) > 0.0 <==> alloc.width > 0 && alloc.height > 0
  {
    QuotientSign(alloc.width as real, width as real);
    QuotientSign(alloc.height as real, height as real);
    if alloc.width > 0 {
      PositiveQuotient(alloc.width as real, width as real);
    }
    if alloc.height > 0 {
      PositiveQuotient(alloc.height as real, height as real);
    }
  }

  lemma PositiveQuotient(a: real, s: real)
    requires a > 0.0 && s > 0.0
    ensures a / s > 0.0
  {
  }

  /** At the fit scale the viewport covers the whole image on both axes, and
      exactly covers it on at least one. */
  lemma FitShowsWholeImage(alloc: Size, width: int, height: int)
    requires width >= 1 && height >= 1
    requires FitScale(alloc, width, height) > 0.0
    ensures ViewportExtent(alloc.width, FitScale(alloc, width, height)) >= width
    ensures ViewportExtent(alloc.height, FitScale(alloc, width, height)) >= height
    ensures ViewportExtent(alloc.width, FitScale(alloc, width, height)) == width
         || ViewportExtent(alloc.height, FitScale(alloc, width, height)) == height
  {
    var f := FitScale(alloc, width, height);
    CoversWhenScaledBelowRatio(alloc.width, width, f);
    CoversWhenScaledBelowRatio(alloc.height, height, f);
    if f == alloc.width as real / width as real {
      ExactWhenScaledAtRatio(alloc.width, width);
    } else {
      ExactWhenScaledAtRatio(alloc.height, height);
    }
  }

  /** A scale no larger than `alloc / extent` leaves room for `extent` image
      pixels. */
  lemma CoversWhenScaledBelowRatio(alloc: nat, extent: int, f: real)
    requires extent >= 1 && f > 0.0
    requires f <= alloc as real / extent as real
    ensures ViewportExtent(alloc, f) >= extent
  {
    var r := alloc as real / extent as real;
    assert r * extent as real == alloc as real;
    assert f * extent as real <= alloc as real by { MultiplyRight(f, r, extent as real); }
    var q := alloc as real / f;
    assert q * f == alloc as real;
    assert extent as real * f <= q * f;
    if q < extent as real {
      MultiplyRightStrict(q, extent as real, f);
      assert false;
    }
    assert ViewportExtent(alloc, f) as real + 1.0 > extent as real;
  }

  /** At the scale `alloc / extent` the viewport is exactly `extent` pixels. */
  lemma ExactWhenScaledAtRatio(alloc: nat, extent: int)
    requires extent >= 1 && alloc > 0
    ensures alloc as real / extent as real > 0.0
    ensures ViewportExtent(alloc, alloc as real / extent as real) == extent
  {
    var f := alloc as real / extent as real;
    PositiveQuotient(alloc as real, extent as real);
    assert f * extent as real == alloc as real;
    assert alloc as real / f == extent as real;
    TruncOfInt(extent);
  }

  /** At the fit scale the image, drawn whole, fits inside the allocation:
      its on-screen size (the widget's minimum size) does not exceed the
      allocated size on either axis. */
  lemma FitImageFitsAllocation(alloc: Size, width: int, height: int)
    requires width >= 1 && height >= 1
    ensures Trunc(FitScale(alloc, width, height) * width as real) <= alloc.width
    ensures Trunc(FitScale(alloc, width, height) * height as real) <= alloc.height
  {
    var f := FitScale(alloc, width, height);
    ScaledWithinAllocation(alloc.width, width, f);
    ScaledWithinAllocation(alloc.height, height, f);
  }

  /** A scale no larger than `alloc / extent` draws `extent` pixels in at
      most `alloc` screen pixels. */
  lemma ScaledWithinAllocation(alloc: nat, extent: int, f: real)
    requires extent >= 1 && f <= alloc as real / extent as real
    ensures Trunc(f * extent as real) <= alloc
  {
    var r := alloc as real / extent as real;
    assert r * extent as real == alloc as real;
    MultiplyRight(f, r, extent as real);
    TruncAtMost(f * extent as real, alloc);
  }

  lemma TruncAtMost(r: real, n: nat)
    requires r <= n as real
    ensures Trunc(r) <= n
  {
  }

  // ---------------------------------------------------------------------------
  // Adjustments

  /** What `reset_adjustments` writes into one adjustment: with an image, the
      origin clamped into the scrollable span, the image extent as the upper
      bound, the viewport extent as the page and half of it as the page
      increment; without one, zeros. The lower bound and the step increment
      are written back as they were. */
  function RepublishedRange(r: Range, hasImage: bool, pos: int, view: int, extent: int): (r': Range)
    ensures r'.lower == r.lower && r'.stepIncrement == r.stepIncrement
    ensures r'.pageIncrement == r'.pageSize / 2.0
    ensures hasImage ==> r'.upper == extent as real && r'.pageSize == view as real
    ensures hasImage ==> r'.value == Clamp(pos, 0, extent - view) as real
    ensures hasImage && view <= extent ==> 0.0 <= r'.value <= (extent - view) as real
    ensures hasImage && 0 <= pos <= extent - view ==> r'.value == pos as real
    ensures !hasImage ==> r'.value == 0.0 && r'.upper == 0.0 && r'.pageSize == 0.0
  {
    var value := if hasImage then Clamp(pos, 0, extent - view) as real else 0.0;
    var upper := if hasImage then extent as real else 0.0;
    var pageSize := if hasImage then view as real else 0.0;
    r.(value := value, upper := upper, pageIncrement := pageSize * 0.5, pageSize := pageSize)
  }

  /** On an axis where the viewport is centred, the value the widget passes
      to `gtk_adjustment_configure` is not the viewport's origin: the clamp's
      upper bound `extent - view` is negative and wins, while the origin is
      `-((view - extent) / 2)`. So an adjustment holding the value as passed
      does not mirror a centred viewport. */
  lemma CentredAxisIsNotMirrored(r: Range, view: int, extent: int)
    requires view > extent
    ensures RepublishedRange(r, true, CentredOrigin(view, extent), view, extent).value
         == (extent - view) as real
    ensures RepublishedRange(r, true, CentredOrigin(view, extent), view, extent).value
         != CentredOrigin(view, extent) as real
  {
  }

  /** The two directions of synchronisation settle after one exchange: if the
      republished value is fed back through the value-changed rule and the
      adjustment republished again, a further exchange reproduces the same
      origin and the same adjustment. */
  lemma {:induction false} ExchangeSettles(r: Range, pos: int, view: int, extent: int)
    ensures var r1 := RepublishedRange(r, true, pos, view, extent);
            var p1 := AdjustedOrigin(Trunc(r1.value), view, extent);
            var r2 := RepublishedRange(r1, true, p1, view, extent);
            var p2 := AdjustedOrigin(Trunc(r2.value), view, extent);
            p2 == p1 && RepublishedRange(r2, true, p2, view, extent) == r2
  {
    var r1 := RepublishedRange(r, true, pos, view, extent);
    TruncOfInt(Clamp(pos, 0, extent - view));
    var p1 := AdjustedOrigin(Trunc(r1.value), view, extent);
    var r2 := RepublishedRange(r1, true, p1, view, extent);
    TruncOfInt(Clamp(p1, 0, extent - view));
  }
}
