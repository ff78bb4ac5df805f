/** Clients of the widget: its behaviour over several calls, and
    the host's side of the adjustment signals (a scrollbar drag, and the
    value-changed notifications GTK sends back when the widget writes an
    adjustment), each proved from the widget's contracts alone. */
module Scenarios {
  import opened Numerics
  import opened Geometry
  import opened ScalableImage

  /** An 800x600 image in a 400x300 allocation, in fit mode: the scale
      becomes 0.5, the viewport is exactly the image, the minimum size is
      400x300, and the adjustments span the image with a full page. */
  method FitToWindowExample() returns (w: ScalableImage)
    ensures w.Valid() && w.scale == 0.5 && w.isFitting
    ensures w.viewport == Rect(0, 0, 800, 600)
    ensures w.MinimumSize() == Size(400, 300)
    ensures w.hadjustment.range == Range(0.0, 0.0, 800.0, DefaultStepIncrement, 400.0, 800.0)
    ensures w.vadjustment.range == Range(0.0, 0.0, 600.0, DefaultStepIncrement, 300.0, 600.0)
  {
    var p := new Pixbuf(800, 600);
    w := NewFromPixbuf(p);
    w.Realize();
    assert FitScale(Size(400, 300), 800, 600) == 0.5;
    assert ViewportExtent(400, 0.5) == 800 && ViewportExtent(300, 0.5) == 600;
    w.SizeAllocate(Size(400, 300));
    assert Trunc(0.5 * 800 as real) == 400 && Trunc(0.5 * 600 as real) == 300;
  }

  /** The same image at a fixed scale of 1 in a 400x300 allocation: the
      viewport is 400x300, and panning right by 1000 stops at the image's
      right edge, x = 800 - 400. */
  method PanToEdgeExample() returns (w: ScalableImage)
    ensures w.Valid() && w.scale == 1.0 && !w.isFitting
    ensures w.viewport == Rect(400, 0, 400, 300)
    ensures w.hadjustment.range.value == 400.0
  {
    var p := new Pixbuf(800, 600);
    w := NewFromPixbuf(p);
    w.SetScale(1.0);
    assert ViewportExtent(400, 1.0) == 400 && ViewportExtent(300, 1.0) == 300;
    w.SizeAllocate(Size(400, 300));
    w.Translate(1000, 0);
  }

  /** Without an image both size requests are empty and, after any scale and
      allocation, both adjustments collapse to zero. */
  method NoImageExample(s: real, a: Size) returns (w: ScalableImage)
    requires s > 0.0
    ensures w.Valid() && w.image == null
    ensures w.MinimumSize() == NaturalOf(w.image) == Size(0, 0)
    ensures w.hadjustment.range.value == 0.0 && w.hadjustment.range.upper == 0.0
    ensures w.hadjustment.range.pageSize == 0.0
    ensures w.vadjustment.range.value == 0.0 && w.vadjustment.range.upper == 0.0
    ensures w.vadjustment.range.pageSize == 0.0
  {
    w := new ScalableImage();
    w.SetScale(s);
    w.SizeAllocate(a);
  }

  /** After `SetScale(s)` and an allocation, the viewport is the allocation
      divided by `s`, recomputed from the allocation, whatever the viewport
      was before (ViewportExtentFillsAllocation says what that size is). */
  method ScaleThenAllocate(w: ScalableImage, s: real, a: Size)
    requires w.Valid() && s > 0.0
    modifies w, w.hadjustment, w.vadjustment
    ensures w.Valid() && w.scale == s && !w.isFitting
    ensures w.viewport.width == ViewportExtent(a.width, s)
    ensures w.viewport.height == ViewportExtent(a.height, s)
  {
    w.SetScale(s);
    w.SizeAllocate(a);
  }

  /** In fit mode each allocation re-derives the scale: after two
      allocations the scale is the fit scale of the second one alone, and
      the viewport shows the whole image. */
  method RefitOnEveryAllocation(w: ScalableImage, a1: Size, a2: Size)
    requires w.Valid() && w.isFitting && w.image != null
    requires a2.width > 0 && a2.height > 0
    modifies w, w.hadjustment, w.vadjustment
    ensures w.image == old(w.image)
    ensures w.Valid() && w.isFitting && w.allocation == a2
    ensures w.scale == FitScale(a2, w.image.width, w.image.height)
    ensures w.viewport.width >= w.image.width && w.viewport.height >= w.image.height
  {
    FitScalePositive(a2, w.image.width, w.image.height);
    FitShowsWholeImage(a2, w.image.width, w.image.height);
    w.SizeAllocate(a1);
    w.SizeAllocate(a2);
  }

  /** Zooming around a screen point keeps the image point under it to
      within one image pixel, on an axis the new viewport does not cover. */
  method ZoomAroundPoint(w: ScalableImage, s: real, ax: int, ay: int)
    requires w.Valid() && w.image != null && s > 0.0
    requires ViewportExtent(w.allocation.width, s) <= w.image.width
    requires ViewportExtent(w.allocation.height, s) <= w.image.height
    modifies w, w.hadjustment, w.vadjustment
    ensures w.Valid() && w.scale == s
    ensures -1.0 < ImagePointAt(w.viewport.x, ax, s) - ImagePointAt(old(w.viewport.x), ax, old(w.scale)) < 1.0
    ensures -1.0 < ImagePointAt(w.viewport.y, ay, s) - ImagePointAt(old(w.viewport.y), ay, old(w.scale)) < 1.0
  {
    ZoomKeepsAnchorPoint(w.viewport.x, ax, w.scale, s);
    ZoomKeepsAnchorPoint(w.viewport.y, ay, w.scale, s);
    w.SetScaleAtPoint(s, ax, ay);
  }

  /** The container moves the horizontal scrollbar to `v` and emits
      value-changed: the viewport follows on an axis smaller than the image,
      and the adjustment is not written back. */
  method ScrollbarDrag(w: ScalableImage, v: real)
    requires w.Valid() && w.image != null && w.viewport.width <= w.image.width
    modifies w, w.hadjustment
    ensures w.image == old(w.image)
    ensures w.Valid()
    ensures w.viewport.x == Trunc(v)
    ensures w.viewport.y == AdjustedOrigin(old(w.viewport.y), w.viewport.height, w.image.height)
    ensures w.viewport.width == old(w.viewport.width) && w.viewport.height == old(w.viewport.height)
    ensures w.hadjustment.range == old(w.hadjustment.range).(value := v)
  {
    w.hadjustment.range := w.hadjustment.range.(value := v);
    w.OnAdjustmentValueChanged(w.hadjustment);
  }

  /** `Translate` followed by the value-changed notifications its two
      adjustment writes cause: the handler finds the viewport already where
      the write put it, so the notifications move nothing. */
  method TranslateAndNotify(w: ScalableImage, dx: int, dy: int)
    requires w.Valid() && w.image != null && w.hadjustment != w.vadjustment
    modifies w, w.hadjustment, w.vadjustment
    ensures w.image == old(w.image)
    ensures w.Valid()
    ensures w.viewport == old(w.viewport).(
              x := PannedOrigin(old(w.viewport.x), dx, w.viewport.width, w.image.width),
              y := PannedOrigin(old(w.viewport.y), dy, w.viewport.height, w.image.height))
  {
    w.Translate(dx, dy);
    ghost var panned := w.viewport;
    if w.viewport.width < w.image.width {
      TruncOfInt(w.viewport.x);
      w.OnAdjustmentValueChanged(w.hadjustment);
    }
    if w.viewport.height < w.image.height {
      TruncOfInt(w.viewport.y);
      w.OnAdjustmentValueChanged(w.vadjustment);
    }
    assert w.viewport == panned;
  }

  /** One adjustment serving both axes, as the container may arrange: a pan
      writes x and then y into it, so it ends holding y. GTK's echo then
      reaches the handler, which tries the horizontal branch first and pulls
      x from that value, so x becomes y. */
  method SharedAdjustmentPan(w: ScalableImage, dx: int, dy: int)
    requires w.Valid() && w.image != null && w.hadjustment == w.vadjustment
    requires w.viewport.width < w.image.width && w.viewport.height < w.image.height
    modifies w, w.hadjustment
    ensures w.image == old(w.image)
    ensures w.Valid()
    ensures w.viewport.y == PannedOrigin(old(w.viewport.y), dy, w.viewport.height, w.image.height)
    ensures w.viewport.x == w.viewport.y
  {
    w.Translate(dx, dy);
    TruncOfInt(w.viewport.y);
    w.OnAdjustmentValueChanged(w.vadjustment);
  }

  /** An 800x600 image at scale 0.25 in a 400x300 allocation is centred at
      (-400, -300). Zooming in to scale 1 makes the viewport 400x300, smaller
      than the image, but the position rule does not clamp, so the origin
      stays outside the image. The values passed to the adjustments are 0;
      a GTK adjustment that already holds 0 sends no value-changed, and
      without that echo nothing moves the origin inside. */
  method ZoomInLeavesOriginOutside() returns (w: ScalableImage)
    ensures w.Valid() && w.scale == 1.0 && w.image != null
    ensures w.image.width == 800 && w.image.height == 600
    ensures w.viewport == Rect(-400, -300, 400, 300)
    ensures w.viewport.width < w.image.width && w.viewport.x < 0
    ensures w.hadjustment.range.value == 0.0 && w.vadjustment.range.value == 0.0
  {
    var p := new Pixbuf(800, 600);
    w := NewFromPixbuf(p);
    w.SetScale(0.25);
    assert ViewportExtent(400, 0.25) == 1600 && ViewportExtent(300, 0.25) == 1200;
    w.SizeAllocate(Size(400, 300));
    assert w.viewport == Rect(-400, -300, 1600, 1200);
    assert ViewportExtent(400, 1.0) == 400 && ViewportExtent(300, 1.0) == 300;
    w.SetScale(1.0);
  }

  /** `SetScale` followed by the value-changed notifications of the two
      adjustments it configured, every write echoed. The position clamp the
      position rule discards takes effect through them: on an axis the
      viewport does not overfill, the origin ends inside the image and the
      adjustment's value mirrors it; on an axis it overfills, the viewport
      is centred. GTK echoes only a write that changes the value it stores,
      so this is the outcome only when both writes are echoed
      (`ZoomInLeavesOriginOutside` shows a case where they are not). */
  method SetScaleAndNotify(w: ScalableImage, s: real)
    requires w.Valid() && w.image != null && w.hadjustment != w.vadjustment && s > 0.0
    modifies w, w.hadjustment, w.vadjustment
    ensures w.image == old(w.image)
    ensures w.Valid() && w.scale == s
    ensures w.viewport.width <= w.image.width ==>
              0 <= w.viewport.x <= w.image.width - w.viewport.width
              && w.hadjustment.range.value == w.viewport.x as real
    ensures w.viewport.height <= w.image.height ==>
              0 <= w.viewport.y <= w.image.height - w.viewport.height
              && w.vadjustment.range.value == w.viewport.y as real
    ensures w.viewport.width > w.image.width ==>
              w.viewport.x == CentredOrigin(w.viewport.width, w.image.width)
    ensures w.viewport.height > w.image.height ==>
              w.viewport.y == CentredOrigin(w.viewport.height, w.image.height)
  {
    w.SetScale(s);
    TruncOfInt(Clamp(w.viewport.x, 0, w.image.width - w.viewport.width));
    w.OnAdjustmentValueChanged(w.hadjustment);
    TruncOfInt(Clamp(w.viewport.y, 0, w.image.height - w.viewport.height));
    w.OnAdjustmentValueChanged(w.vadjustment);
  }
}
