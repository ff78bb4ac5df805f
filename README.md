# GtkScalableImage viewport engine, in Dafny

`GtkScalableImage` is a GTK 3 widget that shows a `GdkPixbuf` at an
adjustable scale inside a scrollable container. Everything except drawing
is one small engine, and this project models it:

- the widget keeps a **viewport**, a rectangle in image coordinates;
- its size is the widget's allocation divided by the **scale**;
- its origin follows the horizontal and vertical **adjustments** that the
  scrolling container shares with the widget;
- in **fit mode** every allocation re-derives the scale so that the whole
  image shows.

The model is in four files:

| file | module | contents |
|---|---|---|
| `numerics.dfy` | `Numerics` | the C and GLib arithmetic the engine uses: `(gint)` truncation toward zero, C's `/ 2` on `gint`, and the `CLAMP` and `MIN` macros, each stated exactly |
| `geometry.dfy` | `Geometry` | the engine's rules as pure functions, with the lemmas about them: viewport extent from allocation and scale, the position rule (centring on an axis the viewport overfills), panning, zoom around a point, the fit scale, and what the adjustments are configured to |
| `scalable_image.dfy` | `ScalableImage` | the widget struct as a class whose fields the operations update in place. `GdkPixbuf` and `GtkAdjustment` are classes too, so the C code's comparisons of object addresses become reference comparisons; this covers the case of one adjustment shared by both axes. Each operation's `ensures` gives the new state in terms of `Geometry`. The invariant `Valid()` (scale positive, viewport size equal to allocation over scale) is kept by every public operation |
| `scenarios.dfy` | `Scenarios` | clients proved from the contracts alone: the fit and pan examples, refit on every allocation, zoom around a point, a scrollbar drag, the value-changed notifications GTK sends back after the widget writes an adjustment, and an origin the position rule leaves outside the image |

Numbers: a C `double` is an exact `real`, and a `gint` is an unbounded `int`.
Each place where the C code casts a `double` to `gint` goes through
`Numerics.Trunc`, which rounds toward zero, not toward minus infinity. The
centring offset uses `Numerics.CHalve`, C's truncating halving.

### Behaviour of the code worth knowing

- **No position clamp.** The comment on
  `_gtk_scalable_image_adjust_viewport_position`
  (`src/gtkscalableimage-private.c:73-74`) says that the function keeps the
  viewport inside the image rectangle. On an axis the viewport does not
  overfill, however, the function evaluates `CLAMP(x, 0, W - vw)` and
  throws the result away (`:84` and `:89`). A scale change or an allocation
  therefore never clamps the origin itself.
  - The clamp is applied only to the value the widget passes to its
    adjustment, when it republishes it.
  - It reaches the viewport only if GTK echoes that value back through
    value-changed. `Scenarios.SetScaleAndNotify` shows that an echo of
    both values puts each axis inside the image or centres it.
  - GTK echoes only when the value it stores changes, so the origin can be
    left outside the image. `Scenarios.ZoomInLeavesOriginOutside` gives an
    example: an 800x600 image at scale 0.25 in a 400x300 allocation is
    centred at x = -400. After `SetScale(1.0)` the viewport is 400 wide and
    x is still -400. The value passed is 0, which GTK already held, so no
    echo follows.
- **Centring is strict.** The code centres an axis only when the
  viewport's extent is strictly greater than the image's
  (`src/gtkscalableimage-private.c:81` and `:86`). When the two are equal,
  the origin is kept.
- **The value passed for a centred axis does not mirror it.** On an axis
  the viewport overfills, the origin is `-(vw - W) / 2`, which is not
  positive. The value the widget passes to `gtk_adjustment_configure` is
  `W - vw`, the clamp's upper bound, which is negative. So the value passed
  and the origin always differ on a centred axis
  (`Geometry.CentredAxisIsNotMirrored`). What GTK then stores is not part of
  this model. Even so, with the values as passed, the exchange settles
  after one round trip (`Geometry.ExchangeSettles`).
- **Image replacement is lazy.** `set_pixbuf` reconfigures the adjustments
  only once the widget is realized, as its FIXME explains
  (`src/gtkscalableimage.c:119-122`): a widget built from a pixbuf does not
  know its allocation yet. It never repositions the viewport.
- **One adjustment on both axes.** The value-changed handler compares the
  emitting adjustment with the horizontal one first
  (`src/gtkscalableimage.c:186`). When the container gives the widget the
  same adjustment for both axes, a pan writes x and then y into it, and the
  echo pulls x from that value, so x becomes y
  (`Scenarios.SharedAdjustmentPan`).
- **The zoom-around-a-point function's name.** The header declares
  `gtk_scalable_image_set_scale_at_point` (`src/gtkscalableimage.h:62-65`).
  The definition is spelled `gtk_scalable_imagevv_set_scale_at_point`
  (`src/gtkscalableimage.c:41`), so a caller of the declared name would not
  link. `ScalableImage.ScalableImage.SetScaleAtPoint` models the body.

## Model

| member | source | states |
|---|---|---|
| Numerics.Trunc | src/gtkscalableimage-private.c:68-69 | the `(gint)` cast of a `double`: for a nonnegative argument the greatest integer not above it, for a negative one the least integer not below it |
| Numerics.CHalve | src/gtkscalableimage-private.c:82 | C's `gint / 2`: the remainder is 0 or 1 for a nonnegative dividend and 0 or -1 for a negative one |
| Numerics.Clamp | src/gtkscalableimage-private.c:111-112 | `CLAMP` lands in `[lo, hi]` when the bounds are ordered, is the identity inside that interval, and returns `hi` for anything above `hi` even when `hi < lo` |
| Numerics.Min | src/gtkscalableimage.c:82 | `MIN` is at most both arguments and equal to one of them |
| Geometry.ViewportExtent | src/gtkscalableimage-private.c:65-70 | the viewport extent is the whole number of image pixels that fit in the allocation at the scale: `v <= alloc / scale < v + 1` |
| Geometry.ViewportExtentFillsAllocation | src/gtkscalableimage-private.c:65-70 | the viewport, scaled back up, fills the allocation up to less than one scaled pixel: `v * scale <= alloc < (v + 1) * scale` |
| Geometry.CentredOrigin | src/gtkscalableimage-private.c:81-82 | an axis the viewport overfills gets a nonpositive origin that splits the extra space into two margins differing by at most one pixel |
| Geometry.AdjustedOrigin | src/gtkscalableimage-private.c:79-89 | the position rule on one axis: centred margins when the viewport overfills, the unchanged origin otherwise (the discarded clamp) |
| Geometry.ArrangeIdempotent | src/gtkscalableimage-private.c:77-90 | applying the position rule twice is the same as applying it once |
| Geometry.PannedOrigin | src/gtkscalableimage.c:152-174 | panning an axis smaller than the image lands inside the image, moves by exactly the delta when that stays inside, and stops at the nearer edge otherwise; an axis at least as large as the image only gets the position rule |
| Geometry.ZoomKeepsAnchorPoint | src/gtkscalableimage.c:47-58 | the origin shift of a zoom at a point keeps the image point under that screen point to within one image pixel |
| Geometry.FitScale | src/gtkscalableimage.c:80-82 | the fit scale is the smaller of the width and height ratios, and equals one of them |
| Geometry.FitScalePositive | src/gtkscalableimage.c:80-83 | the fit scale is positive if and only if both allocation dimensions are |
| Geometry.FitShowsWholeImage | src/gtkscalableimage.c:83-87 | at the fit scale both viewport extents cover the image, and on the binding axis the extent equals the image exactly |
| Geometry.FitImageFitsAllocation | src/gtkscalableimage.c:80-85 | the image drawn at the fit scale, truncated to pixels, is no larger than the allocation on either axis |
| Geometry.RepublishedRange | src/gtkscalableimage-private.c:99-134 | what one adjustment is configured to. Lower bound and step increment are kept, and the page increment is half the page. With an image: the page is the viewport extent, the upper bound is the image extent, and the value is the origin clamped to the scrollable range, so it equals the origin whenever that origin is in range. Without an image, value, upper bound and page are zero |
| Geometry.CentredAxisIsNotMirrored | src/gtkscalableimage-private.c:81-112 | on an axis the viewport overfills, the value the widget passes to its adjustment is the negative clamp bound `W - vw` and so differs from the centred origin |
| Geometry.ExchangeSettles | src/gtkscalableimage.c:186-211 | republishing, pulling the origin back from the value, and doing it again reaches a fixed point: the value and the origin no longer change |
| ScalableImage.ScalableImage.constructor | src/gtkscalableimage.c:538-546 | `gtk_scalable_image_new` with the init defaults of `src/gtkscalableimage.c:482-489` (no image, empty viewport, scale 1, fit mode, minimum scroll policies) plus two distinct fresh adjustments holding the default range with step 20, adopted through the value-changed handler as `set_adjustment` does (`src/gtkscalableimage-private.c:148-163`); the invariant holds from the start |
| ScalableImage.NewFromPixbuf | src/gtkscalableimage.c:549-561 | a new widget in its initial state, showing the given image when one is passed, with the adjustments left at their defaults because the widget is not realized |
| ScalableImage.NaturalOf | src/gtkscalableimage-private.c:40-49 | the image's own size whatever the scale, or zero without an image |
| ScalableImage.ScalableImage.AllocatedSize | src/gtkscalableimage-private.c:52-60 | the size stored by the last allocation, from which (under the invariant) both viewport extents are derived at the current scale |
| ScalableImage.ScalableImage.MinimumSize | src/gtkscalableimage-private.c:23-33 | the image's on-screen size at the current scale truncated to whole pixels, or zero without an image |
| ScalableImage.ScalableImage.PreferredWidth | src/gtkscalableimage.c:296-305 | minimum width as the truncated scaled image width, natural width as the image width, both zero without an image |
| ScalableImage.ScalableImage.PreferredHeight | src/gtkscalableimage.c:282-291 | the same for heights |
| ScalableImage.ScalableImage.GetScale | src/gtkscalableimage.c:10-15 | the current scale, which is always positive |
| ScalableImage.ScalableImage.GetPixbuf | src/gtkscalableimage.c:95-100 | the attached image, or null |
| ScalableImage.ScalableImage.UpdateViewportSize | src/gtkscalableimage-private.c:65-70 | the viewport extents are recomputed from the given size and the scale; its origin and every other field stay |
| ScalableImage.ScalableImage.AdjustViewportPosition | src/gtkscalableimage-private.c:77-90 | the position rule is applied to both axes; the extents and every other field stay |
| ScalableImage.ScalableImage.ResetAdjustments | src/gtkscalableimage-private.c:99-135 | both adjustments hold the republished range of their axis (the vertical write wins when one adjustment serves both axes); the widget's fields are untouched |
| ScalableImage.ScalableImage.SetScale | src/gtkscalableimage.c:18-35 | a nonpositive scale changes nothing. A positive one ends fit mode, takes the scale, resizes the viewport from the allocation, applies the position rule, republishes both adjustments and queues one redraw |
| ScalableImage.ScalableImage.SetScaleAtPoint | src/gtkscalableimage.c:40-65 | like SetScale, except that the resized viewport is first shifted by the difference of the anchor's truncated image offsets at the old and new scales |
| ScalableImage.ScalableImage.SetScaleToFit | src/gtkscalableimage.c:68-93 | fit mode is always entered. With an image and a positive fit scale, the scale becomes the fit scale, the viewport is resized and positioned so that it covers the whole image, the adjustments are republished and a redraw is queued. Otherwise only the flag changes |
| ScalableImage.ScalableImage.SetPixbuf | src/gtkscalableimage.c:103-139 | the same image changes nothing. A different one (or none) is attached and queues a redraw, and the adjustments are republished only when the widget is realized. The viewport and scale stay |
| ScalableImage.ScalableImage.Translate | src/gtkscalableimage.c:142-178 | without an image nothing changes. With one, on each axis smaller than the image the origin moves to `x + dx` clamped into `[0, W - vw]` and is written into its adjustment; every other axis gets the position rule; one redraw is queued |
| ScalableImage.ScalableImage.OnAdjustmentValueChanged | src/gtkscalableimage.c:181-213 | the emitting adjustment is matched against the horizontal one first, then the vertical one. On a match that axis's origin becomes the truncated value, re-positioned by the position rule, and a redraw is queued; no adjustment is written and the extents and scale stay. Any other adjustment changes nothing |
| ScalableImage.ScalableImage.SizeAllocate | src/gtkscalableimage.c:311-338 | the allocation is stored and the viewport resized. In fit mode the result is that of SetScaleToFit on the new allocation; otherwise the position rule is applied and the adjustments republished with the scale unchanged |
| ScalableImage.ScalableImage.SetAdjustment | src/gtkscalableimage-private.c:144-165 | null or the adjustment already on that axis changes nothing; any other becomes that axis's adjustment and is run through the value-changed handler once |
| ScalableImage.ScalableImage.SetProperty | src/gtkscalableimage.c:401-450 | the adjustment properties go through SetAdjustment; the policy properties store the policy; any other property id changes nothing |
| ScalableImage.ScalableImage.Realize | src/gtkscalableimage.c:276 | the widget becomes realized and nothing else changes |
| Scenarios.FitToWindowExample | src/gtkscalableimage.c:325-327 | an 800x600 image allocated 400x300 in fit mode gets scale 0.5, the viewport (0, 0, 800, 600), the minimum size 400x300 (the example of `src/gtkscalableimage-private.c:19-20`), and adjustments spanning the image with a full page |
| Scenarios.PanToEdgeExample | src/gtkscalableimage.c:152-156 | at scale 1 in a 400x300 allocation, panning the 800x600 image right by 1000 stops at x = 400, and the horizontal value follows |
| Scenarios.NoImageExample | src/gtkscalableimage-private.c:104-106 | without an image both size requests are zero and, after any scale and allocation, both adjustments collapse to zero |
| Scenarios.ScaleThenAllocate | src/gtkscalableimage.c:317-318 | after a scale change and an allocation, the viewport size is the new allocation over the new scale, whatever it was before |
| Scenarios.RefitOnEveryAllocation | src/gtkscalableimage.c:325-327 | in fit mode the scale after two allocations is the fit scale of the second alone, and the viewport covers the image |
| Scenarios.ZoomAroundPoint | src/gtkscalableimage.c:47-60 | on axes the new viewport does not overfill, zooming at a point keeps the image point under it to within one pixel |
| Scenarios.ScrollbarDrag | src/gtkscalableimage.c:186-189 | the container moves the horizontal value: the viewport's x follows it as a truncated value, y only gets the position rule, and the adjustment is not written back |
| Scenarios.TranslateAndNotify | src/gtkscalableimage.c:152-174 | the value-changed notifications caused by the adjustment writes of a pan find the viewport where the pan put it and move nothing |
| Scenarios.SharedAdjustmentPan | src/gtkscalableimage.c:186-189 | with one adjustment on both axes, after a pan on two axes smaller than the image and GTK's echo, y is the panned y and x has been pulled to the same value |
| Scenarios.ZoomInLeavesOriginOutside | src/gtkscalableimage-private.c:81-89 | zooming in from a centred axis leaves x = -400 on an axis narrower than the image, because the position rule does not clamp; the value passed to the adjustment is 0 |
| Scenarios.SetScaleAndNotify | src/gtkscalableimage-private.c:108-119 | after a scale change with both adjustment writes echoed (GTK echoes only a write that changes its stored value), an axis the viewport does not overfill lies inside the image with the value mirroring the origin, and an overfilled axis is centred |

## Left out

- Drawing (`gtk_scalable_image_draw`), window creation and event masks in `realize` and `init`. Drawing only reads the scale and the viewport origin (`Geometry.ImagePointAt` is its transform) and changes no engine state. Realization is a flag the host sets, and a queued redraw is a counter.
- GObject reference counting, `finalize`, and connecting and disconnecting the value-changed handler. This includes the count of disconnected handlers that `set_adjustment` asserts. The model calls the handler directly where GTK would emit.
- `get_property` and class registration: they only read fields or register GObject metadata.
- GTK's own processing inside `gtk_adjustment_configure` and `gtk_adjustment_set_value`.
  - The model stores the numbers the widget passes, exactly as passed.
  - The model methods never emit value-changed themselves. The `Scenarios` methods make GTK's echo an explicit handler call.
  - Those scenarios echo every write. GTK first clamps the value it stores into `[lower, upper - page_size]` and echoes only when that stored value changes, which the model does not track (see `Scenarios.ZoomInLeavesOriginOutside`).
- The NULL adjustments that exist between `init` and the construct properties. The model's constructor installs both adjustments at once.
- The widget's allocation before its first `size_allocate` is library state. The model starts from an empty (0, 0) allocation.
- Floating point. A `double` is an exact real, so there is no rounding, NaN, infinity or division by zero. Pixbuf dimensions are at least 1, so the fit ratios are always defined.
- 32-bit `gint` range. Overflow of `x + delta` in `translate`, and casts of doubles beyond `G_MAXINT`, are undefined in C and are not modelled. Coordinates are unbounded integers.
- Pixbuf contents: the engine reads only width and height.
- The `GTK_IS_SCALABLE_IMAGE` guards: the receiver is always a widget of this class.
