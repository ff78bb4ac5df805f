/** The `GtkScalableImage` widget's viewport/scale engine: the widget struct
    with its viewport, scale, fit mode and two scrollbar adjustments, the
    helpers that keep them consistent, and the public and host-facing
    operations that change them. Each method does what the C function does,
    in the same order; its contract states the new state in the geometric
    terms of module Geometry. */
module ScalableImage {
  import opened Numerics
  import opened Geometry

  /** A pixel dimension of an attached image. */
  type Dim = n: int | n >= 1 witness 1

  /** A `GdkPixbuf`, reduced to what the engine reads from it: its width and
      height. Two pixbufs are the same image only if they are the same
      object. */
  class Pixbuf {
    const width: Dim
    const height: Dim

    constructor (width: Dim, height: Dim)
      ensures this.width == width && this.height == height
    {
      this.width := width;
      this.height := height;
    }
  }

  /** A `GtkAdjustment`, the scrollbar range shared between the widget and
      the scrolling container around it. The engine rewrites its numbers; the
      container moves its value when the user scrolls. */
  class Adjustment {
    var range: Range

    constructor (range: Range)
      ensures this.range == range
    {
      this.range := range;
    }
  }

  /** `GtkScrollablePolicy`. */
  datatype ScrollPolicy = ScrollMinimum | ScrollNatural

  /** The properties `set_property` dispatches on; any other id only
      triggers GObject's invalid-property warning. */
  datatype Property =
    | HAdjustmentProperty(adjustment: Adjustment?)
    | VAdjustmentProperty(adjustment: Adjustment?)
    | HScrollPolicyProperty(policy: ScrollPolicy)
    | VScrollPolicyProperty(policy: ScrollPolicy)
    | OtherProperty(id: nat)

  /** The widget's own fields as one value, to say what an operation leaves
      alone. `redraws` counts the redraws the widget has queued. */
  datatype Fields = Fields(image: Pixbuf?, allocation: Size, viewport: Rect, scale: real,
                           isFitting: bool, hadjustment: Adjustment, vadjustment: Adjustment,
                           hscrollPolicy: ScrollPolicy, vscrollPolicy: ScrollPolicy,
                           realized: bool, redraws: nat)

  /** The step increment of the adjustments a new widget is given. */
  const DefaultStepIncrement: real := 20.0

  /** `gtk_adjustment_new(0.0, 0.0, 0.0, 20.0, 0.0, 0.0)`. */
  function DefaultRange(): Range
  {
    Range(0.0, 0.0, 0.0, DefaultStepIncrement, 0.0, 0.0)
  }

  /** `_gtk_scalable_image_get_natural_size`: the size an image needs to be
      shown unscaled, whatever the scale; nothing without an image. */
  function NaturalOf(image: Pixbuf?): (s: Size)
    ensures image == null ==> s == Size(0, 0)
    ensures image != null ==> s == Size(image.width, image.height)
  {
    if image == null then Size(0, 0) else Size(image.width, image.height)
  }

  /** Whether `set_scale_to_fit` has a positive scale to apply. */
  predicate CanFit(image: Pixbuf?, alloc: Size)
  {
    image != null && FitScale(alloc, image.width, image.height) > 0.0
  }

  /** The value-changed handler on the widget's fields: the adjustment that
      emitted is compared with the horizontal one first, then the vertical
      one; a match pulls that axis's origin from the adjustment's value and
      re-applies the position rule; an adjustment that is neither changes
      nothing. */
  ghost function ValueChanged(f: Fields, adjustment: Adjustment): Fields
    reads adjustment
  {
    var axis := if adjustment == f.hadjustment then Horizontal else Vertical;
    if adjustment == f.hadjustment || adjustment == f.vadjustment then
      f.(viewport := Pulled(f.viewport, axis, adjustment.range.value, NaturalOf(f.image)),
         redraws := f.redraws + 1)
    else f
  }

  /** `_gtk_scalable_image_set_adjustment` on the widget's fields: a null
      adjustment, or the one already on that axis, changes nothing; any other
      replaces it and runs the value-changed handler once with it. */
  ghost function Adopted(f: Fields, axis: Axis, adjustment: Adjustment?): Fields
    reads adjustment
  {
    var current := if axis == Horizontal then f.hadjustment else f.vadjustment;
    if adjustment == null || adjustment == current then f
    else if axis == Horizontal then ValueChanged(f.(hadjustment := adjustment), adjustment)
    else ValueChanged(f.(vadjustment := adjustment), adjustment)
  }

  class ScalableImage {
    var image: Pixbuf?
    var allocation: Size
    /** In image coordinates. */
    var viewport: Rect
    var scale: real
    var isFitting: bool
    var hadjustment: Adjustment
    var vadjustment: Adjustment
    var hscrollPolicy: ScrollPolicy
    var vscrollPolicy: ScrollPolicy
    /** Set by the host when the widget is realized. */
    var realized: bool
    /** How many redraws have been queued (`gtk_widget_queue_draw`). */
    var redraws: nat

    /** The scale is positive, and the viewport's size is always the
        allocation divided by the scale, recomputed rather than accumulated. */
    ghost predicate Valid()
      reads this
    {
      scale > 0.0 &&
      viewport.width == ViewportExtent(allocation.width, scale) &&
      viewport.height == ViewportExtent(allocation.height, scale)
    }

    function State(): Fields
      reads this
    {
      Fields(image, allocation, viewport, scale, isFitting, hadjustment, vadjustment,
             hscrollPolicy, vscrollPolicy, realized, redraws)
    }

    /** Both adjustments hold what `reset_adjustments` writes for the current
        viewport and image, starting from `h0` and `v0`. When one adjustment
        serves both axes, the vertical write is the one that remains. */
    ghost predicate Published(h0: Range, v0: Range)
      reads this, hadjustment, vadjustment
    {
      var n := NaturalOf(image);
      vadjustment.range == RepublishedRange(v0, image != null, viewport.y, viewport.height, n.height) &&
      (hadjustment != vadjustment ==>
         hadjustment.range == RepublishedRange(h0, image != null, viewport.x, viewport.width, n.width))
    }

    /** `gtk_scalable_image_new`: the defaults of `gtk_scalable_image_init`,
        then two fresh adjustments, each adopted through the value-changed
        handler. */
    constructor ()
      ensures Valid()
      ensures image == null && allocation == Size(0, 0) && viewport == Rect(0, 0, 0, 0)
      ensures scale == 1.0 && isFitting && !realized
      ensures hscrollPolicy == ScrollMinimum && vscrollPolicy == ScrollMinimum
      ensures fresh(hadjustment) && fresh(vadjustment) && hadjustment != vadjustment
      ensures hadjustment.range == DefaultRange() && vadjustment.range == DefaultRange()
    {
      image := null;
      viewport := Rect(0, 0, 0, 0);
      scale := 1.0;
      isFitting := true;
      hscrollPolicy := ScrollMinimum;
      vscrollPolicy := ScrollMinimum;
      allocation := Size(0, 0);
      realized := false;
      redraws := 0;
      hadjustment := new Adjustment(DefaultRange());
      vadjustment := new Adjustment(DefaultRange());
      new;
      TruncOfInt(0);
      OnAdjustmentValueChanged(hadjustment);
      OnAdjustmentValueChanged(vadjustment);
    }

    // -------------------------------------------------------------------------
    // Size queries

    /** `_gtk_scalable_image_get_minimum_size`: the on-screen size of the
        whole image at the current scale, truncated to whole pixels. */
    function MinimumSize(): (s: Size)
      reads this
      requires scale > 0.0
      ensures image == null ==> s == Size(0, 0)
      ensures image != null ==> s.width as real <= scale * image.width as real < s.width as real + 1.0
      ensures image != null ==> s.height as real <= scale * image.height as real < s.height as real + 1.0
    {
      if image == null then Size(0, 0)
      else
        assert scale * image.width as real >= 0.0;
        assert scale * image.height as real >= 0.0;
        Size(Trunc(scale * image.width as real), Trunc(scale * image.height as real))
    }

    /** `_gtk_scalable_image_get_allocated_size`: the size stored by the last
        allocation, the one the viewport's extents are derived from. */
    function AllocatedSize(): (s: Size)
      reads this
      ensures s == allocation
      ensures Valid() ==>
                viewport.width == ViewportExtent(s.width, scale)
                && viewport.height == ViewportExtent(s.height, scale)
    {
      allocation
    }

    /** `get_preferred_width`: the minimum and natural widths. */
    function PreferredWidth(): (r: (nat, nat))
      reads this
      requires Valid()
      ensures image == null ==> r == (0, 0)
      ensures image != null ==> r.1 == image.width
      ensures image != null ==> r.0 as real <= scale * image.width as real < r.0 as real + 1.0
    {
      (MinimumSize().width, NaturalOf(image).width)
    }

    /** `get_preferred_height`: the minimum and natural heights. */
    function PreferredHeight(): (r: (nat, nat))
      reads this
      requires Valid()
      ensures image == null ==> r == (0, 0)
      ensures image != null ==> r.1 == image.height
      ensures image != null ==> r.0 as real <= scale * image.height as real < r.0 as real + 1.0
    {
      (MinimumSize().height, NaturalOf(image).height)
    }

    /** `gtk_scalable_image_get_scale`: always positive. */
    function GetScale(): (s: real)
      reads this
      requires Valid()
      ensures s > 0.0 && s == scale
    {
      scale
    }

    /** `gtk_scalable_image_get_pixbuf`. */
    function GetPixbuf(): (p: Pixbuf?)
      reads this
      ensures p == image
    {
      image
    }

    // -------------------------------------------------------------------------
    // Viewport and adjustment helpers

    /** `_gtk_scalable_image_update_viewport_size`: the viewport's extents
        become the allocation divided by the scale; nothing else changes. */
    method UpdateViewportSize(size: Size)
      requires scale > 0.0
      modifies this
      ensures State() == old(State()).(viewport := Resize(old(viewport), size, old(scale)))
    {
      viewport := viewport.(width := ViewportExtent(size.width, scale),
                            height := ViewportExtent(size.height, scale));
    }

    /** `_gtk_scalable_image_adjust_viewport_position`: the position rule on
        both axes; the extents and everything else stay. */
    method AdjustViewportPosition()
      modifies this
      ensures State() == old(State()).(viewport := Arrange(old(viewport), NaturalOf(image)))
    {
      var imageSize := NaturalOf(image);
      if viewport.width > imageSize.width {
        viewport := viewport.(x := CentredOrigin(viewport.width, imageSize.width));
      } else {
        // the code evaluates CLAMP(x, 0, width - viewport width) here and discards it
      }
      if viewport.height > imageSize.height {
        viewport := viewport.(y := CentredOrigin(viewport.height, imageSize.height));
      } else {
        // likewise for y
      }
    }

    /** `_gtk_scalable_image_reset_adjustments`: both adjustments are
        configured from the viewport and the image; the widget's own fields
        do not change. */
    method ResetAdjustments()
      modifies hadjustment, vadjustment
      ensures Published(old(hadjustment.range), old(vadjustment.range))
    {
      var hasImage := image != null;
      var imageSize := NaturalOf(image);
      hadjustment.range := RepublishedRange(hadjustment.range, hasImage, viewport.x, viewport.width, imageSize.width);
      vadjustment.range := RepublishedRange(vadjustment.range, hasImage, viewport.y, viewport.height, imageSize.height);
    }

    // -------------------------------------------------------------------------
    // Scale operations

    /** `gtk_scalable_image_set_scale`: a scale that is not positive is
        ignored. Otherwise fit mode ends, the scale is taken, the viewport is
        resized from the current allocation and re-positioned, the
        adjustments are republished and a redraw is queued. */
    method SetScale(s: real)
      requires Valid()
      modifies this, hadjustment, vadjustment
      ensures Valid()
      ensures s <= 0.0 ==>
                State() == old(State())
                && hadjustment.range == old(hadjustment.range)
                && vadjustment.range == old(vadjustment.range)
      ensures s > 0.0 ==> State() == old(State()).(
                            scale := s, isFitting := false,
                            viewport := Arrange(Resize(old(viewport), allocation, s), NaturalOf(image)),
                            redraws := old(redraws) + 1)
      ensures s > 0.0 ==> Published(old(hadjustment.range), old(vadjustment.range))
    {
      if s > 0.0 {
        isFitting := false;
        scale := s;
        var allocationSize := AllocatedSize();
        UpdateViewportSize(allocationSize);
        AdjustViewportPosition();
        ResetAdjustments();
        redraws := redraws + 1;
      }
    }

    /** `gtk_scalable_imagevv_set_scale_at_point` (declared in the header as
        `gtk_scalable_image_set_scale_at_point`): zoom to `s` around the
        on-screen point (`ax`, `ay`). A scale that is not positive is ignored.
        Otherwise, as `SetScale`, except that after resizing the origin is
        moved by the anchor's image offset at the old scale minus that at the
        new one, before the position rule is applied. */
    method SetScaleAtPoint(s: real, ax: int, ay: int)
      requires Valid()
      modifies this, hadjustment, vadjustment
      ensures Valid()
      ensures s <= 0.0 ==>
                State() == old(State())
                && hadjustment.range == old(hadjustment.range)
                && vadjustment.range == old(vadjustment.range)
      ensures s > 0.0 ==> State() == old(State()).(
                            scale := s, isFitting := false,
                            viewport := Arrange(Resize(old(viewport), allocation, s).(
                                                  x := old(viewport.x) + ZoomShift(ax, old(scale), s),
                                                  y := old(viewport.y) + ZoomShift(ay, old(scale), s)),
                                                NaturalOf(image)),
                            redraws := old(redraws) + 1)
      ensures s > 0.0 ==> Published(old(hadjustment.range), old(vadjustment.range))
    {
      if s > 0.0 {
        var oldImageX := Trunc(ax as real / scale);
        var oldImageY := Trunc(ay as real / scale);
        var newImageX := Trunc(ax as real / s);
        var newImageY := Trunc(ay as real / s);

        isFitting := false;
        scale := s;
        var allocationSize := AllocatedSize();
        UpdateViewportSize(allocationSize);

        viewport := viewport.(x := viewport.x + (oldImageX - newImageX),
                              y := viewport.y + (oldImageY - newImageY));

        AdjustViewportPosition();
        ResetAdjustments();
        redraws := redraws + 1;
      }
    }

    /** `gtk_scalable_image_set_scale_to_fit`: fit mode always begins. With an
        image and a positive fit scale, that scale is taken, the viewport is
        resized and re-positioned, so that it shows the whole image, the
        adjustments are republished and a redraw is queued. Otherwise
        nothing else changes. */
    method SetScaleToFit()
      requires Valid()
      modifies this, hadjustment, vadjustment
      ensures Valid()
      ensures isFitting
      ensures CanFit(image, allocation) ==>
                var f := FitScale(allocation, image.width, image.height);
                State() == old(State()).(
                  scale := f, isFitting := true,
                  viewport := Arrange(Resize(old(viewport), allocation, f), NaturalOf(image)),
                  redraws := old(redraws) + 1)
                && Published(old(hadjustment.range), old(vadjustment.range))
                && viewport.width >= image.width && viewport.height >= image.height
      ensures !CanFit(image, allocation) ==>
                State() == old(State()).(isFitting := true)
                && hadjustment.range == old(hadjustment.range)
                && vadjustment.range == old(vadjustment.range)
    {
      isFitting := true;
      if image != null {
        var imageNaturalSize := NaturalOf(image);
        var allocatedSize := AllocatedSize();
        var s := FitScale(allocatedSize, imageNaturalSize.width, imageNaturalSize.height);
        if s > 0.0 {
          scale := s;
          UpdateViewportSize(allocatedSize);
          AdjustViewportPosition();
          ResetAdjustments();
          redraws := redraws + 1;
          FitShowsWholeImage(allocatedSize, imageNaturalSize.width, imageNaturalSize.height);
        }
      }
    }

    // -------------------------------------------------------------------------
    // Image

    /** `gtk_scalable_image_set_pixbuf`: the same image changes nothing. A
        different one (or none) replaces it without touching the scale, the
        fit mode or the viewport; the adjustments are republished only once
        the widget is realized; a redraw is queued. */
    method SetPixbuf(p: Pixbuf?)
      requires Valid()
      modifies this, hadjustment, vadjustment
      ensures Valid()
      ensures GetPixbuf() == p
      ensures p == old(image) ==> State() == old(State())
      ensures p != old(image) ==> State() == old(State()).(image := p, redraws := old(redraws) + 1)
      ensures p != old(image) && realized ==> Published(old(hadjustment.range), old(vadjustment.range))
      ensures p == old(image) || !realized ==>
                hadjustment.range == old(hadjustment.range) && vadjustment.range == old(vadjustment.range)
    {
      if image != p {
        image := p;
        if realized {
          ResetAdjustments();
        }
        redraws := redraws + 1;
      }
    }

    // -------------------------------------------------------------------------
    // Panning and scrolling

    /** `gtk_scalable_image_translate`: nothing without an image. Otherwise,
        per axis, a viewport smaller than the image moves by the delta within
        the image and that axis's adjustment value is set to the new origin;
        a viewport at least as large is put back under the position rule,
        and its adjustment is left alone. A redraw is queued. */
    method Translate(dx: int, dy: int)
      requires Valid()
      modifies this, hadjustment, vadjustment
      ensures Valid()
      ensures image == null ==>
                State() == old(State())
                && hadjustment.range == old(hadjustment.range)
                && vadjustment.range == old(vadjustment.range)
      ensures image != null ==> State() == old(State()).(
                viewport := old(viewport).(
                  x := PannedOrigin(old(viewport.x), dx, viewport.width, image.width),
                  y := PannedOrigin(old(viewport.y), dy, viewport.height, image.height)),
                redraws := old(redraws) + 1)
      ensures image != null ==>
                vadjustment.range ==
                  if viewport.height < image.height then old(vadjustment.range).(value := viewport.y as real)
                  else if hadjustment == vadjustment && viewport.width < image.width
                  then old(vadjustment.range).(value := viewport.x as real)
                  else old(vadjustment.range)
      ensures image != null && hadjustment != vadjustment ==>
                hadjustment.range ==
                  if viewport.width < image.width then old(hadjustment.range).(value := viewport.x as real)
                  else old(hadjustment.range)
    {
      if image != null {
        var imageSize := NaturalOf(image);

        if viewport.width < imageSize.width {
          viewport := viewport.(x := Clamp(viewport.x + dx, 0, imageSize.width - viewport.width));
          hadjustment.range := hadjustment.range.(value := viewport.x as real);
        } else {
          AdjustViewportPosition();
        }

        if viewport.height < imageSize.height {
          viewport := viewport.(y := Clamp(viewport.y + dy, 0, imageSize.height - viewport.height));
          vadjustment.range := vadjustment.range.(value := viewport.y as real);
        } else {
          AdjustViewportPosition();
        }

        redraws := redraws + 1;
      }
    }

    /** `gtk_scalable_image_on_signal_adjustment_value_changed`, run with the
        adjustment that emitted: the matching axis's origin is set from its
        value, truncated, the position rule re-applied and a redraw queued.
        No adjustment is written, and the sizes and the scale stay. */
    method OnAdjustmentValueChanged(adjustment: Adjustment)
      requires Valid()
      modifies this
      ensures Valid()
      ensures State() == ValueChanged(old(State()), adjustment)
      ensures viewport.width == old(viewport.width) && viewport.height == old(viewport.height)
      ensures scale == old(scale) && allocation == old(allocation) && image == old(image)
      ensures adjustment == hadjustment && viewport.width <= NaturalOf(image).width ==>
                viewport.x == Trunc(adjustment.range.value)
      ensures adjustment != hadjustment && adjustment == vadjustment && viewport.height <= NaturalOf(image).height ==>
                viewport.y == Trunc(adjustment.range.value)
    {
      if adjustment == hadjustment {
        viewport := viewport.(x := Trunc(adjustment.range.value));
        AdjustViewportPosition();
        redraws := redraws + 1;
        return;
      }

      if adjustment == vadjustment {
        viewport := viewport.(y := Trunc(adjustment.range.value));
        AdjustViewportPosition();
        redraws := redraws + 1;
        return;
      }
    }

    // -------------------------------------------------------------------------
    // Host events

    /** `gtk_scalable_image_size_allocate`: the viewport is resized from the
        new allocation at the current scale and the allocation is stored.
        In fit mode the fit is then re-derived from the new allocation alone;
        otherwise the scale stays, the viewport is re-positioned and the
        adjustments are republished. */
    method SizeAllocate(a: Size)
      requires Valid()
      modifies this, hadjustment, vadjustment
      ensures Valid()
      ensures allocation == a
      ensures old(isFitting) && CanFit(image, a) ==>
                var f := FitScale(a, image.width, image.height);
                State() == old(State()).(
                  allocation := a, scale := f,
                  viewport := Arrange(Resize(old(viewport), a, f), NaturalOf(image)),
                  redraws := old(redraws) + 1)
                && Published(old(hadjustment.range), old(vadjustment.range))
      ensures old(isFitting) && !CanFit(image, a) ==>
                State() == old(State()).(allocation := a, viewport := Resize(old(viewport), a, old(scale)))
                && hadjustment.range == old(hadjustment.range)
                && vadjustment.range == old(vadjustment.range)
      ensures !old(isFitting) ==>
                State() == old(State()).(
                  allocation := a,
                  viewport := Arrange(Resize(old(viewport), a, old(scale)), NaturalOf(image)))
                && Published(old(hadjustment.range), old(vadjustment.range))
    {
      var allocationSize := a;
      UpdateViewportSize(allocationSize);

      // the parent class stores the allocation
      allocation := a;

      if isFitting {
        SetScaleToFit();
      } else {
        AdjustViewportPosition();
        ResetAdjustments();
      }
    }

    /** `_gtk_scalable_image_set_adjustment` for the adjustment of `axis`. */
    method SetAdjustment(axis: Axis, adjustment: Adjustment?)
      requires Valid()
      modifies this
      ensures Valid()
      ensures State() == Adopted(old(State()), axis, adjustment)
      ensures adjustment != null ==>
                (if axis == Horizontal then hadjustment else vadjustment) == adjustment
      ensures adjustment == null ==> State() == old(State())
    {
      var current := if axis == Horizontal then hadjustment else vadjustment;
      if adjustment != null && current != adjustment {
        if axis == Horizontal {
          hadjustment := adjustment;
        } else {
          vadjustment := adjustment;
        }
        OnAdjustmentValueChanged(adjustment);
      }
    }

    /** `gtk_scalable_image_set_property`: the two adjustments are adopted
        through `SetAdjustment`; a scroll policy is stored as given; any
        other property changes nothing. */
    method SetProperty(property: Property)
      requires Valid()
      modifies this
      ensures Valid()
      ensures property.HAdjustmentProperty? ==>
                State() == Adopted(old(State()), Horizontal, property.adjustment)
      ensures property.VAdjustmentProperty? ==>
                State() == Adopted(old(State()), Vertical, property.adjustment)
      ensures property.HScrollPolicyProperty? ==>
                State() == old(State()).(hscrollPolicy := property.policy)
      ensures property.VScrollPolicyProperty? ==>
                State() == old(State()).(vscrollPolicy := property.policy)
      ensures property.OtherProperty? ==> State() == old(State())
    {
      match property
      case HAdjustmentProperty(adjustment) =>
        SetAdjustment(Horizontal, adjustment);
      case VAdjustmentProperty(adjustment) =>
        SetAdjustment(Vertical, adjustment);
      case HScrollPolicyProperty(policy) =>
        if policy != hscrollPolicy {
          hscrollPolicy := policy;
        }
      case VScrollPolicyProperty(policy) =>
        if policy != vscrollPolicy {
          vscrollPolicy := policy;
        }
      case OtherProperty(_) =>
    }

    /** The host realizes the widget; of `gtk_scalable_image_realize` only
        the realized flag matters to the engine. */
    method Realize()
      modifies this
      ensures State() == old(State()).(realized := true)
    {
      realized := true;
    }
  }

  /** `gtk_scalable_image_new_from_pixbuf`: a new widget that shows `p`. The
      widget is not realized yet, so the adjustments keep their defaults. */
  method NewFromPixbuf(p: Pixbuf?) returns (w: ScalableImage)
    ensures fresh(w) && fresh(w.hadjustment) && fresh(w.vadjustment)
    ensures w.Valid() && w.image == p && w.scale == 1.0 && w.isFitting && !w.realized
    ensures w.allocation == Size(0, 0) && w.viewport == Rect(0, 0, 0, 0)
    ensures w.hadjustment != w.vadjustment
    ensures w.hadjustment.range == DefaultRange() && w.vadjustment.range == DefaultRange()
  {
    w := new ScalableImage();
    if p != null {
      w.SetPixbuf(p);
    }
  }
}
