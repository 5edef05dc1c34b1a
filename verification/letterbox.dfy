/** The window and content geometry of screen.c: integer proportions that must fit exactly.
    Sizes are 16 bits in the source; the products are taken here in mathematical integers. */
module Letterbox {
  import opened Arithmetic
  import opened Optional
  import opened Orientations

  predicate NonNegative(size: Size) { 0 <= size.width && 0 <= size.height }

  predicate Positive(size: Size) { 0 < size.width && 0 < size.height }

  /** One dimension can be recomputed from the other and the content proportions. */
  predicate IsOptimalSize(current: Size, content: Size)
    requires Positive(content)
  {
    || current.height == current.width * content.height / content.width
    || current.width == current.height * content.width / content.height
  }

  /** `display` is the size of the display if it bounds the window, None otherwise. */
  function OptimalSize(current: Size, content: Size, display: Option<Size>): Size
    requires NonNegative(current) && NonNegative(content)
  {
    if content.width == 0 || content.height == 0 then current else
      var window := match display
        case None => current
        case Some(d) => Size(Min(current.width, d.width), Min(current.height, d.height));
      Fit(window, content)
  }

  /** The size without the black borders. */
  function Fit(window: Size, content: Size): Size
    requires Positive(content)
  {
    if IsOptimalSize(window, content) then window
    else if content.width * window.height > content.height * window.width then
      window.(height := content.height * window.width / content.width)
    else
      window.(width := content.width * window.height / content.height)
  }

  datatype Rect = Rect(x: int, y: int, w: int, h: int)

  /** The part of the drawable that displays the content. */
  function ContentRect(drawable: Size, content: Size): Rect
    requires NonNegative(drawable) && Positive(content)
  {
    if IsOptimalSize(drawable, content) then Rect(0, 0, drawable.width, drawable.height)
    else if content.width * drawable.height > content.height * drawable.width then
      var h := drawable.width * content.height / content.width;
      Rect(0, (drawable.height - h) / 2, drawable.width, h)
    else
      var w := drawable.height * content.width / content.height;
      Rect((drawable.width - w) / 2, 0, w, drawable.height)
  }

  /** sc_screen_convert_drawable_to_frame_coords. */
  function DrawableToFrame(o: Orientation, content: Size, rect: Rect, p: Point): Point
    requires rect.w > 0 && rect.h > 0
  {
    ToFrame(o, content, ContentPoint(content, rect, p))
  }

  /** The point of the content displayed at `p`. */
  function ContentPoint(content: Size, rect: Rect, p: Point): Point
    requires rect.w > 0 && rect.h > 0
  {
    Point(Truncated((p.x - rect.x) * content.width, rect.w), Truncated((p.y - rect.y) * content.height, rect.h))
  }

  /** `i`, stretched over the rectangle, is displayed at `p` up to one unit of the content: exactly
      if the rectangle has the size of the content. */
  predicate DisplayedAt(i: Image, content: Size, rect: Rect, p: Point)
  {
    && i.size == content
    && -rect.w < rect.w * i.p.x - (p.x - rect.x) * content.width < rect.w
    && -rect.h < rect.h * i.p.y - (p.y - rect.y) * content.height < rect.h
  }

  lemma TruncatedNear(x: int, d: int)
    requires d > 0
    ensures -d < d * Truncated(x, d) - x < d
  {
  }

  lemma ContentPointNear(content: Size, rect: Rect, p: Point)
    requires rect.w > 0 && rect.h > 0
    ensures DisplayedAt(Image(content, ContentPoint(content, rect, p)), content, rect, p)
  {
    TruncatedNear((p.x - rect.x) * content.width, rect.w);
    TruncatedNear((p.y - rect.y) * content.height, rect.h);
  }

  /** A proportion of `a` that is not above `limit` before dividing is not above it after. */
  lemma QuotientBelow(product: int, divisor: int, limit: int)
    requires 0 <= product <= limit * divisor && 0 < divisor
    ensures 0 <= product / divisor <= limit
  {
  }

  /** The optimal size never exceeds the size it starts from (the current size, cut to the
      display if bounded), keeps one of its dimensions, is optimal, and is a fixed point. */
  lemma OptimalSizeIsOptimal(current: Size, content: Size, display: Option<Size>)
    requires NonNegative(current) && Positive(content)
    requires display.Some? ==> NonNegative(display.value)
    ensures var r := OptimalSize(current, content, display);
            && 0 <= r.width <= current.width && 0 <= r.height <= current.height
            && (display.Some? ==> r.width <= display.value.width && r.height <= display.value.height)
            && (r.width == current.width || r.height == current.height
                || (display.Some? && (r.width == display.value.width || r.height == display.value.height)))
            && IsOptimalSize(r, content)
            && OptimalSize(r, content, display) == r
  {
    var window := match display
      case None => current
      case Some(d) => Size(Min(current.width, d.width), Min(current.height, d.height));
    FitIsOptimal(window, content);
    assert OptimalSize(current, content, display) == Fit(window, content);
    assert OptimalSize(Fit(window, content), content, display) == Fit(Fit(window, content), content);
  }

  /** The unbounded case keeps one dimension and lowers the other. */
  lemma FitIsOptimal(window: Size, content: Size)
    requires NonNegative(window) && Positive(content)
    ensures var r := Fit(window, content);
            && 0 <= r.width <= window.width && 0 <= r.height <= window.height
            && (r.width == window.width || r.height == window.height)
            && IsOptimalSize(r, content) && Fit(r, content) == r
  {
    if !IsOptimalSize(window, content) {
      if content.width * window.height > content.height * window.width {
        KeepWidth(window, content);
      } else {
        KeepHeight(window, content);
      }
    }
  }

  lemma KeepWidth(window: Size, content: Size)
    requires NonNegative(window) && Positive(content) && content.height * window.width <= content.width * window.height
    ensures var h := content.height * window.width / content.width;
            0 <= h <= window.height && h == window.width * content.height / content.width
  {
    Commutes(content.height, window.width);
    Commutes(content.width, window.height);
    QuotientBelow(content.height * window.width, content.width, window.height);
  }

  lemma KeepHeight(window: Size, content: Size)
    requires NonNegative(window) && Positive(content) && content.width * window.height <= content.height * window.width
    ensures var w := content.width * window.height / content.height;
            0 <= w <= window.width && w == window.height * content.width / content.height
  {
    Commutes(content.width, window.height);
    Commutes(content.height, window.width);
    QuotientBelow(content.width * window.height, content.height, window.width);
  }

  lemma Commutes(a: int, b: int)
    ensures a * b == b * a
    ensures a >= 0 && b >= 0 ==> a * b >= 0
  {
  }

  /** The content lies inside the drawable, touches two opposite borders, and is centered up to
      one pixel. */
  lemma ContentRectCentered(drawable: Size, content: Size)
    requires NonNegative(drawable) && Positive(content)
    ensures var r := ContentRect(drawable, content);
            && 0 <= r.x && 0 <= r.w && r.x + r.w <= drawable.width
            && 0 <= r.y && 0 <= r.h && r.y + r.h <= drawable.height
            && (r.w == drawable.width || r.h == drawable.height)
            && 0 <= (drawable.width - r.x - r.w) - r.x <= 1
            && 0 <= (drawable.height - r.y - r.h) - r.y <= 1
            && IsOptimalSize(Size(r.w, r.h), content)
  {
    if !IsOptimalSize(drawable, content) {
      if content.width * drawable.height > content.height * drawable.width {
        QuotientBelow(drawable.width * content.height, content.width, drawable.height);
      } else {
        QuotientBelow(drawable.height * content.width, content.height, drawable.width);
      }
    }
  }

  /** The size of the content of ContentRect is the optimal size of the drawable. */
  lemma ContentRectIsOptimal(drawable: Size, content: Size)
    requires NonNegative(drawable) && Positive(content)
    ensures var r := ContentRect(drawable, content);
            Size(r.w, r.h) == OptimalSize(drawable, content, None)
  {
    assert drawable.width * content.height == content.height * drawable.width;
    assert drawable.height * content.width == content.width * drawable.height;
  }

  /** Every point of the content rectangle maps into the closed frame rectangle, whatever the
      orientation. */
  lemma PointsMapIntoFrame(o: Orientation, content: Size, rect: Rect, p: Point)
    requires Positive(content) && rect.w > 0 && rect.h > 0
    requires rect.x <= p.x <= rect.x + rect.w && rect.y <= p.y <= rect.y + rect.h
    ensures var q := DrawableToFrame(o, content, rect, p);
            var frame := OrientedSize(content, o);
            0 <= q.x <= frame.width && 0 <= q.y <= frame.height
  {
    Proportion(p.x - rect.x, content.width, rect.w);
    Proportion(p.y - rect.y, content.height, rect.h);
    assert o in {0, 1, 2, 3, 4, 5, 6, 7};
  }

  lemma Proportion(offset: int, size: int, extent: int)
    requires 0 <= offset <= extent && 0 < extent && 0 < size
    ensures 0 <= Truncated(offset * size, extent) <= size
  {
    assert 0 <= offset * size <= extent * size;
    QuotientBelow(offset * size, extent, size);
  }
}
