/** The geometry state of the screen (screen.c), updated when the frame size, the orientation or the
    window changes. The window size and the size of its drawable belong to SDL. */
module Screens {
  import opened Letterbox
  import opened Optional
  import opened Orientations

  /** The window size that follows a change of content size. */
  function Resized(window: Size, from: Size, content: Size, display: Option<Size>): Size
    requires NonNegative(window) && Positive(from) && Positive(content)
  {
    OptimalSize(Size(window.width * content.width / from.width, window.height * content.height / from.height),
                content, display)
  }

  /** The window, the size of its content, and out of windowed mode the content size it had when the
      content first changed. */
  datatype Layout = Layout(window: Size, content: Size, base: Option<Size>)

  predicate ValidLayout(l: Layout)
  {
    NonNegative(l.window) && Positive(l.content) && (l.base.Some? ==> Positive(l.base.value))
  }

  predicate ValidDisplay(display: Option<Size>) { display.Some? ==> NonNegative(display.value) }

  function WithContent(l: Layout, windowed: bool, content: Size, display: Option<Size>): Layout
    requires ValidLayout(l) && Positive(content)
  {
    if windowed then l.(window := Resized(l.window, l.content, content, display), content := content)
    else if l.base.None? then l.(base := Some(l.content), content := content)
    else l.(content := content)
  }

  /** Back to windowed mode. */
  function Restored(l: Layout, display: Option<Size>): Layout
    requires ValidLayout(l)
  {
    match l.base
    case None => l
    case Some(base) => l.(window := Resized(l.window, base, l.content, display), base := None)
  }

  /** Content changes out of windowed mode. */
  function WithContents(l: Layout, contents: seq<Size>): (r: Layout)
    requires ValidLayout(l) && forall c :: c in contents ==> Positive(c)
    ensures ValidLayout(r)
  {
    if contents == [] then l
    else WithContent(WithContents(l, contents[..|contents| - 1]), false, contents[|contents| - 1], None)
  }

  /** However many content changes happen out of windowed mode, back to windowed mode there is one
      resize, from the first content size to the last. */
  lemma OneResize(l: Layout, contents: seq<Size>, display: Option<Size>)
    requires ValidLayout(l) && l.base == None && contents != [] && forall c :: c in contents ==> Positive(c)
    ensures var last := contents[|contents| - 1];
            Restored(WithContents(l, contents), display)
            == Layout(Resized(l.window, l.content, last, display), last, None)
  {
    FirstBaseKept(l, contents);
  }

  lemma {:induction false} FirstBaseKept(l: Layout, contents: seq<Size>)
    requires ValidLayout(l) && l.base == None && contents != [] && forall c :: c in contents ==> Positive(c)
    ensures WithContents(l, contents) == Layout(l.window, contents[|contents| - 1], Some(l.content))
  {
    if |contents| > 1 {
      FirstBaseKept(l, contents[..|contents| - 1]);
    } else {
      assert contents[..0] == [];
    }
  }

  /** In windowed mode, the window always becomes optimal for its content. */
  lemma WindowedIsOptimal(l: Layout, content: Size, display: Option<Size>)
    requires ValidLayout(l) && Positive(content) && ValidDisplay(display)
    ensures IsOptimalSize(WithContent(l, true, content, display).window, content)
    ensures NonNegative(WithContent(l, true, content, display).window)
  {
    OptimalSizeIsOptimal(Size(l.window.width * content.width / l.content.width,
                              l.window.height * content.height / l.content.height), content, display);
  }

  /** The window keeps the scale `p` / `q` at which it displays its content, whenever the new content
      has a whole size at that scale and the display does not bound it. */
  lemma ScaleKept(window: Size, from: Size, content: Size, p: nat, q: nat, target: Size)
    requires NonNegative(window) && Positive(from) && Positive(content) && NonNegative(target) && q > 0
    requires q * window.width == p * from.width && q * window.height == p * from.height
    requires q * target.width == p * content.width && q * target.height == p * content.height
    ensures Resized(window, from, content, None) == target
  {
    Rescaled(p, q, window.width, from.width, target.width, content.width);
    Rescaled(p, q, window.height, from.height, target.height, content.height);
    Rescaled(p, q, target.width, content.width, target.height, content.height);
  }

  lemma Rescaled(p: int, q: int, a: int, from: int, b: int, to: int)
    requires q > 0 && from > 0 && q * a == p * from && q * b == p * to
    ensures a * to / from == b
  {
    calc {
      q * (a * to);
    ==
      (q * a) * to;
    ==
      (p * to) * from;
    ==
      q * (b * from);
    }
    Cancelled(q, a * to, b * from);
    assert b * from / from == b;
  }

  lemma Cancelled(q: int, x: int, y: int)
    requires q > 0 && q * x == q * y
    ensures x == y
  {
  }

  class Screen {
    var frameSize: Size
    var contentSize: Size
    var windowedContentSize: Size
    var orientation: Orientation
    var resizePending: bool
    /** Neither fullscreen, nor maximized, nor minimized. */
    var windowed: bool
    var windowSize: Size
    var rect: Rect

    /** What is displayed is always the frame in the current orientation. */
    ghost predicate Valid()
      reads this
    {
      && Positive(frameSize) && contentSize == OrientedSize(frameSize, orientation)
      && NonNegative(windowSize) && (resizePending ==> Positive(windowedContentSize))
    }

    ghost function Model(): Layout
      reads this
    {
      Layout(windowSize, contentSize, if resizePending then Some(windowedContentSize) else None)
    }

    constructor (frame: Size, orientation: Orientation, window: Size)
      requires Positive(frame) && NonNegative(window)
      ensures Valid() && frameSize == frame && this.orientation == orientation && windowSize == window
      ensures windowed && !resizePending
    {
      frameSize, this.orientation, windowSize := frame, orientation, window;
      contentSize := OrientedSize(frame, orientation);
      windowedContentSize, rect := frame, Rect(0, 0, 0, 0);
      windowed, resizePending := true, false;
    }

    method ResizeForContent(oldContent: Size, newContent: Size, display: Option<Size>)
      requires NonNegative(windowSize) && Positive(oldContent) && Positive(newContent)
      modifies this`windowSize
      ensures windowSize == Resized(old(windowSize), oldContent, newContent, display)
    {
      var target := Size(windowSize.width * newContent.width / oldContent.width,
                         windowSize.height * newContent.height / oldContent.height);
      windowSize := OptimalSize(target, newContent, display);
    }

    method SetContentSize(newContent: Size, display: Option<Size>)
      requires ValidLayout(Model()) && Positive(newContent)
      modifies this`windowSize, this`contentSize, this`windowedContentSize, this`resizePending
      ensures Model() == WithContent(old(Model()), windowed, newContent, display)
    {
      if windowed {
        ResizeForContent(contentSize, newContent, display);
      } else if !resizePending {
        windowedContentSize := contentSize;
        resizePending := true;
      }
      contentSize := newContent;
    }

    method ApplyPendingResize(display: Option<Size>)
      requires Valid() && windowed && ValidDisplay(display)
      modifies this`windowSize, this`resizePending
      ensures Valid() && Model() == Restored(old(Model()), display)
    {
      if resizePending {
        WindowedIsOptimal(Layout(windowSize, windowedContentSize, None), contentSize, display);
        ResizeForContent(windowedContentSize, contentSize, display);
        resizePending := false;
      }
    }

    method UpdateContentRect(drawable: Size)
      requires Valid() && NonNegative(drawable)
      modifies this`rect
      ensures Valid() && rect == ContentRect(drawable, contentSize)
    {
      if IsOptimalSize(drawable, contentSize) {
        rect := Rect(0, 0, drawable.width, drawable.height);
        return;
      }
      var keepWidth := contentSize.width * drawable.height > contentSize.height * drawable.width;
      if keepWidth {
        rect := rect.(x := 0, w := drawable.width, h := drawable.width * contentSize.height / contentSize.width);
        rect := rect.(y := (drawable.height - rect.h) / 2);
      } else {
        rect := rect.(y := 0, h := drawable.height, w := drawable.height * contentSize.width / contentSize.height);
        rect := rect.(x := (drawable.width - rect.w) / 2);
      }
    }

    method SetOrientation(newOrientation: Orientation, display: Option<Size>, drawable: Size)
      requires Valid() && NonNegative(drawable) && ValidDisplay(display)
      modifies this
      ensures Valid() && orientation == newOrientation && frameSize == old(frameSize) && windowed == old(windowed)
      ensures newOrientation == old(orientation) ==> Model() == old(Model()) && rect == old(rect)
      ensures newOrientation != old(orientation) ==>
                && Model() == WithContent(old(Model()), windowed, OrientedSize(frameSize, orientation), display)
                && rect == ContentRect(drawable, contentSize)
    {
      if newOrientation == orientation {
        return;
      }
      WindowedIsOptimal(Model(), OrientedSize(frameSize, newOrientation), display);
      SetContentSize(OrientedSize(frameSize, newOrientation), display);
      orientation := newOrientation;
      UpdateContentRect(drawable);
    }

    method PrepareForFrame(newFrame: Size, display: Option<Size>, drawable: Size)
      requires Valid() && Positive(newFrame) && NonNegative(drawable) && ValidDisplay(display)
      modifies this
      ensures Valid() && frameSize == newFrame && orientation == old(orientation) && windowed == old(windowed)
      ensures newFrame == old(frameSize) ==> Model() == old(Model()) && rect == old(rect)
      ensures newFrame != old(frameSize) ==>
                && Model() == WithContent(old(Model()), windowed, OrientedSize(frameSize, orientation), display)
                && rect == ContentRect(drawable, contentSize)
    {
      if newFrame == frameSize {
        return;
      }
      WindowedIsOptimal(Model(), OrientedSize(newFrame, orientation), display);
      frameSize := newFrame;
      SetContentSize(OrientedSize(newFrame, orientation), display);
      UpdateContentRect(drawable);
    }

    /** Whatever happened before, a displayed point is converted into the current frame: the result
        is displayed at that point, up to one unit of the content. */
    method ConvertDrawableToFrame(p: Point) returns (q: Point)
      requires Valid() && rect.w > 0 && rect.h > 0
      ensures q == DrawableToFrame(orientation, contentSize, rect, p)
      ensures DisplayedAt(Rendered(orientation, frameSize, q), contentSize, rect, p)
      ensures rect.x <= p.x <= rect.x + rect.w && rect.y <= p.y <= rect.y + rect.h ==>
                0 <= q.x <= frameSize.width && 0 <= q.y <= frameSize.height
    {
      ContentPointNear(contentSize, rect, p);
      RenderedOfToFrame(orientation, frameSize, ContentPoint(contentSize, rect, p));
      if rect.x <= p.x <= rect.x + rect.w && rect.y <= p.y <= rect.y + rect.h {
        PointsMapIntoFrame(orientation, contentSize, rect, p);
        SwapTwice(frameSize, orientation);
      }
      q := DrawableToFrame(orientation, contentSize, rect, p);
    }
  }
}
