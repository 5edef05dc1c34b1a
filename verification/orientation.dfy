/** Display orientations (options.c) and the conversion of displayed points back to the frame
    (screen.c): two pieces of code that must be one action of the same group of eight. */
module Orientations {

  /** Bits 0-1: rotation in quarter turns; bit 2: horizontal flip, applied first. */
  type Orientation = o: bv8 | o <= 7

  const ORIENTATION_0: Orientation := 0
  const ORIENTATION_90: Orientation := 1
  const ORIENTATION_180: Orientation := 2
  const ORIENTATION_270: Orientation := 3
  const ORIENTATION_FLIP_0: Orientation := 4
  const ORIENTATION_FLIP_90: Orientation := 5
  const ORIENTATION_FLIP_180: Orientation := 6
  const ORIENTATION_FLIP_270: Orientation := 7

  datatype Size = Size(width: int, height: int)
  datatype Point = Point(x: int, y: int)

  predicate IsSwap(o: Orientation) { o & 1 != 0 }

  function OrientedSize(size: Size, o: Orientation): Size
  {
    if IsSwap(o) then Size(size.height, size.width) else size
  }

  /** The orientation obtained by applying `transform` to what `src` displays. */
  function Apply(src: Orientation, transform: Orientation): Orientation
  {
    var transformFlip := transform & 4;
    var transformRotation := transform & 3;
    var srcFlip := src & 4;
    var srcRotation := (src & 3) + (if src & 1 != 0 && transformFlip != 0 then 2 else 0);
    var flip := srcFlip ^ transformFlip;
    var rotation := (transformRotation + srcRotation) % 4;
    flip | rotation
  }

  // ---- what is displayed

  datatype Image = Image(size: Size, p: Point)

  function FlippedHorizontally(i: Image): Image { Image(i.size, Point(i.size.width - i.p.x, i.p.y)) }

  function QuarterTurn(i: Image): Image
  {
    Image(Size(i.size.height, i.size.width), Point(i.size.height - i.p.y, i.p.x))
  }

  function Turned(i: Image, quarters: nat): Image
  {
    if quarters == 0 then i else QuarterTurn(Turned(i, quarters - 1))
  }

  /** Where a point of the frame is displayed: flipped, then turned clockwise. */
  function Rendered(o: Orientation, frame: Size, p: Point): Image
  {
    var i := Image(frame, p);
    Turned(if o & 4 != 0 then FlippedHorizontally(i) else i, (o & 3) as nat)
  }

  // ---- from the display to the frame

  /** Maps a point of the content, of size `content`, back to the frame it displays. */
  function ToFrame(o: Orientation, content: Size, p: Point): Point
  {
    var (w, h) := (content.width, content.height);
    if o == ORIENTATION_0 then p
    else if o == ORIENTATION_90 then Point(p.y, w - p.x)
    else if o == ORIENTATION_180 then Point(w - p.x, h - p.y)
    else if o == ORIENTATION_270 then Point(h - p.y, p.x)
    else if o == ORIENTATION_FLIP_0 then Point(w - p.x, p.y)
    else if o == ORIENTATION_FLIP_90 then Point(h - p.y, w - p.x)
    else if o == ORIENTATION_FLIP_180 then Point(p.x, h - p.y)
    else Point(p.y, p.x)
  }

  /** The conversion undoes the rendering, for every orientation, every size and every point. */
  lemma ToFrameOfRendered(o: Orientation, frame: Size, p: Point)
    ensures Rendered(o, frame, p).size == OrientedSize(frame, o)
    ensures ToFrame(o, OrientedSize(frame, o), Rendered(o, frame, p).p) == p
  {
    FourTurns(Image(frame, p));
    FourTurns(FlippedHorizontally(Image(frame, p)));
    assert o in {0, 1, 2, 3, 4, 5, 6, 7};
  }

  lemma FourTurns(i: Image)
    ensures Turned(i, 0) == i && Turned(i, 1) == QuarterTurn(i)
    ensures Turned(i, 2) == QuarterTurn(QuarterTurn(i))
    ensures Turned(i, 3) == QuarterTurn(QuarterTurn(QuarterTurn(i)))
  {
  }

  /** And the rendering undoes the conversion. */
  lemma RenderedOfToFrame(o: Orientation, frame: Size, q: Point)
    ensures Rendered(o, frame, ToFrame(o, OrientedSize(frame, o), q)) == Image(OrientedSize(frame, o), q)
  {
    var p := ToFrame(o, OrientedSize(frame, o), q);
    FourTurns(Image(frame, p));
    FourTurns(FlippedHorizontally(Image(frame, p)));
    assert o in {0, 1, 2, 3, 4, 5, 6, 7};
  }

  /** Mapping through a composition is mapping through its transform, then through its source,
      for every size and every point, inside the content or not. */
  lemma GroupAction(src: Orientation, transform: Orientation, content: Size, p: Point)
    ensures OrientedSize(content, Apply(src, transform)) == OrientedSize(OrientedSize(content, transform), src)
    ensures ToFrame(Apply(src, transform), content, p)
         == ToFrame(src, OrientedSize(content, transform), ToFrame(transform, content, p))
  {
    assert src in {0, 1, 2, 3, 4, 5, 6, 7} && transform in {0, 1, 2, 3, 4, 5, 6, 7};
  }

  /** So a composition displays what its source displays, then transformed. */
  lemma RenderedTwice(src: Orientation, transform: Orientation, frame: Size, p: Point)
    ensures var shown := Rendered(src, frame, p);
            Rendered(Apply(src, transform), frame, p) == Rendered(transform, shown.size, shown.p)
  {
    var shown := Rendered(src, frame, p);
    var i := Rendered(transform, shown.size, shown.p);
    ToFrameOfRendered(src, frame, p);
    ToFrameOfRendered(transform, shown.size, shown.p);
    SwapTwice(shown.size, transform);
    SwapTwice(frame, src);
    GroupAction(src, transform, i.size, i.p);
    SwapTwice(frame, Apply(src, transform));
    SwapTwice(i.size, Apply(src, transform));
    RenderedOfToFrame(Apply(src, transform), frame, i.p);
  }

  lemma SwapTwice(size: Size, o: Orientation)
    ensures OrientedSize(OrientedSize(size, o), o) == size
  {
  }

  const WITNESS_SIZE := Size(2, 5)
  const WITNESS_POINT := Point(0, 1)

  /** The action is faithful: one point of one content tells all orientations apart. */
  lemma Faithful(o: Orientation, p: Orientation)
    requires ToFrame(o, WITNESS_SIZE, WITNESS_POINT) == ToFrame(p, WITNESS_SIZE, WITNESS_POINT)
    ensures o == p
  {
  }

  /** So `Apply` is the only composition compatible with the coordinates. */
  lemma ApplyUnique(src: Orientation, transform: Orientation, other: Orientation)
    requires forall p: Point ::
               ToFrame(other, WITNESS_SIZE, p)
               == ToFrame(src, OrientedSize(WITNESS_SIZE, transform), ToFrame(transform, WITNESS_SIZE, p))
    ensures other == Apply(src, transform)
  {
    GroupAction(src, transform, WITNESS_SIZE, WITNESS_POINT);
    Faithful(other, Apply(src, transform));
  }

  lemma Associative(a: Orientation, b: Orientation, c: Orientation)
    ensures Apply(Apply(a, b), c) == Apply(a, Apply(b, c))
  {
    var (size, p) := (WITNESS_SIZE, WITNESS_POINT);
    GroupAction(Apply(a, b), c, size, p);
    GroupAction(a, b, OrientedSize(size, c), ToFrame(c, size, p));
    GroupAction(a, Apply(b, c), size, p);
    GroupAction(b, c, size, p);
    Faithful(Apply(Apply(a, b), c), Apply(a, Apply(b, c)));
  }

  function Inverse(o: Orientation): Orientation
  {
    if o & 4 != 0 then o else (4 - o) % 4
  }

  lemma Group(o: Orientation)
    ensures Apply(o, ORIENTATION_0) == o == Apply(ORIENTATION_0, o)
    ensures Apply(o, Inverse(o)) == ORIENTATION_0 == Apply(Inverse(o), o)
  {
    assert o in {0, 1, 2, 3, 4, 5, 6, 7};
  }
}
