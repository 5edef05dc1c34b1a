/** The virtual second finger of pinch-to-zoom and tilt gestures (input_manager.c): a state
    machine driven by mouse events, whose messages may be refused by a full control queue. */
module VirtualFinger {
  import opened Optional
  import opened Orientations

  datatype TouchAction = Down | Move | Up

  datatype Event =
    /** `skipped`: a duplicate of a touch event, or received while paused or without mouse. */
    | Motion(skipped: bool, mouse: Point, frame: Size, room: bool)
    /** `skipped`: the same, or consumed by a binding or by a double-click outside the content. */
    | Button(skipped: bool, down: bool, left: bool, ctrl: bool, shift: bool,
             mouse: Point, frame: Size, room: bool)

  /** An accepted message of the virtual finger, and the mouse event it comes from. */
  datatype Touch = Touch(action: TouchAction, point: Point, e: Event)

  datatype Finger = Finger(down: bool, invertX: bool, invertY: bool)

  const RELEASED := Finger(false, false, false)

  function InversePoint(p: Point, size: Size, invertX: bool, invertY: bool): Point
  {
    Point(if invertX then size.width - p.x else p.x, if invertY then size.height - p.y else p.y)
  }

  function Simulate(f: Finger, action: TouchAction, e: Event): Option<Touch>
  {
    if e.room then Some(Touch(action, InversePoint(e.mouse, e.frame, f.invertX, f.invertY), e))
    else None
  }

  /** The next state and the accepted message, in the relative mode or not. */
  function Handle(relative: bool, f: Finger, e: Event): (r: (Finger, Option<Touch>))
  {
    match e
    case Motion(skipped, _, _, _) =>
      if skipped || !f.down then (f, None) else (f, Simulate(f, Move, e))
    case Button(skipped, down, left, ctrl, shift, _, _, _) =>
      var change := left && ((down && !f.down && (ctrl || shift)) || (!down && f.down));
      if skipped || relative || !change then (f, None) else
        var g := if down then f.(invertX := ctrl != shift, invertY := ctrl) else f;
        match Simulate(g, if down then Down else Up, e)
        case None => (g, None)
        case Some(touch) => (g.(down := down), Some(touch))
  }

  class InputManager {
    const relative: bool
    var vfingerDown: bool
    var vfingerInvertX: bool
    var vfingerInvertY: bool

    constructor (relative: bool)
      ensures this.relative == relative && Model() == RELEASED
    {
      this.relative := relative;
      vfingerDown, vfingerInvertX, vfingerInvertY := false, false, false;
    }

    ghost function Model(): Finger
      reads this
    {
      Finger(vfingerDown, vfingerInvertX, vfingerInvertY)
    }

    /** The messages of the mouse itself are not modelled, only those of the virtual finger. */
    method ProcessMouseMotion(e: Event) returns (accepted: Option<Touch>)
      requires e.Motion?
      ensures (Model(), accepted) == Handle(relative, old(Model()), e)
    {
      accepted := None;
      if e.skipped {
        return;
      }
      if vfingerDown {
        var vfinger := InversePoint(e.mouse, e.frame, vfingerInvertX, vfingerInvertY);
        if e.room {
          accepted := Some(Touch(Move, vfinger, e));
        }
      }
    }

    method ProcessMouseButton(e: Event) returns (accepted: Option<Touch>)
      requires e.Button?
      modifies this
      ensures (Model(), accepted) == Handle(relative, old(Model()), e)
    {
      accepted := None;
      if e.skipped {
        return;
      }
      var changeVfinger := e.left && ((e.down && !vfingerDown && (e.ctrl || e.shift)) || (!e.down && vfingerDown));
      if relative {
        return;
      }
      if changeVfinger {
        if e.down {
          vfingerInvertX := e.ctrl != e.shift;
          vfingerInvertY := e.ctrl;
        }
        var vfinger := InversePoint(e.mouse, e.frame, vfingerInvertX, vfingerInvertY);
        if !e.room {
          return;
        }
        accepted := Some(Touch(if e.down then Down else Up, vfinger, e));
        vfingerDown := e.down;
      }
    }
  }

  /** The state and the accepted messages after a run of events. */
  function After(relative: bool, events: seq<Event>): (Finger, seq<Touch>)
  {
    if events == [] then (RELEASED, []) else
      var (f, log) := After(relative, events[..|events| - 1]);
      var (g, touch) := Handle(relative, f, events[|events| - 1]);
      (g, if touch.Some? then log + [touch.value] else log)
  }

  /** Whether a gesture is open after a prefix of (DOWN MOVE* UP)*; None for anything else. */
  function Bracketing(log: seq<Touch>): Option<bool>
  {
    if log == [] then Some(false) else
      match Bracketing(log[..|log| - 1])
      case None => None
      case Some(open) =>
        match log[|log| - 1].action
        case Down => if open then None else Some(true)
        case Move => if open then Some(true) else None
        case Up => if open then Some(false) else None
  }

  /** The reflection that the modifier keys choose when the finger goes down: through the center of
      the frame with Ctrl, its vertical axis with Shift, its horizontal axis with both. */
  predicate Chooses(e: Event, invertX: bool, invertY: bool)
  {
    e.Button? && match (invertX, invertY)
                 case (true, true) => e.ctrl && !e.shift
                 case (true, false) => !e.ctrl && e.shift
                 case (false, true) => e.ctrl && e.shift
                 case (false, false) => false
  }

  /** `q` is `p` reflected: the middle of both lies on the axis, or on both axes. */
  predicate Reflects(p: Point, q: Point, size: Size, invertX: bool, invertY: bool)
  {
    && (if invertX then p.x + q.x == size.width else p.x == q.x)
    && (if invertY then p.y + q.y == size.height else p.y == q.y)
  }

  /** The last gesture of the log uses one reflection, that its first event chooses. */
  ghost predicate Reflected(log: seq<Touch>, invertX: bool, invertY: bool)
  {
    log != [] &&
      var last := log[|log| - 1];
      && (invertX || invertY)
      && Reflects(last.e.mouse, last.point, last.e.frame, invertX, invertY)
      && (if last.action == Down then Chooses(last.e, invertX, invertY)
          else Reflected(log[..|log| - 1], invertX, invertY))
  }

  /** The messages are well bracketed, and each gesture uses one reflection from its DOWN on. */
  ghost predicate GestureInv(relative: bool, f: Finger, log: seq<Touch>)
  {
    && Bracketing(log) == Some(f.down)
    && (f.down ==> Reflected(log, f.invertX, f.invertY))
    && (log != [] ==> Reflected(log, true, false) || Reflected(log, false, true) || Reflected(log, true, true))
    && (relative ==> log == [])
  }

  /** Whatever the events, pauses and refusals, the accepted messages are well bracketed, and
      each gesture uses one fixed reflection from its DOWN on, chosen by the modifier keys. */
  lemma {:induction false} Gestures(relative: bool, events: seq<Event>)
    ensures var (f, log) := After(relative, events); GestureInv(relative, f, log)
  {
    if events != [] {
      var (before, e) := (events[..|events| - 1], events[|events| - 1]);
      Gestures(relative, before);
      var (f, log) := After(relative, before);
      GestureStep(relative, f, log, e);
    }
  }

  lemma Pushed(log: seq<Touch>, touch: Touch, x: bool, y: bool)
    ensures Reflected(log + [touch], x, y) <==>
              && (x || y) && Reflects(touch.e.mouse, touch.point, touch.e.frame, x, y)
              && (if touch.action == Down then Chooses(touch.e, x, y) else Reflected(log, x, y))
    ensures Bracketing(log + [touch]) ==
              match Bracketing(log)
              case None => None
              case Some(open) => if open == (touch.action == Down) then None else Some(touch.action != Up)
  {
    assert (log + [touch])[..|log|] == log;
  }

  /** A message for the finger `g`, which is down if it continues a gesture. */
  lemma Continued(relative: bool, f: Finger, log: seq<Touch>, g: Finger, touch: Touch)
    requires GestureInv(relative, f, log) && !relative && f.down == (touch.action != Down)
    requires touch.point == InversePoint(touch.e.mouse, touch.e.frame, g.invertX, g.invertY)
    requires g.down == (touch.action != Up)
    requires if touch.action == Down then Chooses(touch.e, g.invertX, g.invertY)
             else g.invertX == f.invertX && g.invertY == f.invertY
    ensures GestureInv(relative, g, log + [touch])
  {
    Pushed(log, touch, g.invertX, g.invertY);
    assert g.invertX || g.invertY;
    assert Reflected(log + [touch], g.invertX, g.invertY);
  }

  /** The events that continue the gesture: a press of the left button with Ctrl or Shift opens it, a
      motion moves it, a release closes it. */
  predicate Concerned(relative: bool, f: Finger, e: Event)
  {
    !e.skipped &&
      match e
      case Motion(_, _, _, _) => f.down
      case Button(_, down, left, ctrl, shift, _, _, _) => !relative && left && f.down != down && (down ==> ctrl || shift)
  }

  /** A message is sent for exactly these events, if the queue has room. A refused one opens or closes
      nothing: the gesture goes on with the next event. */
  lemma SentWhenConcerned(relative: bool, f: Finger, e: Event)
    ensures var (g, touch) := Handle(relative, f, e);
            && (touch.Some? <==> Concerned(relative, f, e) && e.room)
            && (touch.Some? ==> touch.value.e == e
                                && touch.value.action == (if e.Motion? then Move else if e.down then Down else Up))
            && g.down == if touch.Some? && e.Button? then e.down else f.down
  {
  }

  lemma GestureStep(relative: bool, f: Finger, log: seq<Touch>, e: Event)
    requires GestureInv(relative, f, log)
    ensures var (g, touch) := Handle(relative, f, e);
            GestureInv(relative, g, if touch.Some? then log + [touch.value] else log)
  {
    var (g, touch) := Handle(relative, f, e);
    if touch.Some? {
      assert relative ==> !f.down;
      Continued(relative, f, log, g, touch.value);
    }
  }

  /** A reflection is its own inverse and keeps the points of the frame inside it. */
  lemma ReflectionInvolutive(p: Point, size: Size, invertX: bool, invertY: bool)
    ensures var q := InversePoint(p, size, invertX, invertY);
            && InversePoint(q, size, invertX, invertY) == p
            && (0 <= p.x <= size.width && 0 <= p.y <= size.height ==>
                  0 <= q.x <= size.width && 0 <= q.y <= size.height)
  {
  }
}
