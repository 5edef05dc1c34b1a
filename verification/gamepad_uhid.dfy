/** Gamepads over UHID (gamepad_uhid.c): slot changes become control messages, pushed to the
    bounded queue that the controller thread empties onto the socket. */
module GamepadUhid {
  import opened BigEndian
  import opened ControlMessages
  import opened ControlQueue
  import opened Counting
  import opened Gamepads
  import opened HidBracketing
  import opened Machine
  import opened Optional

  const VENDOR_ID := 0x045e
  const PRODUCT_ID := 0x028e

  /** The name and the report descriptor of the emulated gamepad. */
  datatype Pad = Pad(name: Text, descriptor: Descriptor)

  function MessageOf(pad: Pad, r: Request): Message
  {
    match r
    case Open(id) => UhidCreate(id, VENDOR_ID, PRODUCT_ID, Some(pad.name), pad.descriptor)
    case Input(id, data) => UhidInput(id, data)
    case Close(id) => UhidDestroy(id)
  }

  function PushRequest(pad: Pad, queue: seq<Message>, r: Option<Request>): seq<Message>
  {
    match r
    case None => queue
    case Some(request) => Push(queue, MessageOf(pad, request)).0
  }

  class Gamepad {
    const hid: HidGamepad
    const controller: Controller
    const pad: Pad

    constructor (controller: Controller, pad: Pad)
      ensures this.controller == controller && this.pad == pad
      ensures fresh(hid) && hid.Valid() && fresh(hid.slots)
      ensures forall i :: 0 <= i < MAX_GAMEPADS ==> !InUse(hid.slots[i])
    {
      this.controller, this.pad := controller, pad;
      hid := new HidGamepad();
    }

    method Send(r: Option<Request>)
      requires controller.Valid()
      modifies controller
      ensures controller.Valid() && controller.queue == PushRequest(pad, old(controller.queue), r)
    {
      if r.Some? {
        var _ := controller.PushMsg(MessageOf(pad, r.value));
      }
    }

    /** The four event handlers. */
    method Process(e: Event)
      requires hid.Valid() && controller.Valid() && ValidId(e)
      modifies hid.slots, controller
      ensures hid.Valid() && controller.Valid()
      ensures hid.slots[..] == Handle(old(hid.slots[..]), e).0
      ensures controller.queue == PushRequest(pad, old(controller.queue), Handle(old(hid.slots[..]), e).1)
    {
      var r: Option<Request>;
      match e {
        case Added(id) => r := hid.GenerateOpen(id);
        case Removed(id) => r := hid.GenerateClose(id);
        case Axis(_, _, _) => r := hid.GenerateInputFromAxis(e);
        case Button(_, _, _) => r := hid.GenerateInputFromButton(e);
      }
      Send(r);
    }
  }

  // ---- the whole control plane as a machine

  /** `asked` is the history of what the gamepads asked to send. */
  datatype State = State(slots: Slots, queue: seq<Message>, wire: seq<Message>, asked: seq<Request>)

  datatype Action =
    | Gamepad(e: Event)
    /** Any other user of the queue: the hid ids of gamepads are not used elsewhere. */
    | Other(m: Message)
    /** The controller thread takes a message and sends it. */
    | Send

  ghost function Init(): State
  {
    State(seq(MAX_GAMEPADS, _ => FreshSlot(ID_INVALID)), [], [], [])
  }

  /** What a control message means for a HID device. */
  function RequestOf(m: Message): Option<Request>
  {
    match m
    case UhidCreate(id, _, _, _, _) => Some(Request.Open(id))
    case UhidInput(id, data) => Some(Request.Input(id, data))
    case UhidDestroy(id) => Some(Request.Close(id))
    case _ => None
  }

  function Next(pad: Pad, s: State, a: Action): Option<State>
  {
    match a
    case Gamepad(e) =>
      if !ValidId(e) then None else
        var (slots, r) := Handle(s.slots, e);
        Some(s.(slots := slots, queue := PushRequest(pad, s.queue, r),
                asked := if r.Some? then s.asked + [r.value] else s.asked))
    case Other(m) =>
      if RequestOf(m).Some? && IsGamepadId(RequestOf(m).value.hidId) then None
      else Some(s.(queue := Push(s.queue, m).0))
    case Send =>
      if s.queue == [] then None
      else Some(s.(queue := s.queue[1..], wire := s.wire + [s.queue[0]]))
  }

  ghost function Step(pad: Pad): (State, Action) -> Option<State> { (s, a) => Next(pad, s, a) }

  /** The opens and closes among requests. */
  function Lifecycle(asked: seq<Request>): seq<Request>
  {
    if asked == [] then [] else
      var last := asked[|asked| - 1];
      Lifecycle(asked[..|asked| - 1]) + if last.Input? then [] else [last]
  }

  /** The open or close of a gamepad that a message is, if any. */
  function LifecycleOf(m: Message): seq<Request>
  {
    match RequestOf(m)
    case None => []
    case Some(r) => if r.Input? || !IsGamepadId(r.hidId) then [] else [r]
  }

  function LifecycleIn(log: seq<Message>): seq<Request>
  {
    if log == [] then [] else LifecycleIn(log[..|log| - 1]) + LifecycleOf(log[|log| - 1])
  }

  ghost predicate AskedInv(s: State)
  {
    && LifecycleIn(s.wire + s.queue) == Lifecycle(s.asked)
    && forall r :: r in s.asked ==> IsGamepadId(r.hidId)
  }

  lemma LifecyclePush(wire: seq<Message>, queue: seq<Message>, m: Message)
    ensures LifecycleIn(wire + (queue + [m])) == LifecycleIn(wire + queue) + LifecycleOf(m)
    ensures LifecycleOf(m) == [] ==> LifecycleIn(wire + (queue + [m])) == LifecycleIn(wire + queue)
  {
    var log := wire + (queue + [m]);
    assert log[..|log| - 1] == wire + queue;
    assert LifecycleIn(wire + queue) + [] == LifecycleIn(wire + queue);
  }

  lemma LifecycleAsked(asked: seq<Request>, r: Request)
    ensures Lifecycle(asked + [r]) == if r.Input? then Lifecycle(asked) else Lifecycle(asked) + [r]
  {
    assert (asked + [r])[..|asked|] == asked;
    assert Lifecycle(asked) + [] == Lifecycle(asked);
  }

  lemma RequestLifecycle(pad: Pad, r: Request)
    requires IsGamepadId(r.hidId)
    ensures LifecycleOf(MessageOf(pad, r)) == if r.Input? then [] else [r]
    ensures IsDroppable(MessageOf(pad, r)) == r.Input?
  {
  }

  lemma PushLifecycle(pad: Pad, wire: seq<Message>, queue: seq<Message>, asked: seq<Request>, r: Request)
    requires LifecycleIn(wire + queue) == Lifecycle(asked) && IsGamepadId(r.hidId)
    ensures LifecycleIn(wire + PushRequest(pad, queue, Some(r))) == Lifecycle(asked + [r])
  {
    var m := MessageOf(pad, r);
    RequestLifecycle(pad, r);
    LifecyclePush(wire, queue, m);
    LifecycleAsked(asked, r);
    if r.Input? {
      assert PushRequest(pad, queue, Some(r)) in {queue, queue + [m]};
    } else {
      assert PushRequest(pad, queue, Some(r)) == queue + [m];
    }
  }

  lemma AskedGamepad(pad: Pad, s: State, e: Event)
    requires AskedInv(s) && ValidId(e)
    ensures AskedInv(Next(pad, s, Gamepad(e)).value)
  {
    HandleMeaning(s.slots, e);
    var r := Handle(s.slots, e).1;
    if r.Some? {
      PushLifecycle(pad, s.wire, s.queue, s.asked, r.value);
    }
  }

  lemma AskedKeeps(pad: Pad, s: State, a: Action)
    requires AskedInv(s) && Next(pad, s, a).Some?
    ensures AskedInv(Next(pad, s, a).value)
  {
    match a
    case Gamepad(e) => AskedGamepad(pad, s, e);
    case Other(m) => OtherAsked(s.wire, s.queue, m);
    case Send => assert (s.wire + [s.queue[0]]) + s.queue[1..] == s.wire + s.queue;
  }

  lemma OtherAsked(wire: seq<Message>, queue: seq<Message>, m: Message)
    requires RequestOf(m).Some? ==> !IsGamepadId(RequestOf(m).value.hidId)
    ensures LifecycleIn(wire + Push(queue, m).0) == LifecycleIn(wire + queue)
  {
    assert LifecycleOf(m) == [];
    LifecyclePush(wire, queue, m);
  }

  /** The bracketing of the whole history is open for exactly the slots in use, and messages
      beyond the limit are never droppable. */
  ghost predicate Inv(s: State)
  {
    && (forall i :: 0 <= i < MAX_GAMEPADS ==>
          Bracketing(RequestOf, HID_ID_FIRST + i, s.wire + s.queue) == Some(InUse(s.slots[i])))
    && (forall i :: QUEUE_LIMIT <= i < |s.queue| ==> !IsDroppable(s.queue[i]))
  }

  lemma RequestBracketing(pad: Pad, s: State, e: Event, i: nat)
    requires Inv(s) && ValidId(e) && i < MAX_GAMEPADS
    ensures var (slots, r) := Handle(s.slots, e);
            Bracketing(RequestOf, HID_ID_FIRST + i, s.wire + PushRequest(pad, s.queue, r)) == Some(InUse(slots[i]))
  {
    HandleMeaning(s.slots, e);
    var (slots, r) := Handle(s.slots, e);
    if r.Some? {
      PushedBracketing(RequestOf, HID_ID_FIRST + i, s.wire, s.queue, MessageOf(pad, r.value));
    }
  }

  lemma RequestKeeps(pad: Pad, s: State, e: Event)
    requires Inv(s) && ValidId(e)
    ensures Inv(Next(pad, s, Gamepad(e)).value)
  {
    forall i | 0 <= i < MAX_GAMEPADS
      ensures Bracketing(RequestOf, HID_ID_FIRST + i, s.wire + PushRequest(pad, s.queue, Handle(s.slots, e).1))
              == Some(InUse(Handle(s.slots, e).0[i]))
    {
      RequestBracketing(pad, s, e, i);
    }
  }

  lemma NextKeeps(pad: Pad, s: State, a: Action)
    requires Inv(s) && Next(pad, s, a).Some?
    ensures Inv(Next(pad, s, a).value)
  {
    match a
    case Gamepad(e) => RequestKeeps(pad, s, e);
    case Other(m) =>
      forall i | 0 <= i < MAX_GAMEPADS
        ensures Bracketing(RequestOf, HID_ID_FIRST + i, s.wire + Push(s.queue, m).0) == Some(InUse(s.slots[i]))
      {
        PushedBracketing(RequestOf, HID_ID_FIRST + i, s.wire, s.queue, m);
      }
    case Send =>
      forall i | 0 <= i < MAX_GAMEPADS
        ensures Bracketing(RequestOf, HID_ID_FIRST + i, (s.wire + [s.queue[0]]) + s.queue[1..]) == Some(InUse(s.slots[i]))
      {
        MovedBracketing(RequestOf, HID_ID_FIRST + i, s.wire, s.queue);
      }
  }

  ghost predicate Reachable(pad: Pad, s: State)
  {
    Reaches(Init(), Step(pad), s)
  }

  lemma ReachableInv(pad: Pad, s: State)
    requires Reachable(pad, s)
    ensures Inv(s)
  {
    forall s, a | Inv(s) && Step(pad)(s, a).Some?
      ensures Inv(Step(pad)(s, a).value)
    {
      NextKeeps(pad, s, a);
    }
    Invariant(Init(), Step(pad), (s: State) => Inv(s), s);
  }

  // ---- the main results, over every run

  /** However full the queue gets, what is sent for each hid id is a prefix of
      (CREATE INPUT* DESTROY)*; with the queue, it is open for exactly the gamepads in use. */
  lemma WellBracketed(pad: Pad, s: State, id: U16)
    requires IsGamepadId(id) && Reachable(pad, s)
    ensures && Bracketing(RequestOf, id, s.wire).Some?
            && Bracketing(RequestOf, id, s.wire + s.queue) == Some(InUse(s.slots[id - HID_ID_FIRST]))
  {
    ReachableInv(pad, s);
    var i := id - HID_ID_FIRST;
    assert Bracketing(RequestOf, HID_ID_FIRST + i, s.wire + s.queue) == Some(InUse(s.slots[i]));
    PrefixBracketing(RequestOf, id, s.wire + s.queue, |s.wire|);
    assert (s.wire + s.queue)[..|s.wire|] == s.wire;
  }

  /** At most QUEUE_LIMIT droppable messages are ever queued. */
  lemma DroppablesLimited(pad: Pad, s: State)
    requires Reachable(pad, s)
    ensures Count(IsDroppable, s.queue) <= QUEUE_LIMIT
  {
    ReachableInv(pad, s);
    CountBound(IsDroppable, s.queue, QUEUE_LIMIT);
  }

  /** Gamepads only ever use their own hid ids, and none of their opens and closes is dropped or
      reordered, however full the queue gets. */
  lemma LifecycleKept(pad: Pad, s: State)
    requires Reachable(pad, s)
    ensures LifecycleIn(s.wire + s.queue) == Lifecycle(s.asked)
    ensures forall r :: r in s.asked ==> IsGamepadId(r.hidId)
  {
    forall s, a | AskedInv(s) && Step(pad)(s, a).Some?
      ensures AskedInv(Step(pad)(s, a).value)
    {
      AskedKeeps(pad, s, a);
    }
    Invariant(Init(), Step(pad), (s: State) => AskedInv(s), s);
  }
}
