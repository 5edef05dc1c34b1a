/** The one-frame mailbox between a decoder and its consumer (frame_buffer.c), and the two
    notification protocols that make its assertion hold: the flag of the v4l2 sink (v4l2_sink.c)
    and the events of the screen (screen.c). */
module FrameMailbox {
  import opened Machine
  import opened Optional

  datatype Frame = Frame(id: nat)

  /** The pending frame, and whether it has been consumed. */
  datatype Box = Box(pending: Option<Frame>, consumed: bool)

  function PushFrame(b: Box, frame: Frame): (r: (Box, bool))
    ensures r.1 == !b.consumed
  {
    (Box(Some(frame), false), !b.consumed)
  }

  class FrameBuffer {
    var pendingFrame: Option<Frame>
    var tmpFrame: Option<Frame>
    var pendingFrameConsumed: bool

    ghost predicate Valid()
      reads this
    {
      tmpFrame == None && (!pendingFrameConsumed ==> pendingFrame.Some?)
    }

    ghost function Model(): Box
      reads this
    {
      Box(pendingFrame, pendingFrameConsumed)
    }

    constructor ()
      ensures Valid() && Model() == Box(None, true)
    {
      pendingFrame, tmpFrame, pendingFrameConsumed := None, None, true;
    }

    /** `referenced`: whether the frame could be referenced. */
    method Push(frame: Frame, referenced: bool) returns (ok: bool, previousFrameSkipped: bool)
      requires Valid()
      modifies this
      ensures Valid() && ok == referenced
      ensures if ok then (Model(), previousFrameSkipped) == PushFrame(old(Model()), frame) else Model() == old(Model())
    {
      if !referenced {
        return false, false;
      }
      tmpFrame := Some(frame);
      pendingFrame, tmpFrame := tmpFrame, pendingFrame;
      tmpFrame := None;
      previousFrameSkipped := !pendingFrameConsumed;
      pendingFrameConsumed := false;
      ok := true;
    }

    method Consume() returns (dst: Frame)
      requires Valid() && !pendingFrameConsumed
      modifies this
      ensures Valid() && Some(dst) == old(Model().pending) && Model() == Box(None, true)
    {
      pendingFrameConsumed := true;
      dst := pendingFrame.value;
      pendingFrame := None;
    }
  }

  // ---- the protocols

  /** A flag is set to true; events are counted. */
  datatype Kind = Flag | Events

  /** A push that fails ends the producer (decoder.c:64, demuxer.c:260, delay_buffer.c:84). */
  datatype ProducerPc = Idle | Notify | Closed
  datatype ConsumerPc = Waiting | Consuming | Busy | Ended

  /** `notifications`: the flag (0 or 1) or the pending events; `lost`: an event could not be
      posted. The histories are the frames pushed, the positions of those consumed, what the
      consumer got, and how many frames were skipped. */
  datatype State = State(box: Box, notifications: nat, producer: ProducerPc, consumer: ConsumerPc,
                         stopped: bool, lost: bool, assertFailed: bool,
                         pushed: seq<Frame>, taken: seq<nat>, got: seq<Frame>, skipped: nat)

  datatype Action =
    | Push(frame: Frame, referenced: bool)
    | Post(ok: bool)
    | Close
    | Take
    | Consume
    | Finish(ok: bool)
    | Stop

  function Init(): State
  {
    State(Box(None, true), 0, Idle, Waiting, false, false, false, [], [], [], 0)
  }

  function Next(kind: Kind, s: State, a: Action): Option<State>
  {
    match a
    case Push(frame, referenced) =>
      if s.producer != Idle then None else if !referenced then Some(s.(producer := Closed)) else
        var (box, skipped) := PushFrame(s.box, frame);
        Some(s.(box := box, pushed := s.pushed + [frame], producer := if skipped then Idle else Notify,
                skipped := s.skipped + if skipped then 1 else 0))
    case Post(ok) =>
      if s.producer != Notify then None
      else if kind == Flag then Some(s.(producer := Idle, notifications := 1))
      else if ok then Some(s.(producer := Idle, notifications := s.notifications + 1))
      else Some(s.(producer := Closed, lost := true))
    case Close => if s.producer == Idle then Some(s.(producer := Closed)) else None
    case Take =>
      if s.consumer != Waiting then None
      else if kind == Flag && s.stopped then Some(s.(consumer := Ended))
      else if s.notifications == 0 then None
      else Some(s.(consumer := Consuming, notifications := if kind == Flag then 0 else s.notifications - 1))
    case Consume =>
      if s.consumer != Consuming then None
      else if s.box.consumed || s.box.pending == None || s.pushed == [] then Some(s.(consumer := Ended, assertFailed := true))
      else Some(s.(consumer := Busy, box := Box(None, true), taken := s.taken + [|s.pushed| - 1],
                   got := s.got + [s.box.pending.value]))
    case Finish(ok) => if s.consumer == Busy then Some(s.(consumer := if ok then Waiting else Ended)) else None
    case Stop => Some(s.(stopped := true))
  }

  ghost function Step(kind: Kind): (State, Action) -> Option<State> { (s, a) => Next(kind, s, a) }

  /** The notification: about to be given, pending, or about to be used. */
  function Tokens(s: State): nat
  {
    (if s.producer == Notify then 1 else 0) + s.notifications + (if s.consumer == Consuming then 1 else 0)
  }

  function Unconsumed(s: State): nat { if s.box.consumed then 0 else 1 }

  predicate Increasing(taken: seq<nat>, bound: nat)
  {
    && (forall i :: 0 <= i < |taken| ==> taken[i] < bound)
    && (forall i, j :: 0 <= i < j < |taken| ==> taken[i] < taken[j])
  }

  ghost predicate TokenInv(kind: Kind, s: State)
  {
    && !s.assertFailed && (s.lost ==> kind == Events && s.producer == Closed)
    && Tokens(s) == (if s.lost then 0 else Unconsumed(s)) && (s.lost ==> !s.box.consumed)
  }

  ghost predicate FramesInv(box: Box, pushed: seq<Frame>, taken: seq<nat>, got: seq<Frame>)
  {
    && (!box.consumed ==> pushed != [] && box.pending == Some(pushed[|pushed| - 1]))
    && (box.consumed && pushed != [] ==> taken != [] && taken[|taken| - 1] == |pushed| - 1)
    && Increasing(taken, if box.consumed then |pushed| else |pushed| - 1) && |got| == |taken|
    && forall i :: 0 <= i < |taken| ==> got[i] == pushed[taken[i]]
  }

  ghost predicate Inv(kind: Kind, s: State)
  {
    && TokenInv(kind, s) && FramesInv(s.box, s.pushed, s.taken, s.got)
    && |s.taken| + s.skipped + Unconsumed(s) == |s.pushed|
  }

  lemma PushKeeps(b: Box, frame: Frame, pushed: seq<Frame>, taken: seq<nat>, got: seq<Frame>)
    requires FramesInv(b, pushed, taken, got)
    ensures FramesInv(PushFrame(b, frame).0, pushed + [frame], taken, got)
  {
  }

  lemma ConsumeKeeps(b: Box, pushed: seq<Frame>, taken: seq<nat>, got: seq<Frame>)
    requires FramesInv(b, pushed, taken, got) && !b.consumed
    ensures FramesInv(Box(None, true), pushed, taken + [|pushed| - 1], got + [b.pending.value])
  {
  }

  lemma PushStep(kind: Kind, s: State, frame: Frame, referenced: bool)
    requires Inv(kind, s) && Next(kind, s, Push(frame, referenced)).Some?
    ensures Inv(kind, Next(kind, s, Push(frame, referenced)).value)
  {
    PushKeeps(s.box, frame, s.pushed, s.taken, s.got);
  }

  lemma ConsumeStep(kind: Kind, s: State)
    requires Inv(kind, s) && Next(kind, s, Consume).Some?
    ensures Inv(kind, Next(kind, s, Consume).value)
  {
    ConsumeKeeps(s.box, s.pushed, s.taken, s.got);
  }

  /** The other steps only move the notification. */
  lemma TokenStep(kind: Kind, s: State, a: Action)
    requires Inv(kind, s) && !a.Push? && !a.Consume? && Next(kind, s, a).Some?
    ensures Inv(kind, Next(kind, s, a).value)
  {
    var t := Next(kind, s, a).value;
    assert t == s.(notifications := t.notifications, producer := t.producer, consumer := t.consumer,
                   stopped := t.stopped, lost := t.lost);
  }

  lemma NextKeeps(kind: Kind, s: State, a: Action)
    requires Inv(kind, s) && Next(kind, s, a).Some?
    ensures Inv(kind, Next(kind, s, a).value)
  {
    match a
    case Push(frame, referenced) => PushStep(kind, s, frame, referenced);
    case Consume => ConsumeStep(kind, s);
    case _ => TokenStep(kind, s, a);
  }

  ghost predicate Reachable(kind: Kind, s: State)
  {
    Reaches(Init(), Step(kind), s)
  }

  lemma ReachableInv(kind: Kind, s: State)
    requires Reachable(kind, s)
    ensures Inv(kind, s)
  {
    forall s, a | Inv(kind, s) && Step(kind)(s, a).Some?
      ensures Inv(kind, Step(kind)(s, a).value)
    {
      NextKeeps(kind, s, a);
    }
    Invariant(Init(), Step(kind), (s: State) => Inv(kind, s), s);
  }

  // ---- the main results, over every interleaving

  /** A frame is unconsumed if and only if there is exactly one notification: about to be given,
      pending, or about to be used; there are never two. */
  lemma OneToken(kind: Kind, s: State)
    requires Reachable(kind, s)
    ensures Tokens(s) <= 1 && (!s.lost ==> (Tokens(s) == 1 <==> !s.box.consumed))
  {
    ReachableInv(kind, s);
  }

  /** The assertion of sc_frame_buffer_consume never fails: whenever the consumer is about to consume,
      there is a frame. */
  lemma AssertionHolds(kind: Kind, s: State)
    requires Reachable(kind, s)
    ensures !s.assertFailed
    ensures s.consumer == Consuming ==> !s.box.consumed && s.box.pending.Some?
  {
    ReachableInv(kind, s);
  }

  /** Consumed frames are frames pushed, in order and never twice; each pushed frame is consumed,
      skipped or still pending. */
  lemma FramesConserved(kind: Kind, s: State)
    requires Reachable(kind, s)
    ensures && Increasing(s.taken, |s.pushed|) && |s.got| == |s.taken|
            && (forall i :: 0 <= i < |s.got| ==> s.got[i] == s.pushed[s.taken[i]])
            && |s.got| + s.skipped + Unconsumed(s) == |s.pushed|
  {
    ReachableInv(kind, s);
  }

  /** Each consume gets the most recently pushed frame. */
  lemma ConsumesLatest(kind: Kind, s: State)
    requires Reachable(kind, s)
    requires Next(kind, s, Consume).Some?
    ensures && s.pushed != []
            && Next(kind, s, Consume).value.got == s.got + [s.pushed[|s.pushed| - 1]]
  {
    ReachableInv(kind, s);
  }

  /** The flag is never lost. An event is lost only if it cannot be posted, which ends the producer:
      nothing more is pushed or consumed, and exactly one frame, the last one, is never displayed. */
  lemma LostOnlyAtTheEnd(kind: Kind, s: State, a: Action)
    requires Reachable(kind, s)
    ensures kind == Flag ==> !s.lost
    ensures s.lost && Next(kind, s, a).Some? ==>
              var t := Next(kind, s, a).value;
              t.lost && t.pushed == s.pushed && t.got == s.got && t.box == s.box
    ensures s.lost ==> |s.got| + s.skipped + 1 == |s.pushed| && s.box.pending == Some(s.pushed[|s.pushed| - 1])
  {
    ReachableInv(kind, s);
  }

  /** Nothing is lost, and the last frame is displayed, once the notifications are used. */
  lemma LastFrameConsumed(kind: Kind, s: State)
    requires Reachable(kind, s) && !s.lost && s.pushed != []
    requires s.producer != Notify && s.notifications == 0 && s.consumer != Consuming
    ensures s.got != [] && s.got[|s.got| - 1] == s.pushed[|s.pushed| - 1]
  {
    ReachableInv(kind, s);
  }

  /** Once stopped, the consumer of the flag consumes nothing more, but for the frame it has already
      been notified of. */
  lemma StopsConsuming(s: State, t: State)
    requires s.stopped && Reaches(s, Step(Flag), t)
    ensures t.stopped && |t.got| <= |s.got| + if s.consumer == Consuming then 1 else 0
  {
    var most := |s.got| + if s.consumer == Consuming then 1 else 0;
    Invariant(s, Step(Flag), (t: State) => t.stopped && |t.got| + (if t.consumer == Consuming then 1 else 0) <= most, t);
  }

  /** A frame that cannot be referenced, or an event that cannot be posted, ends the producer. */
  lemma FailureEndsProducer(kind: Kind, s: State, a: Action, first: State, t: State)
    requires (a.Push? && !a.referenced) || (a == Post(false) && kind == Events)
    requires Next(kind, s, a) == Some(first) && Reaches(first, Step(kind), t)
    ensures t.pushed == s.pushed && t.producer == Closed
  {
    Invariant(first, Step(kind), (t: State) => t.pushed == s.pushed && t.producer == Closed, t);
  }
}
