/** The delay buffer (delay_buffer.c): frames are held back until a deadline on the estimated clock,
    by a thread that waits under the mutex of the producer. A step is one critical section, or one
    delivery to the sinks. */
module DelayBuffer {
  import opened Arithmetic
  import opened Machine
  import opened Optional
  import opened StreamClock

  datatype Frame = Frame(id: nat, pts: int)

  /** The delay is positive; `asap`: the first frame is not delayed. */
  datatype Config = Config(delay: nat, asap: bool)

  /** When a frame popped at `popped` is due: on the estimated clock, but never later than the
      delay after it was popped. */
  function Deadline(c: Config, clock: Estimate, pts: int, popped: int): (d: int)
    ensures d <= popped + c.delay && d <= pts + clock.offset + c.delay
    ensures d == popped + c.delay || d == pts + clock.offset + c.delay
  {
    var deadline := pts + clock.offset + c.delay;
    if deadline > popped + c.delay then popped + c.delay else deadline
  }

  datatype BufferPc =
    | AwaitFrame
    | AwaitDeadline(frame: Frame, popped: int, deadline: int)
    | Delivering(frame: Frame, popped: int, deadline: int)
    | Undelivered(frame: Frame)
    | Ended

  /** `Direct`: the producer itself delivers the first frame. */
  datatype ProducerPc = Ready | Direct(frame: Frame)

  /** `signaled`: a clock update has signaled the thread since it last computed its deadline;
      `rejected`: the direct delivery of the first frame failed. The histories are the frames accepted
      and delivered, and when the thread delivered some. */
  datatype State = State(now: int, clock: Estimate, queue: seq<Frame>, stopped: bool, signaled: bool, rejected: bool,
                         buffer: BufferPc, producer: ProducerPc, accepted: seq<Frame>, delivered: seq<Frame>,
                         deliveries: seq<Delivery>)

  datatype Delivery = Delivery(frame: Frame, popped: int, deadline: int, at: int)

  datatype Action =
    | Tick(later: nat)
    | Push(frame: Frame)
    | DeliverDirect(ok: bool)
    | Pop
    | Wake(timedOut: bool)
    | Deliver(ok: bool)
    | Fail
    | Stop

  function Init(now: int): State
  {
    State(now, Estimate(0, 0), [], false, false, false, AwaitFrame, Ready, [], [], [])
  }

  // ---- the producer

  /** What a push does with a frame once the clock is updated. */
  datatype Pushed = Refused | Immediate | Queued

  function PushKind(c: Config, stopped: bool, clock: Estimate): Pushed
  {
    if stopped then Refused else if c.asap && clock.range == 1 then Immediate else Queued
  }

  function PushNext(c: Config, s: State, frame: Frame): State
  {
    var clock := Updated(s.clock, s.now - frame.pts);
    var t := s.(clock := clock, signaled := true, accepted := s.accepted + [frame]);
    match PushKind(c, s.stopped, clock)
    case Refused => s
    case Immediate => t.(producer := Direct(frame))
    case Queued => t.(queue := s.queue + [frame])
  }

  // ---- the buffering thread

  function PopNext(c: Config, s: State): Option<State>
  {
    if s.stopped then Some(s.(buffer := Ended, queue := []))
    else if s.queue == [] then None
    else
      var frame := s.queue[0];
      Some(s.(queue := s.queue[1..], signaled := false,
              buffer := AwaitDeadline(frame, s.now, Deadline(c, s.clock, frame.pts, s.now))))
  }

  /** A timed wait only times out once its deadline is reached. */
  function WakeNext(c: Config, s: State, timedOut: bool): Option<State>
  {
    match s.buffer
    case AwaitDeadline(frame, popped, deadline) =>
      if timedOut && s.now < deadline then None
      else if s.stopped then Some(s.(buffer := Ended, queue := []))
      else if timedOut then Some(s.(buffer := Delivering(frame, popped, deadline)))
      else Some(s.(signaled := false,
                   buffer := AwaitDeadline(frame, popped, Deadline(c, s.clock, frame.pts, popped))))
    case _ => None
  }

  function DeliverNext(s: State, ok: bool): Option<State>
  {
    match s.buffer
    case Delivering(frame, popped, deadline) =>
      if ok then Some(s.(buffer := AwaitFrame, delivered := s.delivered + [frame],
                         deliveries := s.deliveries + [Delivery(frame, popped, deadline, s.now)]))
      else Some(s.(buffer := Undelivered(frame)))
    case _ => None
  }

  function Next(c: Config, s: State, a: Action): Option<State>
  {
    match a
    case Tick(later) => Some(s.(now := s.now + later))
    case Push(frame) => if s.producer == Ready then Some(PushNext(c, s, frame)) else None
    case DeliverDirect(ok) =>
      (match s.producer
       case Ready => None
       case Direct(frame) =>
         if ok then Some(s.(producer := Ready, delivered := s.delivered + [frame]))
         // the push fails: the frame is not accepted after all
         else Some(s.(producer := Ready, accepted := [], rejected := true)))
    case Pop => if s.buffer == AwaitFrame then PopNext(c, s) else None
    case Wake(timedOut) => WakeNext(c, s, timedOut)
    case Deliver(ok) => DeliverNext(s, ok)
    case Fail => if s.buffer.Undelivered? then Some(s.(stopped := true, buffer := Ended, queue := [])) else None
    case Stop => Some(s.(stopped := true))
  }

  ghost function Step(c: Config): (State, Action) -> Option<State> { (s, a) => Next(c, s, a) }

  // ---- the same in place

  class Buffer {
    const config: Config
    const clock: Clock
    var queue: seq<Frame>
    var stopped: bool

    constructor (config: Config)
      ensures this.config == config && queue == [] && !stopped
      ensures fresh(clock) && clock.Model() == Estimate(0, 0)
    {
      this.config := config;
      clock := new Clock();
      queue, stopped := [], false;
    }

    ghost predicate Models(s: State)
      reads this, clock
    {
      clock.Model() == s.clock && clock.range <= CLOCK_RANGE && queue == s.queue && stopped == s.stopped
    }

    method PushFrame(frame: Frame, now: int, ghost s: State) returns (r: Pushed)
      requires Models(s) && now == s.now && s.producer == Ready
      modifies this`queue, clock
      ensures Models(PushNext(config, s, frame))
      ensures r == PushKind(config, s.stopped, Updated(s.clock, now - frame.pts))
    {
      if stopped {
        return Refused;
      }
      clock.Update(now, frame.pts);
      if config.asap && clock.range == 1 {
        return Immediate;
      }
      queue := queue + [frame];
      r := Queued;
    }

    method PopFrame(ghost s: State) returns (frame: Option<Frame>)
      requires Models(s) && (stopped || queue != [])
      modifies this`queue
      ensures PopNext(config, s).Some? && Models(PopNext(config, s).value)
      ensures if s.stopped then frame == None else frame == Some(s.queue[0])
    {
      if stopped {
        queue := [];
        return None;
      }
      frame := Some(queue[0]);
      queue := queue[1..];
    }

    /** One turn of the wait: the deadline to wait for. */
    method ComputeDeadline(pts: int, popped: int) returns (deadline: int)
      requires clock.range > 0
      ensures deadline == Deadline(config, clock.Model(), pts, popped)
    {
      var maxDeadline := popped + config.delay;
      var system := clock.ToSystemTime(pts);
      deadline := system + config.delay;
      if deadline > maxDeadline {
        deadline := maxDeadline;
      }
    }

    method Close()
      modifies this`stopped
      ensures stopped && queue == old(queue)
    {
      stopped := true;
    }
  }

  // ---- the invariant

  function InHand(s: State): seq<Frame>
  {
    match s.buffer
    case AwaitDeadline(frame, _, _) => [frame]
    case Delivering(frame, _, _) => [frame]
    case Undelivered(frame) => [frame]
    case _ => []
  }

  function DirectFrame(s: State): seq<Frame>
  {
    match s.producer case Ready => [] case Direct(frame) => [frame]
  }

  ghost predicate FramesInv(s: State)
  {
    && (s.buffer == Ended ==> s.stopped && s.queue == [] && s.delivered + DirectFrame(s) <= s.accepted)
    && (s.buffer != Ended ==> s.delivered + DirectFrame(s) + InHand(s) + s.queue == s.accepted)
    && (s.clock.range == 0 <==> s.accepted == [] && !s.rejected)
    && (s.producer.Direct? ==> s.accepted == [s.producer.frame])
  }

  ghost predicate DeadlineInv(c: Config, s: State)
  {
    match s.buffer
    case AwaitDeadline(frame, popped, deadline) =>
      && popped <= s.now && deadline <= popped + c.delay && s.clock.range > 0
      && (!s.signaled ==> deadline == Deadline(c, s.clock, frame.pts, popped))
    case Delivering(frame, popped, deadline) => OnTime(c, Delivery(frame, popped, deadline, s.now))
    case _ => true
  }

  /** A delivery not before its deadline, itself at most the delay after the frame was popped. */
  predicate OnTime(c: Config, d: Delivery) { d.popped <= d.at && d.deadline <= d.at && d.deadline <= d.popped + c.delay }

  ghost predicate Inv(c: Config, s: State) { FramesInv(s) && DeadlineInv(c, s) }

  lemma PushKeeps(c: Config, s: State, frame: Frame)
    requires Inv(c, s) && s.producer == Ready
    ensures Inv(c, PushNext(c, s, frame))
  {
    if !s.stopped {
      assert s.delivered + [] + InHand(s) + (s.queue + [frame]) == s.accepted + [frame];
    }
  }

  lemma DirectKeeps(c: Config, s: State, ok: bool)
    requires Inv(c, s) && Next(c, s, DeliverDirect(ok)).Some?
    ensures Inv(c, Next(c, s, DeliverDirect(ok)).value)
  {
    assert |s.delivered + DirectFrame(s)| <= |s.accepted| == 1;
    assert s.delivered == [];
  }

  lemma BufferKeeps(c: Config, s: State, a: Action)
    requires Inv(c, s) && Next(c, s, a).Some? && (a.Pop? || a.Wake? || a.Deliver?)
    ensures Inv(c, Next(c, s, a).value)
  {
    if s.buffer == AwaitFrame && s.queue != [] {
      assert s.queue == [s.queue[0]] + s.queue[1..];
      assert s.clock.range > 0;
    }
    assert s.delivered + DirectFrame(s) <= s.delivered + DirectFrame(s) + InHand(s) + s.queue;
    if s.buffer.Delivering? {
      DeliveredMoves(s);
    }
  }

  lemma DeliveredMoves(s: State)
    requires FramesInv(s) && s.buffer.Delivering?
    ensures (s.delivered + [s.buffer.frame]) + DirectFrame(s) + [] + s.queue == s.accepted
  {
    assert |s.delivered| + |DirectFrame(s)| + 1 + |s.queue| == |s.accepted|;
  }

  lemma NextKeeps(c: Config, s: State, a: Action)
    requires Inv(c, s) && Next(c, s, a).Some?
    ensures Inv(c, Next(c, s, a).value)
  {
    match a
    case Push(frame) => PushKeeps(c, s, frame);
    case DeliverDirect(ok) => DirectKeeps(c, s, ok);
    case Pop | Wake(_) | Deliver(_) => BufferKeeps(c, s, a);
    case Fail => assert s.delivered + DirectFrame(s) <= s.delivered + DirectFrame(s) + InHand(s) + s.queue;
    case Tick(_) | Stop =>
  }

  /** The deliveries by the thread are the last ones; only the first frame may be delivered otherwise. */
  ghost predicate DeliveriesInv(c: Config, s: State)
  {
    && (forall i :: 0 <= i < |s.deliveries| ==> OnTime(c, s.deliveries[i]))
    && |s.deliveries| <= |s.delivered| <= |s.deliveries| + 1
    && (|s.delivered| == |s.deliveries| + 1 || s.producer.Direct? <==> c.asap && s.accepted != [] && !s.rejected)
    && (s.producer.Direct? ==> |s.delivered| == |s.deliveries|)
    && var direct := |s.delivered| - |s.deliveries|;
       forall i :: 0 <= i < |s.deliveries| ==> s.deliveries[i].frame == s.delivered[direct + i]
  }

  lemma DeliveriesKept(c: Config, s: State, a: Action)
    requires Inv(c, s) && DeliveriesInv(c, s) && Next(c, s, a).Some?
    ensures DeliveriesInv(c, Next(c, s, a).value)
  {
    match a
    case Push(frame) => DeliveriesPush(c, s, frame);
    case DeliverDirect(ok) => DeliveriesDirect(c, s, ok);
    case Deliver(ok) => DeliveriesMore(c, s, ok);
    case _ =>
      var t := Next(c, s, a).value;
      assert t.deliveries == s.deliveries && t.delivered == s.delivered && t.producer == s.producer;
  }

  lemma DeliveriesMore(c: Config, s: State, ok: bool)
    requires Inv(c, s) && DeliveriesInv(c, s) && Next(c, s, Deliver(ok)).Some?
    ensures DeliveriesInv(c, Next(c, s, Deliver(ok)).value)
  {
    var t := Next(c, s, Deliver(ok)).value;
    assert |t.delivered| - |t.deliveries| == |s.delivered| - |s.deliveries| && t.producer == s.producer;
  }

  lemma DeliveriesPush(c: Config, s: State, frame: Frame)
    requires Inv(c, s) && DeliveriesInv(c, s) && s.producer == Ready
    ensures DeliveriesInv(c, PushNext(c, s, frame))
  {
    if s.accepted == [] {
      assert |s.delivered| == 0;
    }
  }

  lemma DeliveriesDirect(c: Config, s: State, ok: bool)
    requires Inv(c, s) && DeliveriesInv(c, s) && s.producer.Direct?
    ensures DeliveriesInv(c, Next(c, s, DeliverDirect(ok)).value)
  {
    assert |s.delivered| + 1 <= |s.accepted| == 1;
  }

  ghost predicate Reachable(c: Config, now: int, s: State)
  {
    Reaches(Init(now), Step(c), s)
  }

  lemma ReachableInv(c: Config, now: int, s: State)
    requires Reachable(c, now, s)
    ensures Inv(c, s)
  {
    forall s, a | Inv(c, s) && Step(c)(s, a).Some?
      ensures Inv(c, Step(c)(s, a).value)
    {
      NextKeeps(c, s, a);
    }
    Invariant(Init(now), Step(c), (s: State) => Inv(c, s), s);
  }

  // ---- the main results, over every interleaving

  /** Until the thread ends, the frames delivered, in delivery and queued are exactly the frames
      accepted, in order; afterwards those delivered are still the first ones accepted. */
  lemma FramesConserved(c: Config, now: int, s: State)
    requires Reachable(c, now, s)
    ensures && s.delivered <= s.accepted
            && (s.buffer != Ended ==> s.delivered + DirectFrame(s) + InHand(s) + s.queue == s.accepted)
            && (s.buffer == Ended ==> s.stopped)
  {
    ReachableInv(c, now, s);
    assert s.delivered <= s.delivered + DirectFrame(s);
  }

  /** The frames about to be delivered, by the producer or by the thread. */
  function Leaving(s: State): nat
  {
    |DirectFrame(s)| + if s.buffer.Delivering? then 1 else 0
  }

  ghost predicate Stopping(s: State, t: State)
  {
    && t.stopped && t.accepted <= s.accepted && (InHand(t) == [] || InHand(t) == InHand(s))
    && |t.delivered| + Leaving(t) <= |s.delivered| + Leaving(s)
  }

  lemma StoppingKept(c: Config, s: State, t: State, a: Action)
    requires Stopping(s, t) && Next(c, t, a).Some?
    ensures Stopping(s, Next(c, t, a).value)
  {
    match a
    case Pop | Wake(_) | Fail => StoppingThread(c, s, t, a);
    case Deliver(ok) => assert t.buffer.Delivering?;
    case Push(_) | Tick(_) | Stop | DeliverDirect(_) =>
  }

  lemma StoppingThread(c: Config, s: State, t: State, a: Action)
    requires Stopping(s, t) && (a.Pop? || a.Wake? || a.Fail?) && Next(c, t, a).Some?
    ensures Stopping(s, Next(c, t, a).value)
  {
    var u := Next(c, t, a).value;
    assert u.stopped && u.buffer == Ended && u.accepted == t.accepted && u.delivered == t.delivered && u.producer == t.producer;
  }

  /** Once the buffer is stopped, for good, no frame is accepted or taken from the queue any more, and
      those about to be delivered are the last ones. */
  lemma StoppedForGood(c: Config, s: State, t: State)
    requires s.stopped && Reaches(s, Step(c), t)
    ensures t.stopped && t.accepted <= s.accepted
    ensures InHand(t) == [] || InHand(t) == InHand(s)
    ensures |t.delivered| <= |s.delivered| + Leaving(s)
  {
    forall t, a | Stopping(s, t) && Step(c)(t, a).Some?
      ensures Stopping(s, Step(c)(t, a).value)
    {
      StoppingKept(c, s, t, a);
    }
    Invariant(s, Step(c), (t: State) => Stopping(s, t), t);
  }

  /** A delivery that fails is the last one of the thread, which then stops the buffer. */
  lemma FailureEnds(c: Config, s: State, first: State, t: State)
    requires Next(c, s, Deliver(false)) == Some(first) && Reaches(first, Step(c), t)
    ensures t.deliveries == s.deliveries
    ensures t.buffer != Ended ==> Next(c, t, Fail).Some? && Next(c, t, Fail).value.stopped
  {
    Invariant(first, Step(c), (t: State) => t.deliveries == s.deliveries && (t.buffer == Ended || t.buffer.Undelivered?), t);
  }

  /** The thread waits for the deadline of the current clock, unless it has been signaled to compute
      it again; and never for more than the delay after the frame was popped. */
  lemma DeadlineBounded(c: Config, now: int, s: State)
    requires Reachable(c, now, s)
    ensures match s.buffer
            case AwaitDeadline(frame, popped, deadline) =>
              && deadline <= popped + c.delay
              && (s.signaled || deadline == Min(frame.pts + s.clock.offset + c.delay, popped + c.delay))
            case _ => true
  {
    ReachableInv(c, now, s);
  }

  /** It computes the deadline of the current clock each time it starts to wait, for a frame just taken
      or again. */
  lemma DeadlineCurrent(c: Config, now: int, s: State, a: Action)
    requires Reachable(c, now, s) && (a.Pop? || a.Wake?) && Next(c, s, a).Some?
    ensures var t := Next(c, s, a).value;
            match t.buffer
            case AwaitDeadline(frame, popped, deadline) =>
              && (a.Pop? ==> [frame] + t.queue == s.queue && popped == s.now)
              && (a.Wake? ==> s.buffer.AwaitDeadline? && frame == s.buffer.frame && popped == s.buffer.popped)
              && !t.signaled && deadline == Min(frame.pts + t.clock.offset + c.delay, popped + c.delay)
            case _ => true
  {
    ReachableInv(c, now, s);
  }

  /** In every run, no frame is delivered before the deadline the thread waited for; exactly the first
      frame, if so requested, is delivered at once. */
  lemma DeliveredWhenDue(c: Config, now: int, s: State)
    requires Reachable(c, now, s)
    ensures DeliveriesInv(c, s)
  {
    forall s, a | Inv(c, s) && DeliveriesInv(c, s) && Step(c)(s, a).Some?
      ensures Inv(c, Step(c)(s, a).value) && DeliveriesInv(c, Step(c)(s, a).value)
    {
      NextKeeps(c, s, a);
      DeliveriesKept(c, s, a);
    }
    Invariant(Init(now), Step(c), (s: State) => Inv(c, s) && DeliveriesInv(c, s), s);
  }

  /** From the delay after the frame was popped on, the wait can end and the frame be delivered. */
  lemma WaitCanEnd(c: Config, now: int, s: State)
    requires Reachable(c, now, s) && s.buffer.AwaitDeadline? && !s.stopped && s.now >= s.buffer.popped + c.delay
    ensures Next(c, s, Wake(true)).Some? && InHand(Next(c, s, Wake(true)).value) == InHand(s)
    ensures Next(c, Next(c, s, Wake(true)).value, Deliver(true)).Some?
    ensures Next(c, Next(c, s, Wake(true)).value, Deliver(true)).value.delivered == s.delivered + [s.buffer.frame]
  {
    ReachableInv(c, now, s);
  }

  /** Only the first frame may be delivered directly, and then nothing else is accepted yet. */
  lemma DirectIsFirst(c: Config, now: int, s: State)
    requires Reachable(c, now, s)
    ensures s.producer.Direct? ==> s.accepted == [s.producer.frame] && s.delivered == [] && s.queue == []
  {
    ReachableInv(c, now, s);
    if s.producer.Direct? && s.buffer != Ended {
      assert |s.delivered + DirectFrame(s) + InHand(s) + s.queue| == 1;
    }
    if s.producer.Direct? && s.buffer == Ended {
      assert |s.delivered + DirectFrame(s)| <= 1;
    }
  }
}
