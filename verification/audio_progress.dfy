/** Every call of the audio regulator (audio_regulator.c) comes to its end: each step of a thread inside
    a call brings it closer, whatever the other thread does. */
module AudioProgress {
  import opened Arithmetic
  import opened AudioRegulator
  import opened Optional
  import opened Ring

  /** A write in progress, in less than Capacity + 3 steps. */
  function Copying(c: Config, op: Writing): int
  {
    match op case Load => Capacity(c) + 2 case Copy(_, done) => Capacity(c) + 1 - done
  }

  /** A bound on the steps left in a push. */
  function PushLeft(c: Config, pc: ProducerPc): int
  {
    var m := Capacity(c) + 3;
    match pc
    case Idle => 0
    case CheckGap(_, _) => 4 * m + 16
    case WriteSilence(_, op, _) => 3 * m + 15 + Copying(c, op)
    case WriteFrame(First, _, op) => 2 * m + 14 + Copying(c, op)
    case WaitLock(_) => 2 * m + 13
    case WriteFrame(Locked, _, op) => m + 12 + Copying(c, op)
    case DropLoad(_) => m + 11
    case DropStore(_, _) => m + 10
    case UnlockDrop(_) => m + 9
    case WriteFrame(Final, _, op) => 8 + Copying(c, op)
    case CheckPlayed => 7
    case CheckLevel(_) => 6
    case WaitSkip(_) => 5
    case Recheck(_) => 4
    case SkipLoad(_) => 3
    case SkipStore(_, _) => 2
    case UnlockSkip => 1
    case AssertFailed(_) => 0
  }

  /** A bound on the steps left in a pull. */
  function PullLeft(c: Config, pc: PlayerPc): int
  {
    match pc
    case Rest => 0
    case WaitRead(_) => Capacity(c) + 6
    case CheckStart(_) => Capacity(c) + 5
    case UnlockSilent => 1
    case ReadLoad(_) => Capacity(c) + 4
    case ReadCopy(_, _, out) => Capacity(c) + 3 - |out|
    case UnlockRead(_) => 2
    case FillEnd(_) => 1
  }

  lemma StartLeft(c: Config, s: State, frame: Option<seq<Sample>>)
    ensures 0 <= PushLeft(c, StartFrame(s, frame).producer) <= 3 * (Capacity(c) + 3) + 14
  {
  }

  lemma AfterLeft(c: Config, s: State, stage: Stage, rest: seq<Sample>, left: seq<Sample>)
    ensures 0 <= PushLeft(c, AfterWrite(s, stage, left).producer) < PushLeft(c, WriteFrame(stage, rest, Load)) - Capacity(c) - 2
  {
  }

  lemma SilenceProgress(c: Config, s: State)
    requires Inv(c, s) && s.producer.WriteSilence?
    ensures ProducerNext(c, s).Some?
    ensures 0 <= PushLeft(c, ProducerNext(c, s).value.producer) < PushLeft(c, s.producer)
  {
    Cursors(c, s);
    StartLeft(c, s, s.producer.next);
  }

  lemma FrameLoad(c: Config, s: State)
    requires s.producer.WriteFrame? && s.producer.op == Load
    ensures var WriteFrame(stage, rest, _) := s.producer;
            var pc := ProducerNext(c, s).value.producer;
            pc == AfterWrite(s, stage, rest).producer || (pc.WriteFrame? && pc == WriteFrame(stage, rest, Copy(pc.op.count, 0)))
  {
  }

  lemma FrameCopy(c: Config, s: State)
    requires s.producer.WriteFrame? && s.producer.op.Copy? && ProducerNext(c, s).Some?
    ensures var WriteFrame(stage, rest, op) := s.producer;
            var pc := ProducerNext(c, s).value.producer;
            || (op.count <= |rest| && pc == AfterWrite(s, stage, rest[op.count..]).producer)
            || (op.done < op.count && pc == WriteFrame(stage, rest, Copy(op.count, op.done + 1)))
  {
  }

  lemma FrameProgress(c: Config, s: State)
    requires Inv(c, s) && s.producer.WriteFrame?
    ensures ProducerNext(c, s).Some?
    ensures 0 <= PushLeft(c, ProducerNext(c, s).value.producer) < PushLeft(c, s.producer)
  {
    WriteKeeps(c, s);
    if s.producer.op.Copy? { CountBelow(c, s); }
    var WriteFrame(stage, rest, op) := s.producer;
    AfterLeft(c, s, stage, rest, rest);
    match op {
      case Load => FrameLoad(c, s);
      case Copy(count, done) =>
        FrameCopy(c, s);
        if count <= |rest| { AfterLeft(c, s, stage, rest, rest[count..]); }
    }
  }

  lemma CountBelow(c: Config, s: State)
    requires Inv(c, s) && s.producer.WriteFrame? && s.producer.op.Copy?
    ensures s.producer.op.done <= s.producer.op.count <= Capacity(c)
  {
    Cursors(c, s);
  }

  lemma GapProgress(c: Config, s: State)
    requires s.producer.CheckGap?
    ensures ProducerNext(c, s).Some?
    ensures 0 <= PushLeft(c, ProducerNext(c, s).value.producer) < PushLeft(c, s.producer)
  {
    StartLeft(c, s, s.producer.frame);
  }

  lemma DropProgress(c: Config, s: State)
    requires ProducerNext(c, s).Some?
    requires s.producer.WaitLock? || s.producer.DropLoad? || s.producer.DropStore? || s.producer.UnlockDrop?
    ensures 0 <= PushLeft(c, ProducerNext(c, s).value.producer) < PushLeft(c, s.producer)
  {
  }

  lemma SkipProgress(c: Config, s: State)
    requires ProducerNext(c, s).Some? && !s.producer.CheckGap? && !s.producer.WriteSilence? && !s.producer.WriteFrame?
    requires !s.producer.WaitLock? && !s.producer.DropLoad? && !s.producer.DropStore? && !s.producer.UnlockDrop?
    ensures 0 <= PushLeft(c, ProducerNext(c, s).value.producer) < PushLeft(c, s.producer)
  {
  }

  lemma PushProgress(c: Config, s: State)
    requires Inv(c, s) && ProducerNext(c, s).Some?
    ensures 0 <= PushLeft(c, ProducerNext(c, s).value.producer) < PushLeft(c, s.producer)
  {
    match s.producer
    case CheckGap(_, _) => GapProgress(c, s);
    case WriteSilence(_, _, _) => SilenceProgress(c, s);
    case WriteFrame(_, _, _) => FrameProgress(c, s);
    case WaitLock(_) | DropLoad(_) | DropStore(_, _) | UnlockDrop(_) => DropProgress(c, s);
    case _ => SkipProgress(c, s);
  }

  lemma PullProgress(c: Config, s: State)
    requires Inv(c, s) && PlayerNext(c, s).Some?
    ensures 0 <= PullLeft(c, PlayerNext(c, s).value.player) < PullLeft(c, s.player)
  {
    Cursors(c, s);
  }

  /** A push takes at most four times the capacity and 28 steps, a pull the capacity and 6: each step
      inside a call leaves fewer, and those of the other thread change nothing to it. With NoDeadlock,
      every call ends. */
  lemma CallsEnd(c: Config, s: State)
    requires Reachable(c, s)
    ensures ProducerNext(c, s).Some? ==>
              var t := ProducerNext(c, s).value;
              0 <= PushLeft(c, t.producer) < PushLeft(c, s.producer) <= 4 * Capacity(c) + 28 && t.player == s.player
    ensures PlayerNext(c, s).Some? ==>
              var t := PlayerNext(c, s).value;
              0 <= PullLeft(c, t.player) < PullLeft(c, s.player) <= Capacity(c) + 6 && t.producer == s.producer
    ensures (PushLeft(c, s.producer) == 0 <==> s.producer == Idle) && (PullLeft(c, s.player) == 0 <==> s.player == Rest)
  {
    ReachableInv(c, s);
    Cursors(c, s);
    LeftBounds(c, s);
    if ProducerNext(c, s).Some? {
      PushProgress(c, s);
      ProducerOnly(c, s);
    }
    if PlayerNext(c, s).Some? {
      PullProgress(c, s);
      PlayerOnly(c, s);
    }
  }

  lemma LeftBounds(c: Config, s: State)
    requires Inv(c, s)
    ensures 0 <= PushLeft(c, s.producer) <= 4 * Capacity(c) + 28 && 0 <= PullLeft(c, s.player) <= Capacity(c) + 6
    ensures (PushLeft(c, s.producer) == 0 <==> s.producer == Idle) && (PullLeft(c, s.player) == 0 <==> s.player == Rest)
  {
    Cursors(c, s);
  }

  lemma ProducerOnly(c: Config, s: State)
    requires ProducerNext(c, s).Some?
    ensures ProducerNext(c, s).value.player == s.player
  {
  }

  lemma PlayerOnly(c: Config, s: State)
    requires PlayerNext(c, s).Some?
    ensures PlayerNext(c, s).value.producer == s.producer
  {
  }
}
