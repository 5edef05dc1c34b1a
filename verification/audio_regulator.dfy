/** The audio regulator (audio_regulator.c) as two threads stepping through one shared ring:
    the decoder pushes frames, the audio player pulls samples. The producer publishes without
    any lock; the mutex only keeps its "drop old samples" reads apart from the player's read.
    One step is one atomic access, one copied sample, or one lock operation. */
module AudioRegulator {
  import opened Arithmetic
  import opened Machine
  import opened Optional
  import opened Ring

  datatype Config = Config(target: nat, rate: nat)

  predicate ValidConfig(c: Config) { 0 < Capacity(c) < 0x8000_0000 }

  function Capacity(c: Config): nat { c.target + c.rate }

  /** The level above which the producer skips samples, in 32-bit arithmetic. */
  function MaxBuffered(c: Config, played: bool): nat
  {
    if played then U32(U32(c.target * 11) / 10 + U32(60 * c.rate) / 1000)
    else U32(c.target + U32(10 * c.rate) / 1000)
  }

  function Quiet(count: nat): seq<Sample> { seq(count, _ => Silence) }

  /** The newest samples, at most `limit`. */
  function Newest(s: seq<Sample>, limit: nat): seq<Sample>
  {
    if |s| > limit then s[|s| - limit..] else s
  }

  datatype Thread = Producer | Player
  /** What became of a sample released from the ring. */
  datatype Fate = Played(s: Sample) | Dropped(s: Sample)
  /** One sample given to the audio output: from the ring, or inserted silence. */
  datatype Output = Audio(s: Sample) | Filler

  /** A ring write in progress: cursors not loaded yet, or `done` of `count` samples copied. */
  datatype Writing = Load | Copy(count: nat, done: nat)
  /** The three attempts to write one frame: without lock, with the lock, after dropping. */
  datatype Stage = First | Locked | Final

  datatype ProducerPc =
    | Idle
    | CheckGap(input: nat, frame: Option<seq<Sample>>)
    | WriteSilence(silence: nat, op: Writing, next: Option<seq<Sample>>)
    | WriteFrame(stage: Stage, rest: seq<Sample>, op: Writing)
    | WaitLock(rest: seq<Sample>)
    | DropLoad(rest: seq<Sample>)
    | DropStore(rest: seq<Sample>, count: nat)
    | UnlockDrop(rest: seq<Sample>)
    | CheckPlayed
    | CheckLevel(max: nat)
    | WaitSkip(max: nat)
    | Recheck(max: nat)
    | SkipLoad(skip: nat)
    | SkipStore(skip: nat, count: nat)
    | UnlockSkip
    | AssertFailed(line: nat)

  datatype PlayerPc =
    | Rest
    | WaitRead(want: nat)
    | CheckStart(want: nat)
    | UnlockSilent
    | ReadLoad(want: nat)
    | ReadCopy(want: nat, count: nat, out: seq<Sample>)
    | UnlockRead(missing: nat)
    | FillEnd(missing: nat)

  /** A discontinuity: how many samples had been accepted and were buffered when it was measured,
      how many came with it, and how many samples of silence were then published. */
  datatype Gap = Gap(at: nat, buffered: nat, input: nat, silence: nat)

  datatype StateRecord = StateRecord(
    data: seq<Sample>, head: nat, tail: nat, lock: Option<Thread>, played: bool,
    producer: ProducerPc, player: PlayerPc,
    // the plain FIFO the ring stands for
    fifo: seq<Sample>,
    // histories: samples handed to the ring writer, published, released, played out, asked for
    offered: seq<Sample>, accepted: seq<Sample>, gone: seq<Fate>, speaker: seq<Output>,
    requested: nat,
    // history: the discontinuities
    gaps: seq<Gap>)

  type State = s: StateRecord | 1 < |s.data| && s.head < |s.data| && s.tail < |s.data|
    witness StateRecord([0, 0], 0, 0, None, false, Idle, Rest, [], [], [], [], [], 0, [])

  datatype Action =
    | BeginPush(input: nat, converted: Option<seq<Sample>>, discontinuity: bool)
    | ProducerStep
    | BeginPull(want: nat)
    | PlayerStep

  ghost function Init(c: Config): State
    requires ValidConfig(c)
  {
    StateRecord(Quiet(Capacity(c) + 1), 0, 0, None, false, Idle, Rest, [], [], [], [], [], 0, [])
  }

  // ---- the producer: sc_audio_regulator_push

  /** The slot of the next copied sample: the right segment, then the left one. */
  function CopySlot(n: nat, cursor: nat, count: nat, done: nat): nat
    requires cursor < n && done < count < n
  {
    var right := Min(n - cursor, count);
    if done < right then cursor + done else done - right
  }

  function StartFrame(s: State, frame: Option<seq<Sample>>): State
  {
    match frame
    case None => s.(producer := Idle)  // resampling failed
    case Some(samples) => s.(producer := WriteFrame(First, samples, Load))
  }

  function Offer(frame: Option<seq<Sample>>): seq<Sample>
  {
    match frame case None => [] case Some(samples) => samples
  }

  function BeginWrite(s: State, want: nat): Option<Writing>
  {
    var canWrite := CanWrite(|s.data|, s.head, s.tail);
    if canWrite == 0 then None else Some(Copy(Min(want, canWrite), 0))
  }

  function StoreSample(s: State, op: Writing, x: Sample): State
    requires op.Copy? && op.done < op.count < |s.data|
  {
    s.(data := s.data[CopySlot(|s.data|, s.head, op.count, op.done) := x])
  }

  function PublishWrite(s: State, count: nat, src: seq<Sample>): State
  {
    s.(head := Advance(|s.data|, s.head, count), accepted := s.accepted + src, fifo := s.fifo + src)
  }

  function Measured(s: State, input: nat): seq<Gap>
  {
    s.gaps + [Gap(|s.accepted|, |s.fifo|, input, 0)]
  }

  function Bridged(gaps: seq<Gap>, silence: nat): seq<Gap>
  {
    if gaps == [] then [] else gaps[|gaps| - 1 := gaps[|gaps| - 1].(silence := silence)]
  }

  function AfterWrite(s: State, stage: Stage, rest: seq<Sample>): State
  {
    match stage
    case First => s.(producer := if rest == [] then CheckPlayed else WaitLock(rest))
    case Locked => s.(producer := if rest == [] then UnlockDrop([]) else DropLoad(rest))
    case Final => s.(producer := if rest == [] then CheckPlayed else AssertFailed(235))
  }

  /** The `count` samples from the tail on. */
  function Oldest(s: State, count: nat): seq<Sample>
  {
    seq(count, i requires 0 <= i < count => s.data[(s.tail + i) % |s.data|])
  }

  function Drop(samples: seq<Sample>): seq<Fate>
  {
    seq(|samples|, i requires 0 <= i < |samples| => Dropped(samples[i]))
  }

  function Play(samples: seq<Sample>): seq<Fate>
  {
    seq(|samples|, i requires 0 <= i < |samples| => Played(samples[i]))
  }

  function Hear(samples: seq<Sample>): seq<Output>
  {
    seq(|samples|, i requires 0 <= i < |samples| => Audio(samples[i]))
  }

  function Fill(count: nat): seq<Output> { seq(count, _ => Filler) }

  /** The tail moves past `count` samples, whose fates are recorded. */
  function Release(s: State, count: nat, fates: seq<Fate>): State
  {
    s.(tail := Advance(|s.data|, s.tail, count),
       fifo := if count <= |s.fifo| then s.fifo[count..] else [],
       gone := s.gone + fates)
  }

  function ProducerNext(c: Config, s: State): Option<State>
  {
    var canRead := CanRead(|s.data|, s.head, s.tail);
    match s.producer
    case Idle => None
    case CheckGap(input, frame) =>
      if input + canRead < c.target then
        var silence := c.target - canRead - input;
        Some(s.(offered := s.offered + Quiet(silence) + Offer(frame), gaps := Measured(s, input),
                producer := WriteSilence(silence, Load, frame)))
      else Some(StartFrame(s.(offered := s.offered + Offer(frame), gaps := Measured(s, input)), frame))
    case WriteSilence(silence, Load, frame) =>
      (match BeginWrite(s, silence)
       case None => Some(StartFrame(s, frame))
       case Some(op) => Some(s.(producer := WriteSilence(silence, op, frame))))
    case WriteSilence(silence, Copy(count, done), frame) =>
      if done < count < |s.data| then
        Some(StoreSample(s, s.producer.op, Silence).(producer := WriteSilence(silence, Copy(count, done + 1), frame)))
      else Some(StartFrame(PublishWrite(s, count, Quiet(count)).(gaps := Bridged(s.gaps, count)), frame))
    case WriteFrame(stage, rest, Load) =>
      (match BeginWrite(s, |rest|)
       case None => Some(AfterWrite(s, stage, rest))
       case Some(op) => Some(s.(producer := WriteFrame(stage, rest, op))))
    case WriteFrame(stage, rest, Copy(count, done)) =>
      if done < count < |s.data| && count <= |rest| then
        Some(StoreSample(s, s.producer.op, rest[done]).(producer := WriteFrame(stage, rest, Copy(count, done + 1))))
      else if count <= |rest| then Some(AfterWrite(PublishWrite(s, count, rest[..count]), stage, rest[count..]))
      else None
    case WaitLock(rest) =>
      if s.lock == None then Some(s.(lock := Some(Producer), producer := WriteFrame(Locked, rest, Load))) else None
    case DropLoad(rest) => Some(s.(producer := DropStore(rest, Min(|rest|, canRead))))
    case DropStore(rest, count) =>
      Some(Release(s, count, Drop(Oldest(s, count))).(producer := if count == |rest| then UnlockDrop(rest) else AssertFailed(225)))
    case UnlockDrop(rest) =>
      Some(s.(lock := None, producer := if rest == [] then CheckPlayed else WriteFrame(Final, rest, Load)))
    case CheckPlayed => Some(s.(producer := CheckLevel(MaxBuffered(c, s.played))))
    case CheckLevel(max) => Some(s.(producer := if canRead > max then WaitSkip(max) else Idle))
    case WaitSkip(max) =>
      if s.lock == None then Some(s.(lock := Some(Producer), producer := Recheck(max))) else None
    case Recheck(max) => Some(s.(producer := if canRead > max then SkipLoad(canRead - max) else UnlockSkip))
    case SkipLoad(skip) => Some(s.(producer := SkipStore(skip, Min(skip, canRead))))
    case SkipStore(skip, count) =>
      Some(Release(s, count, Drop(Oldest(s, count))).(producer := if count == skip then UnlockSkip else AssertFailed(267)))
    case UnlockSkip => Some(s.(lock := None, producer := Idle))
    case AssertFailed(_) => None
  }

  // ---- the player: sc_audio_regulator_pull

  function PlayerNext(c: Config, s: State): Option<State>
  {
    var canRead := CanRead(|s.data|, s.head, s.tail);
    match s.player
    case Rest => None
    case WaitRead(want) =>
      if s.lock == None then Some(s.(lock := Some(Player), player := CheckStart(want))) else None
    case CheckStart(want) =>
      if !s.played && canRead < c.target
      then Some(s.(speaker := s.speaker + Fill(want), player := UnlockSilent))
      else Some(s.(player := ReadLoad(want)))
    case UnlockSilent => Some(s.(lock := None, player := Rest))
    case ReadLoad(want) =>
      if canRead == 0 then Some(s.(player := UnlockRead(want)))
      else Some(s.(player := ReadCopy(want, Min(want, canRead), [])))
    case ReadCopy(want, count, out) =>
      if |out| < count < |s.data| then
        Some(s.(player := ReadCopy(want, count, out + [s.data[CopySlot(|s.data|, s.tail, count, |out|)]])))
      else if count <= want then
        Some(Release(s, count, Play(out)).(speaker := s.speaker + Hear(out), player := UnlockRead(want - count)))
      else None
    case UnlockRead(missing) => Some(s.(lock := None, player := FillEnd(missing)))
    case FillEnd(missing) =>
      Some(s.(speaker := s.speaker + Fill(missing), played := true, player := Rest))
  }

  function Next(c: Config, s: State, a: Action): Option<State>
  {
    match a
    case BeginPush(input, converted, discontinuity) =>
      if s.producer != Idle then None else
        var frame := match converted case None => None case Some(samples) => Some(Newest(samples, Capacity(c)));
        if discontinuity then Some(s.(producer := CheckGap(input, frame)))
        else Some(StartFrame(s.(offered := s.offered + Offer(frame)), frame))
    case ProducerStep => ProducerNext(c, s)
    case BeginPull(want) =>
      if s.player != Rest || want == 0 then None
      else Some(s.(requested := s.requested + want, player := WaitRead(want)))
    case PlayerStep => PlayerNext(c, s)
  }

  ghost function Step(c: Config): (State, Action) -> Option<State> { (s, a) => Next(c, s, a) }

  // ---- what the histories say

  function SamplesOf(gone: seq<Fate>): seq<Sample>
  {
    seq(|gone|, i requires 0 <= i < |gone| => gone[i].s)
  }

  function PlayedOf(gone: seq<Fate>): seq<Sample>
  {
    if gone == [] then [] else
      var last := gone[|gone| - 1];
      PlayedOf(gone[..|gone| - 1]) + (if last.Played? then [last.s] else [])
  }

  function AudioOf(speaker: seq<Output>): seq<Sample>
  {
    if speaker == [] then [] else
      var last := speaker[|speaker| - 1];
      AudioOf(speaker[..|speaker| - 1]) + (if last.Audio? then [last.s] else [])
  }

  lemma {:induction false} PlayedMore(gone: seq<Fate>, out: seq<Sample>)
    ensures PlayedOf(gone + Play(out)) == PlayedOf(gone) + out
  {
    if out == [] {
      assert gone + Play(out) == gone;
    } else {
      var m := |out| - 1;
      PlayedMore(gone, out[..m]);
      assert out == out[..m] + [out[m]];
      assert (gone + Play(out))[..|gone| + m] == gone + Play(out[..m]);
    }
  }

  lemma {:induction false} DroppedMore(gone: seq<Fate>, out: seq<Sample>)
    ensures PlayedOf(gone + Drop(out)) == PlayedOf(gone)
  {
    if out == [] {
      assert gone + Drop(out) == gone;
    } else {
      var m := |out| - 1;
      DroppedMore(gone, out[..m]);
      assert (gone + Drop(out))[..|gone| + m] == gone + Drop(out[..m]);
    }
  }

  lemma {:induction false} AudioHeard(speaker: seq<Output>, out: seq<Sample>)
    ensures AudioOf(speaker + Hear(out)) == AudioOf(speaker) + out
  {
    if out == [] {
      assert speaker + Hear(out) == speaker;
    } else {
      var m := |out| - 1;
      AudioHeard(speaker, out[..m]);
      assert out == out[..m] + [out[m]];
      assert (speaker + Hear(out))[..|speaker| + m] == speaker + Hear(out[..m]);
    }
  }

  lemma {:induction false} AudioFilled(speaker: seq<Output>, count: nat)
    ensures AudioOf(speaker + Fill(count)) == AudioOf(speaker)
  {
    if count == 0 {
      assert speaker + Fill(0) == speaker;
    } else {
      AudioFilled(speaker, count - 1);
      assert (speaker + Fill(count))[..|speaker| + count - 1] == speaker + Fill(count - 1);
    }
  }

  // ---- the invariant

  ghost predicate ProducerLocks(pc: ProducerPc)
  {
    match pc
    case WriteFrame(stage, _, _) => stage == Locked
    case DropLoad(_) | DropStore(_, _) | UnlockDrop(_) => true
    case Recheck(_) | SkipLoad(_) | SkipStore(_, _) | UnlockSkip => true
    case _ => false
  }

  ghost predicate PlayerLocks(pc: PlayerPc)
  {
    pc.CheckStart? || pc.UnlockSilent? || pc.ReadLoad? || pc.ReadCopy? || pc.UnlockRead?
  }

  ghost predicate LockInv(s: State)
  {
    && (s.lock == Some(Producer) <==> ProducerLocks(s.producer))
    && (s.lock == Some(Player) <==> PlayerLocks(s.player))
  }

  ghost predicate RingInv(c: Config, s: State)
  {
    && ValidConfig(c) && |s.data| == Capacity(c) + 1
    && |s.fifo| == Distance(|s.data|, s.head, s.tail)
    && s.fifo == Contents(s.data, s.head, s.tail)
  }

  /** The part of the offered samples the producer has not published yet. */
  ghost function Pending(pc: ProducerPc): seq<Sample>
  {
    match pc
    case WriteSilence(silence, _, frame) => Quiet(silence) + Offer(frame)
    case WriteFrame(_, rest, _) => rest
    case WaitLock(rest) => rest
    case DropLoad(rest) => rest
    case DropStore(rest, _) => rest
    case UnlockDrop(rest) => rest
    case _ => []
  }

  ghost predicate Conserved(s: State)
  {
    && SamplesOf(s.gone) + s.fifo == s.accepted
    && s.accepted + Pending(s.producer) == s.offered
  }

  /** The samples copied so far by a write are in its slots. */
  ghost predicate Copied(data: seq<Sample>, head: nat, op: Writing, src: seq<Sample>)
    requires head < |data|
  {
    op.Copy? ==>
      && op.done <= op.count <= |src|
      && op.count < |data|
      && forall i | 0 <= i < op.done :: data[Slot(|data|, head, i)] == src[i]
  }

  ghost predicate ProducerInv(c: Config, used: nat, pc: ProducerPc)
  {
    var free := Capacity(c) - used;
    match pc
    case Idle => true
    case CheckGap(_, frame) => |Offer(frame)| <= Capacity(c)
    case WriteSilence(silence, op, frame) =>
      && |Offer(frame)| <= Capacity(c)
      && 0 < silence <= free
      && (op.Copy? ==> op.count == silence)
    case WriteFrame(stage, rest, op) =>
      && |rest| <= Capacity(c)
      && (op.Copy? ==> op.count <= free)
      && (stage == Locked && op.Copy? && op.count < |rest| ==> op.count == free)
      && (stage == Final ==> 0 < |rest| <= free)
      && (stage == Final && op.Copy? ==> op.count == |rest|)
      && (stage == Locked ==> rest != [])
    case WaitLock(rest) => 0 < |rest| <= Capacity(c)
    case DropLoad(rest) => 0 < |rest| <= Capacity(c) == used
    case DropStore(rest, count) => 0 < |rest| == count <= used == Capacity(c)
    case UnlockDrop(rest) => |rest| <= free
    case SkipLoad(skip) => skip <= used
    case SkipStore(skip, count) => skip == count <= used
    case AssertFailed(_) => false
    case _ => true
  }

  ghost predicate WriteInv(s: State)
  {
    match s.producer
    case WriteSilence(silence, op, frame) => Copied(s.data, s.head, op, Quiet(silence))
    case WriteFrame(stage, rest, op) => Copied(s.data, s.head, op, rest)
    case _ => true
  }

  /** The samples the pull in progress has still to deliver. */
  ghost function Owed(pc: PlayerPc): nat
  {
    match pc
    case WaitRead(want) => want
    case CheckStart(want) => want
    case ReadLoad(want) => want
    case ReadCopy(want, _, _) => want
    case UnlockRead(missing) => missing
    case FillEnd(missing) => missing
    case _ => 0
  }

  ghost predicate ReadInv(fifo: seq<Sample>, pc: PlayerPc)
  {
    pc.ReadCopy? ==>
      && |pc.out| <= pc.count <= |fifo|
      && pc.count <= pc.want
      && pc.out == fifo[..|pc.out|]
  }

  ghost predicate OutputInv(s: State)
  {
    && AudioOf(s.speaker) == PlayedOf(s.gone)
    && |s.speaker| + Owed(s.player) == s.requested
  }

  ghost predicate Inv(c: Config, s: State)
  {
    && RingInv(c, s) && LockInv(s) && Conserved(s)
    && ProducerInv(c, |s.fifo|, s.producer) && WriteInv(s)
    && ReadInv(s.fifo, s.player) && OutputInv(s)
  }

  // ---- each step keeps it

  lemma Cursors(c: Config, s: State)
    requires RingInv(c, s)
    ensures CanRead(|s.data|, s.head, s.tail) == |s.fifo| <= Capacity(c)
    ensures CanWrite(|s.data|, s.head, s.tail) == Capacity(c) - |s.fifo|
  {
    CanReadMeaning(|s.data|, s.head, s.tail);
    CanWriteMeaning(|s.data|, s.head, s.tail);
  }

  lemma StoreKeeps(c: Config, s: State, op: Writing, src: seq<Sample>)
    requires RingInv(c, s) && Copied(s.data, s.head, op, src)
    requires op.Copy? && op.done < op.count <= Capacity(c) - |s.fifo|
    ensures var t := StoreSample(s, op, src[op.done]);
            && RingInv(c, t) && t == s.(data := t.data)
            && Copied(t.data, t.head, Copy(op.count, op.done + 1), src)
  {
    var n := |s.data|;
    assert CopySlot(n, s.head, op.count, op.done) == Slot(n, s.head, op.done);
    StoreInFreeSlot(s.data, s.head, s.tail, op.done, src[op.done]);
  }

  lemma PublishKeeps(c: Config, s: State, op: Writing, src: seq<Sample>)
    requires RingInv(c, s) && Copied(s.data, s.head, op, src)
    requires op.Copy? && op.done == op.count <= Capacity(c) - |s.fifo|
    ensures RingInv(c, PublishWrite(s, op.count, src[..op.count]))
  {
    AdvanceMeaning(|s.data|, s.head, op.count);
    Ring.Publish(s.data, s.head, s.tail, op.count, src[..op.count]);
  }

  lemma ReleaseKeeps(c: Config, s: State, count: nat, fates: seq<Fate>)
    requires RingInv(c, s) && count <= |s.fifo|
    ensures RingInv(c, Release(s, count, fates))
  {
    AdvanceMeaning(|s.data|, s.tail, count);
    Ring.Release(s.data, s.head, s.tail, count);
  }

  lemma OldestIsPrefix(c: Config, s: State, count: nat)
    requires RingInv(c, s) && count <= |s.fifo|
    ensures Oldest(s, count) == s.fifo[..count]
  {
    forall i | 0 <= i < count
      ensures Oldest(s, count)[i] == s.fifo[i]
    {
      ModOnce(s.tail + i, |s.data|);
    }
  }

  lemma SamplesStep(gone: seq<Fate>, samples: seq<Sample>)
    ensures SamplesOf(gone + Drop(samples)) == SamplesOf(gone) + samples
    ensures SamplesOf(gone + Play(samples)) == SamplesOf(gone) + samples
  {
  }

  lemma BeginPushKeeps(c: Config, s: State, a: Action)
    requires Inv(c, s) && a.BeginPush? && Next(c, s, a).Some?
    ensures Inv(c, Next(c, s, a).value)
  {
    var frame := match a.converted case None => None case Some(samples) => Some(Newest(samples, Capacity(c)));
    if a.discontinuity {
      OfferKeeps(c, s, [], CheckGap(a.input, frame));
      assert s.offered + [] == s.offered;
    } else {
      OfferKeeps(c, s, Offer(frame), StartFrame(s, frame).producer);
    }
  }

  lemma BeginPullKeeps(c: Config, s: State, a: Action)
    requires Inv(c, s) && a.BeginPull? && Next(c, s, a).Some?
    ensures Inv(c, Next(c, s, a).value)
  {
  }

  /** A step of the producer that only takes the next part of a frame, or none, without the lock. */
  lemma OfferKeeps(c: Config, s: State, more: seq<Sample>, pc: ProducerPc)
    requires Inv(c, s) && Pending(s.producer) == [] && Pending(pc) == more
    requires ProducerLocks(pc) == ProducerLocks(s.producer) && ProducerInv(c, |s.fifo|, pc)
    requires (pc.WriteSilence? || pc.WriteFrame?) ==> pc.op == Load
    ensures Inv(c, s.(offered := s.offered + more, producer := pc))
  {
    assert s.accepted + [] == s.accepted;
  }

  lemma GapKeeps(c: Config, s: State)
    requires Inv(c, s) && s.producer.CheckGap?
    ensures Inv(c, ProducerNext(c, s).value)
  {
    var CheckGap(input, frame) := s.producer;
    Cursors(c, s);
    if input + |s.fifo| < c.target {
      var silence := c.target - |s.fifo| - input;
      assert s.offered + Quiet(silence) + Offer(frame) == s.offered + (Quiet(silence) + Offer(frame));
      MeasureKeeps(c, s, Quiet(silence) + Offer(frame), WriteSilence(silence, Load, frame));
    } else {
      MeasureKeeps(c, s, Offer(frame), StartFrame(s, frame).producer);
    }
  }

  lemma MeasureKeeps(c: Config, s: State, more: seq<Sample>, pc: ProducerPc)
    requires Inv(c, s) && s.producer.CheckGap? && Pending(pc) == more
    requires !ProducerLocks(pc) && ProducerInv(c, |s.fifo|, pc)
    requires (pc.WriteSilence? || pc.WriteFrame?) ==> pc.op == Load
    ensures Inv(c, s.(offered := s.offered + more, gaps := Measured(s, s.producer.input), producer := pc))
  {
    OfferKeeps(c, s, more, pc);
    GapsIgnored(c, s.(offered := s.offered + more, producer := pc), Measured(s, s.producer.input));
  }

  /** The history of the discontinuities does not matter. */
  lemma GapsIgnored(c: Config, s: State, gaps: seq<Gap>)
    requires Inv(c, s)
    ensures Inv(c, s.(gaps := gaps))
  {
  }

  /** Moving samples from the pending part to the ring, or out of the ring, conserves them. */
  lemma Moved(gone: seq<Sample>, fifo: seq<Sample>, src: seq<Sample>, rest: seq<Sample>)
    ensures gone + (fifo + src) == (gone + fifo) + src
    ensures ((gone + fifo) + src) + rest == (gone + fifo) + (src + rest)
  {
  }

  lemma Removed(gone: seq<Sample>, fifo: seq<Sample>, count: nat)
    requires count <= |fifo|
    ensures (gone + fifo[..count]) + fifo[count..] == gone + fifo
  {
  }

  lemma SilenceLoadKeeps(c: Config, s: State)
    requires Inv(c, s) && s.producer.WriteSilence? && s.producer.op == Load
    ensures Inv(c, ProducerNext(c, s).value)
  {
    Cursors(c, s);
  }

  lemma SilenceStoreKeeps(c: Config, s: State)
    requires Inv(c, s) && s.producer.WriteSilence? && s.producer.op.Copy?
    requires s.producer.op.done < s.producer.op.count
    ensures ProducerNext(c, s).Some? && Inv(c, ProducerNext(c, s).value)
  {
    StoreKeeps(c, s, s.producer.op, Quiet(s.producer.silence));
  }

  /** What the producer publishes moves from its pending part to the ring. */
  lemma PublishedInv(c: Config, s: State, src: seq<Sample>, pc: ProducerPc)
    requires Inv(c, s) && RingInv(c, PublishWrite(s, |src|, src))
    requires Pending(s.producer) == src + Pending(pc)
    requires ProducerLocks(pc) == ProducerLocks(s.producer) && ProducerInv(c, |s.fifo| + |src|, pc)
    requires (pc.WriteSilence? || pc.WriteFrame?) ==> pc.op == Load
    ensures Inv(c, PublishWrite(s, |src|, src).(producer := pc))
  {
    Moved(SamplesOf(s.gone), s.fifo, src, Pending(pc));
    var t := PublishWrite(s, |src|, src);
    assert SamplesOf(t.gone) + t.fifo == t.accepted;
    assert s.accepted + (src + Pending(pc)) == (s.accepted + src) + Pending(pc);
    assert s.player.ReadCopy? ==> t.fifo[..|s.player.out|] == s.fifo[..|s.player.out|];
  }

  lemma SilencePublishKeeps(c: Config, s: State)
    requires Inv(c, s) && s.producer.WriteSilence? && s.producer.op.Copy?
    requires s.producer.op.done == s.producer.op.count
    ensures ProducerNext(c, s).Some? && Inv(c, ProducerNext(c, s).value)
  {
    var WriteSilence(silence, op, frame) := s.producer;
    var src := Quiet(silence);
    assert src[..op.count] == src;
    PublishKeeps(c, s, op, src);
    var pc := StartFrame(s, frame).producer;
    PublishedInv(c, s, src, pc);
    var t := PublishWrite(s, op.count, src).(producer := pc);
    GapsIgnored(c, t, Bridged(s.gaps, op.count));
    assert ProducerNext(c, s) == Some(t.(gaps := Bridged(s.gaps, op.count)));
  }

  lemma SilenceKeeps(c: Config, s: State)
    requires Inv(c, s) && s.producer.WriteSilence?
    ensures ProducerNext(c, s).Some? && Inv(c, ProducerNext(c, s).value)
  {
    if s.producer.op == Load {
      SilenceLoadKeeps(c, s);
    } else if s.producer.op.done < s.producer.op.count {
      SilenceStoreKeeps(c, s);
    } else {
      SilencePublishKeeps(c, s);
    }
  }

  lemma FrameLoadKeeps(c: Config, s: State)
    requires Inv(c, s) && s.producer.WriteFrame? && s.producer.op == Load
    ensures Inv(c, ProducerNext(c, s).value)
  {
    Cursors(c, s);
    var WriteFrame(stage, rest, op) := s.producer;
    var t := ProducerNext(c, s).value;
    assert t == s.(producer := t.producer) && Pending(t.producer) == rest;
  }

  lemma FrameStoreKeeps(c: Config, s: State)
    requires Inv(c, s) && s.producer.WriteFrame? && s.producer.op.Copy?
    requires s.producer.op.done < s.producer.op.count
    ensures ProducerNext(c, s).Some? && Inv(c, ProducerNext(c, s).value)
  {
    var WriteFrame(stage, rest, op) := s.producer;
    StoreKeeps(c, s, op, rest);
  }

  lemma FramePublishKeeps(c: Config, s: State)
    requires Inv(c, s) && s.producer.WriteFrame? && s.producer.op.Copy?
    requires s.producer.op.done == s.producer.op.count
    ensures ProducerNext(c, s).Some? && Inv(c, ProducerNext(c, s).value)
  {
    var WriteFrame(stage, rest, op) := s.producer;
    var (src, left) := (rest[..op.count], rest[op.count..]);
    assert src + left == rest;
    PublishKeeps(c, s, op, rest);
    var pc := AfterWrite(s, stage, left).producer;
    PublishedInv(c, s, src, pc);
    assert ProducerNext(c, s) == Some(PublishWrite(s, op.count, src).(producer := pc));
  }

  lemma WriteKeeps(c: Config, s: State)
    requires Inv(c, s) && s.producer.WriteFrame?
    ensures ProducerNext(c, s).Some? && Inv(c, ProducerNext(c, s).value)
  {
    if s.producer.op == Load {
      FrameLoadKeeps(c, s);
    } else if s.producer.op.done < s.producer.op.count {
      FrameStoreKeeps(c, s);
    } else {
      FramePublishKeeps(c, s);
    }
  }

  /** What a drop of `count` samples keeps, whatever the producer does next. */
  lemma DropKeeps(c: Config, s: State, count: nat)
    requires Inv(c, s) && count <= |s.fifo|
    ensures var t := Release(s, count, Drop(Oldest(s, count)));
            && RingInv(c, t) && SamplesOf(t.gone) + t.fifo == t.accepted
            && PlayedOf(t.gone) == PlayedOf(s.gone)
  {
    OldestIsPrefix(c, s, count);
    var oldest := s.fifo[..count];
    ReleaseKeeps(c, s, count, Drop(oldest));
    SamplesStep(s.gone, oldest);
    DroppedMore(s.gone, oldest);
    Removed(SamplesOf(s.gone), s.fifo, count);
  }

  lemma DropStoreKeeps(c: Config, s: State)
    requires Inv(c, s) && s.producer.DropStore?
    ensures Inv(c, ProducerNext(c, s).value)
  {
    DropKeeps(c, s, s.producer.count);
    var t := Release(s, s.producer.count, Drop(Oldest(s, s.producer.count)));
    assert ProducerNext(c, s).value == t.(producer := UnlockDrop(s.producer.rest));
  }

  lemma SkipStoreKeeps(c: Config, s: State)
    requires Inv(c, s) && s.producer.SkipStore?
    ensures Inv(c, ProducerNext(c, s).value)
  {
    DropKeeps(c, s, s.producer.count);
    var t := Release(s, s.producer.count, Drop(Oldest(s, s.producer.count)));
    assert ProducerNext(c, s).value == t.(producer := UnlockSkip);
  }

  lemma PlainStepKeeps(c: Config, s: State)
    requires Inv(c, s) && ProducerNext(c, s).Some?
    requires s.producer.WaitLock? || s.producer.DropLoad? || s.producer.UnlockDrop?
          || s.producer.CheckPlayed? || s.producer.CheckLevel? || s.producer.WaitSkip?
          || s.producer.Recheck? || s.producer.SkipLoad? || s.producer.UnlockSkip?
    ensures Inv(c, ProducerNext(c, s).value)
  {
    Cursors(c, s);
    var t := ProducerNext(c, s).value;
    assert t == s.(lock := t.lock, producer := t.producer) && Pending(t.producer) == Pending(s.producer);
  }

  lemma ProducerKeeps(c: Config, s: State)
    requires Inv(c, s) && ProducerNext(c, s).Some?
    ensures Inv(c, ProducerNext(c, s).value)
  {
    match s.producer
    case CheckGap(_, _) => GapKeeps(c, s);
    case WriteSilence(_, _, _) => SilenceKeeps(c, s);
    case WriteFrame(_, _, _) => WriteKeeps(c, s);
    case DropStore(_, _) => DropStoreKeeps(c, s);
    case SkipStore(_, _) => SkipStoreKeeps(c, s);
    case _ => PlainStepKeeps(c, s);
  }

  lemma ReadSampleKeeps(c: Config, s: State)
    requires Inv(c, s) && s.player.ReadCopy? && |s.player.out| < s.player.count
    ensures PlayerNext(c, s).Some? && Inv(c, PlayerNext(c, s).value)
  {
    var ReadCopy(want, count, out) := s.player;
    var x := s.data[CopySlot(|s.data|, s.tail, count, |out|)];
    assert x == s.fifo[|out|];
    assert out + [x] == s.fifo[..|out| + 1];
    assert PlayerNext(c, s) == Some(s.(player := ReadCopy(want, count, out + [x])));
  }

  /** What the release of `out`, the oldest samples, keeps. */
  lemma PlayKeeps(c: Config, s: State, out: seq<Sample>)
    requires Inv(c, s) && out <= s.fifo
    ensures var t := Release(s, |out|, Play(out));
            && RingInv(c, t) && SamplesOf(t.gone) + t.fifo == t.accepted
            && PlayedOf(t.gone) == AudioOf(s.speaker + Hear(out))
  {
    ReleaseKeeps(c, s, |out|, Play(out));
    GonePlayed(s.gone, s.fifo, s.speaker, out);
  }

  lemma GonePlayed(gone: seq<Fate>, fifo: seq<Sample>, speaker: seq<Output>, out: seq<Sample>)
    requires out <= fifo && AudioOf(speaker) == PlayedOf(gone)
    ensures SamplesOf(gone + Play(out)) + fifo[|out|..] == SamplesOf(gone) + fifo
    ensures PlayedOf(gone + Play(out)) == AudioOf(speaker + Hear(out))
  {
    SamplesStep(gone, out);
    PlayedMore(gone, out);
    AudioHeard(speaker, out);
    Removed(SamplesOf(gone), fifo, |out|);
  }

  lemma ReadReleaseKeeps(c: Config, s: State)
    requires Inv(c, s) && s.player.ReadCopy? && |s.player.out| == s.player.count
    ensures PlayerNext(c, s).Some? && Inv(c, PlayerNext(c, s).value)
  {
    ReadReleaseStep(c, s);
    PlayedInv(c, s, s.player.want, s.player.count, s.player.out);
  }

  lemma PlayedInv(c: Config, s: State, want: nat, count: nat, out: seq<Sample>)
    requires Inv(c, s) && s.player == ReadCopy(want, count, out) && |out| == count
    ensures count <= want && count <= |s.fifo|
    ensures Inv(c, Release(s, count, Play(out)).(speaker := s.speaker + Hear(out), player := UnlockRead(want - count)))
  {
    PlayKeeps(c, s, out);
    ReleasedInv(c, s, count, Play(out), s.speaker + Hear(out), UnlockRead(want - count));
  }

  lemma ReadReleaseStep(c: Config, s: State)
    requires s.player.ReadCopy? && |s.player.out| == s.player.count <= s.player.want
    ensures var ReadCopy(want, count, out) := s.player;
            PlayerNext(c, s) == Some(Release(s, count, Play(out)).(
              speaker := s.speaker + Hear(out), player := UnlockRead(want - count)))
  {
  }

  /** Fewer samples are buffered, which only gives the producer more room, unless it has the lock. */
  lemma ReleasedInv(c: Config, s: State, count: nat, fates: seq<Fate>, speaker: seq<Output>, player: PlayerPc)
    requires Inv(c, s) && count <= |s.fifo| && PlayerLocks(s.player) && PlayerLocks(player) && !player.ReadCopy?
    requires var t := Release(s, count, fates);
             && RingInv(c, t) && SamplesOf(t.gone) + t.fifo == t.accepted
             && PlayedOf(t.gone) == AudioOf(speaker)
    requires |speaker| + Owed(player) == s.requested
    ensures Inv(c, Release(s, count, fates).(speaker := speaker, player := player))
  {
    var t := Release(s, count, fates).(speaker := speaker, player := player);
    RoomKeeps(c, |s.fifo|, |t.fifo|, s.producer);
    assert s.lock == Some(Player) && !ProducerLocks(s.producer);
    assert WriteInv(t) && LockInv(t);
  }

  lemma RoomKeeps(c: Config, used: nat, less: nat, pc: ProducerPc)
    requires ProducerInv(c, used, pc) && less <= used && !ProducerLocks(pc)
    ensures ProducerInv(c, less, pc)
  {
  }

  /** A step of the player that only fills the output, or only moves on. */
  lemma FillsKeep(c: Config, s: State, played: bool, count: nat, player: PlayerPc)
    requires Inv(c, s) && PlayerLocks(player) == PlayerLocks(s.player) && !player.ReadCopy?
    requires count + Owed(player) == Owed(s.player)
    ensures Inv(c, s.(played := played, speaker := s.speaker + Fill(count), player := player))
  {
    AudioFilled(s.speaker, count);
  }

  lemma StartKeeps(c: Config, s: State)
    requires Inv(c, s) && s.player.CheckStart?
    ensures PlayerNext(c, s).Some? && Inv(c, PlayerNext(c, s).value)
  {
    var want := s.player.want;
    FillsKeep(c, s, s.played, want, UnlockSilent);
    FillsKeep(c, s, s.played, 0, ReadLoad(want));
    assert s.speaker + Fill(0) == s.speaker;
  }

  lemma FillKeeps(c: Config, s: State)
    requires Inv(c, s) && s.player.FillEnd?
    ensures PlayerNext(c, s).Some? && Inv(c, PlayerNext(c, s).value)
  {
    FillsKeep(c, s, true, s.player.missing, Rest);
  }

  lemma PullStepKeeps(c: Config, s: State)
    requires Inv(c, s) && PlayerNext(c, s).Some?
    requires s.player.WaitRead? || s.player.UnlockSilent? || s.player.ReadLoad? || s.player.UnlockRead?
    ensures Inv(c, PlayerNext(c, s).value)
  {
    Cursors(c, s);
    var t := PlayerNext(c, s).value;
    assert t == s.(lock := t.lock, player := t.player);
  }

  lemma PlayerKeeps(c: Config, s: State)
    requires Inv(c, s) && PlayerNext(c, s).Some?
    ensures Inv(c, PlayerNext(c, s).value)
  {
    match s.player
    case ReadCopy(_, count, out) => if |out| < count { ReadSampleKeeps(c, s); } else { ReadReleaseKeeps(c, s); }
    case CheckStart(_) => StartKeeps(c, s);
    case FillEnd(_) => FillKeeps(c, s);
    case _ => PullStepKeeps(c, s);
  }

  lemma NextKeeps(c: Config, s: State, a: Action)
    requires Inv(c, s) && Next(c, s, a).Some?
    ensures Inv(c, Next(c, s, a).value)
  {
    match a
    case ProducerStep => ProducerKeeps(c, s);
    case PlayerStep => PlayerKeeps(c, s);
    case BeginPush(_, _, _) => BeginPushKeeps(c, s, a);
    case BeginPull(_) => BeginPullKeeps(c, s, a);
  }

  ghost predicate Reachable(c: Config, s: State)
  {
    ValidConfig(c) && Reaches(Init(c), Step(c), s)
  }

  lemma ReachableInv(c: Config, s: State)
    requires Reachable(c, s)
    ensures Inv(c, s)
  {
    assert SamplesOf([]) == [];
    forall s, a | Inv(c, s) && Step(c)(s, a).Some?
      ensures Inv(c, Step(c)(s, a).value)
    {
      NextKeeps(c, s, a);
    }
    Invariant(Init(c), Step(c), (s: State) => Inv(c, s), s);
  }

  // ---- the main results, over every interleaving

  /** The ring refines a plain FIFO: its slots from tail to head hold exactly the queue, a read
      in progress has copied exactly the oldest samples, and the capacity is never exceeded. */
  lemma RefinesFifo(c: Config, s: State)
    requires Reachable(c, s)
    ensures && Contents(s.data, s.head, s.tail) == s.fifo && |s.fifo| <= Capacity(c)
            && (s.player.ReadCopy? ==> s.player.out <= s.fifo)
  {
    ReachableInv(c, s);
    Cursors(c, s);
  }

  /** Everything accepted into the ring is, in order, played or dropped or still in its slots;
      what was played is exactly the audio heard; everything offered is accepted, except what
      the push in progress still holds. */
  lemma SamplesConserved(c: Config, s: State)
    requires Reachable(c, s)
    ensures && SamplesOf(s.gone) + Contents(s.data, s.head, s.tail) == s.accepted
            && AudioOf(s.speaker) == PlayedOf(s.gone)
            && s.accepted <= s.offered && (s.producer == Idle ==> s.accepted == s.offered)
  {
    ReachableInv(c, s);
  }

  /** Between two pulls the output holds exactly the samples asked for: every pull fills its
      whole buffer. */
  lemma PullFillsOutput(c: Config, s: State)
    requires Reachable(c, s)
    ensures s.player == Rest ==> |s.speaker| == s.requested
  {
    ReachableInv(c, s);
  }

  /** The assertions of lines 225, 235 and 267 never fail. */
  lemma AssertionsHold(c: Config, s: State)
    requires Reachable(c, s)
    ensures !s.producer.AssertFailed?
  {
    ReachableInv(c, s);
  }

  /** The writer never stores into a slot the reader has not released yet. */
  lemma WriterAvoidsLiveSlots(c: Config, s: State, i: nat)
    requires Reachable(c, s)
    requires && (s.producer.WriteSilence? || s.producer.WriteFrame?) && s.producer.op.Copy?
             && s.producer.op.done < s.producer.op.count && i < |s.fifo|
    ensures && s.producer.op.count < |s.data| && |s.fifo| < |s.data|
            && CopySlot(|s.data|, s.head, s.producer.op.count, s.producer.op.done)
               != Slot(|s.data|, s.tail, i)
  {
    ReachableInv(c, s);
    Cursors(c, s);
    FreeSlot(|s.data|, s.head, s.tail, s.producer.op.done);
    SlotInjective(|s.data|, s.tail, i, |s.fifo| + s.producer.op.done);
  }

  /** Inside a push, the producer can step unless it waits for the mutex and another thread has it. */
  lemma ProducerProgress(c: Config, s: State)
    requires Inv(c, s) && s.producer != Idle && (s.lock == None || s.lock == Some(Producer))
    ensures ProducerNext(c, s).Some?
  {
    if s.producer.WriteFrame? { WriteKeeps(c, s); }
    if s.producer.WriteSilence? { SilenceKeeps(c, s); }
  }

  lemma PlayerProgress(c: Config, s: State)
    requires Inv(c, s) && s.player != Rest && (s.lock == None || s.lock == Some(Player))
    ensures PlayerNext(c, s).Some?
  {
    Cursors(c, s);
  }

  /** No deadlock: inside a call, a thread can step, or it waits for the mutex and the thread
      that holds it can step. */
  lemma NoDeadlock(c: Config, s: State)
    requires Reachable(c, s)
    ensures && (s.producer != Idle ==> ProducerNext(c, s).Some? || (s.lock == Some(Player) && PlayerNext(c, s).Some?))
            && (s.player != Rest ==> PlayerNext(c, s).Some? || (s.lock == Some(Producer) && ProducerNext(c, s).Some?))
  {
    ReachableInv(c, s);
    HolderProgress(c, s);
  }

  lemma HolderProgress(c: Config, s: State)
    requires Inv(c, s)
    ensures s.producer != Idle ==> ProducerNext(c, s).Some? || (s.lock == Some(Player) && PlayerNext(c, s).Some?)
    ensures s.player != Rest ==> PlayerNext(c, s).Some? || (s.lock == Some(Producer) && ProducerNext(c, s).Some?)
  {
    match s.lock {
      case None =>
        if s.producer != Idle { ProducerProgress(c, s); }
        if s.player != Rest { PlayerProgress(c, s); }
      case Some(Producer) =>
        assert ProducerLocks(s.producer);
        ProducerProgress(c, s);
      case Some(Player) =>
        assert PlayerLocks(s.player);
        PlayerProgress(c, s);
    }
  }
}
