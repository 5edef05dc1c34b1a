/** The latency bound of the audio regulator (audio_regulator.c:240-271), under interleaving. */
module AudioLatency {
  import opened Arithmetic
  import opened AudioRegulator
  import opened Machine
  import opened Optional
  import opened Ring

  lemma Unwrapped(x: nat)
    requires x < 0x1_0000_0000
    ensures U32(x) == x
  {
  }

  /** A product that wraps around gives a lower quotient. */
  lemma Wrapped(x: nat, d: nat)
    requires x >= 0x1_0000_0000 && (d == 10 || d == 1000)
    ensures U32(x) / d < x / d
  {
    assert U32(x) <= x - 0x1_0000_0000;
    assert d == 10 ==> (x - 0x1_0000_0000) / 10 < x / 10;
    assert d == 1000 ==> (x - 0x1_0000_0000) / 1000 < x / 1000;
  }

  lemma QuotientExact(x: nat, d: nat)
    requires d == 10 || d == 1000
    ensures U32(x) / d <= x / d
    ensures U32(x) / d == x / d <==> x < 0x1_0000_0000
    ensures U32(x) / d <= 0x1_0000_0000 / d
  {
    if x < 0x1_0000_0000 {
      Unwrapped(x);
    } else {
      Wrapped(x, d);
    }
  }

  /** The level computed in 32 bits is the intended one exactly if no product wraps around. */
  lemma MaxBufferedExact(c: Config)
    requires ValidConfig(c)
    ensures MaxBuffered(c, false) == c.target + 10 * c.rate / 1000 <==> 10 * c.rate < 0x1_0000_0000
    ensures MaxBuffered(c, true) == c.target * 11 / 10 + 60 * c.rate / 1000
            <==> c.target * 11 < 0x1_0000_0000 && 60 * c.rate < 0x1_0000_0000
  {
    QuotientExact(10 * c.rate, 1000);
    QuotientExact(c.target * 11, 10);
    QuotientExact(60 * c.rate, 1000);
    Unwrapped(c.target + U32(10 * c.rate) / 1000);
    Unwrapped(U32(c.target * 11) / 10 + U32(60 * c.rate) / 1000);
  }

  /** The highest level the producer may have compared with. */
  function Level(c: Config, played: bool): nat
  {
    if played then Max(MaxBuffered(c, false), MaxBuffered(c, true)) else MaxBuffered(c, false)
  }

  lemma LevelMeaning(c: Config)
    requires ValidConfig(c)
    ensures c.target <= Level(c, false) <= Level(c, true)
  {
  }

  /** A level the producer may compare with. */
  predicate IsLevel(c: Config, played: bool, max: int)
  {
    max == MaxBuffered(c, false) || (played && max == MaxBuffered(c, true))
  }

  /** What is buffered is below the level, but for a frame being written; what is skipped is exactly
      what is above it. */
  predicate LevelInv(c: Config, used: nat, played: bool, pc: ProducerPc)
  {
    match pc
    case Idle | CheckGap(_, _) | UnlockSkip => used <= Level(c, played)
    case WriteSilence(silence, _, _) => used + silence <= c.target
    case CheckLevel(max) => IsLevel(c, played, max)
    case WaitSkip(max) => IsLevel(c, played, max)
    case Recheck(max) => IsLevel(c, played, max)
    case SkipLoad(skip) => IsLevel(c, played, used - skip)
    case SkipStore(skip, _) => IsLevel(c, played, used - skip)
    case _ => true
  }

  lemma WritingLevel(c: Config, s: State)
    requires Inv(c, s) && LevelInv(c, |s.fifo|, s.played, s.producer) && ProducerNext(c, s).Some?
    requires s.producer.CheckGap? || s.producer.WriteSilence?
    ensures var t := ProducerNext(c, s).value; LevelInv(c, |t.fifo|, t.played, t.producer)
  {
    LevelMeaning(c);
    Cursors(c, s);
  }

  lemma FrameLevel(c: Config, s: State)
    requires Inv(c, s) && ProducerNext(c, s).Some? && s.producer.WriteFrame?
    ensures var t := ProducerNext(c, s).value; LevelInv(c, |t.fifo|, t.played, t.producer)
  {
  }

  lemma SkippingLevel(c: Config, s: State)
    requires Inv(c, s) && LevelInv(c, |s.fifo|, s.played, s.producer) && ProducerNext(c, s).Some?
    requires !s.producer.CheckGap? && !s.producer.WriteSilence? && !s.producer.WriteFrame?
    ensures var t := ProducerNext(c, s).value; LevelInv(c, |t.fifo|, t.played, t.producer)
  {
    LevelMeaning(c);
    Cursors(c, s);
  }

  lemma ProducerLevel(c: Config, s: State)
    requires Inv(c, s) && LevelInv(c, |s.fifo|, s.played, s.producer) && ProducerNext(c, s).Some?
    ensures var t := ProducerNext(c, s).value; LevelInv(c, |t.fifo|, t.played, t.producer)
  {
    match s.producer
    case CheckGap(_, _) | WriteSilence(_, _, _) => WritingLevel(c, s);
    case WriteFrame(_, _, _) => FrameLevel(c, s);
    case _ => SkippingLevel(c, s);
  }

  lemma PlayerLevel(c: Config, s: State)
    requires Inv(c, s) && LevelInv(c, |s.fifo|, s.played, s.producer) && PlayerNext(c, s).Some?
    ensures var t := PlayerNext(c, s).value; LevelInv(c, |t.fifo|, t.played, t.producer)
  {
    LevelMeaning(c);
    var t := PlayerNext(c, s).value;
    assert t.producer == s.producer && |t.fifo| <= |s.fifo| && (s.played ==> t.played);
    assert ProducerLocks(s.producer) ==> |t.fifo| == |s.fifo|;
  }

  lemma NextLevel(c: Config, s: State, a: Action)
    requires Inv(c, s) && LevelInv(c, |s.fifo|, s.played, s.producer) && Next(c, s, a).Some?
    ensures var t := Next(c, s, a).value; LevelInv(c, |t.fifo|, t.played, t.producer)
  {
    match a
    case ProducerStep => ProducerLevel(c, s);
    case PlayerStep => PlayerLevel(c, s);
    case _ =>
  }

  lemma ReachableLevel(c: Config, s: State)
    requires Reachable(c, s)
    ensures LevelInv(c, |s.fifo|, s.played, s.producer)
  {
    assert SamplesOf([]) == [];
    forall s, a | (Inv(c, s) && LevelInv(c, |s.fifo|, s.played, s.producer)) && Step(c)(s, a).Some?
      ensures var t := Step(c)(s, a).value; Inv(c, t) && LevelInv(c, |t.fifo|, t.played, t.producer)
    {
      NextKeeps(c, s, a);
      NextLevel(c, s, a);
    }
    Invariant(Init(c), Step(c), (s: State) => Inv(c, s) && LevelInv(c, |s.fifo|, s.played, s.producer), s);
  }

  /** Between two pushes, in every interleaving, no more than the maximum level is buffered: once
      playback has started, the higher of the two levels, which is the one for playback unless its
      computation wraps around. */
  lemma LatencyBounded(c: Config, s: State)
    requires Reachable(c, s) && s.producer == Idle
    ensures |Contents(s.data, s.head, s.tail)| <= Level(c, s.played)
    ensures c.target * 11 < 0x1_0000_0000 && 60 * c.rate < 0x1_0000_0000 ==>
              |Contents(s.data, s.head, s.tail)| <= MaxBuffered(c, s.played)
  {
    ReachableLevel(c, s);
    RefinesFifo(c, s);
    if c.target * 11 < 0x1_0000_0000 && 60 * c.rate < 0x1_0000_0000 {
      LevelExact(c, s.played);
    }
  }

  lemma LevelExact(c: Config, played: bool)
    requires ValidConfig(c) && c.target * 11 < 0x1_0000_0000 && 60 * c.rate < 0x1_0000_0000
    ensures Level(c, played) == MaxBuffered(c, played)
  {
    MaxBufferedExact(c);
    assert c.target * 11 / 10 >= c.target && 60 * c.rate / 1000 >= 10 * c.rate / 1000;
  }

  /** In every interleaving samples are only dropped to make room in a full ring, exactly as many as are
      missing, or above a level the producer compared with, exactly down to it. */
  lemma DropsOnlyExcess(c: Config, s: State)
    requires Reachable(c, s)
    ensures s.producer.DropStore? ==>
              |Contents(s.data, s.head, s.tail)| == Capacity(c) && s.producer.count == |s.producer.rest| > 0
    ensures s.producer.SkipStore? ==>
              && s.producer.count == s.producer.skip
              && IsLevel(c, s.played, |Contents(s.data, s.head, s.tail)| - s.producer.skip)
  {
    ReachableLevel(c, s);
    ReachableInv(c, s);
    RefinesFifo(c, s);
  }

  /** No other step drops anything. */
  lemma OthersDropNothing(c: Config, s: State, a: Action)
    requires Next(c, s, a).Some? && !(a == ProducerStep && (s.producer.DropStore? || s.producer.SkipStore?))
    ensures var gone := Next(c, s, a).value.gone;
            gone == s.gone || (a == PlayerStep && s.player.ReadCopy? && gone == s.gone + Play(s.player.out))
  {
  }
}
