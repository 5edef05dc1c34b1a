/** When the audio regulator starts to play (audio_regulator.c:71-86), under interleaving. */
module AudioStart {
  import opened Arithmetic
  import opened AudioRegulator
  import opened Machine
  import opened Optional
  import opened Ring

  ghost predicate Reading(player: PlayerPc) { player.ReadLoad? || player.ReadCopy? }

  /** Until playback has started, a read finds the target buffered, and only silence was heard before. */
  ghost predicate StartInv(c: Config, s: State)
  {
    !s.played ==>
      && (Reading(s.player) ==> c.target <= |s.fifo|)
      && (!s.player.UnlockRead? && !s.player.FillEnd? ==> AudioOf(s.speaker) == [])
  }

  lemma StartKept(c: Config, s: State, t: State)
    requires StartInv(c, s) && t.played == s.played && t.player == s.player && t.speaker == s.speaker
    requires Reading(s.player) ==> |s.fifo| <= |t.fifo|
    ensures StartInv(c, t)
  {
  }

  lemma ProducerWrites(c: Config, s: State)
    requires ProducerNext(c, s).Some? && (s.producer.WriteSilence? || s.producer.WriteFrame?)
    ensures |s.fifo| <= |ProducerNext(c, s).value.fifo|
  {
  }

  lemma ProducerSame(c: Config, s: State)
    requires ProducerNext(c, s).Some?
    ensures var t := ProducerNext(c, s).value;
            t.played == s.played && t.player == s.player && t.speaker == s.speaker
    ensures !s.producer.WriteSilence? && !s.producer.WriteFrame? && !s.producer.DropStore? && !s.producer.SkipStore? ==>
              ProducerNext(c, s).value.fifo == s.fifo
  {
  }

  /** While the player has the lock, the producer drops nothing. */
  lemma ProducerGrows(c: Config, s: State)
    requires Inv(c, s) && ProducerNext(c, s).Some?
    ensures var t := ProducerNext(c, s).value;
            && t.played == s.played && t.player == s.player && t.speaker == s.speaker
            && (Reading(s.player) ==> |s.fifo| <= |t.fifo|)
  {
    ProducerSame(c, s);
    if s.producer.WriteSilence? || s.producer.WriteFrame? {
      ProducerWrites(c, s);
    }
    assert Reading(s.player) ==> !ProducerLocks(s.producer);
  }

  lemma PlayerStart(c: Config, s: State)
    requires Inv(c, s) && StartInv(c, s) && PlayerNext(c, s).Some?
    ensures StartInv(c, PlayerNext(c, s).value)
  {
    Cursors(c, s);
    if s.player.CheckStart? {
      AudioFilled(s.speaker, s.player.want);
    }
  }

  lemma NextStart(c: Config, s: State, a: Action)
    requires Inv(c, s) && StartInv(c, s) && Next(c, s, a).Some?
    ensures StartInv(c, Next(c, s, a).value)
  {
    match a
    case ProducerStep =>
      ProducerGrows(c, s);
      StartKept(c, s, ProducerNext(c, s).value);
    case PlayerStep => PlayerStart(c, s);
    case BeginPush(_, _, _) => StartKept(c, s, Next(c, s, a).value);
    case BeginPull(_) =>
  }

  lemma ReachableStart(c: Config, s: State)
    requires Reachable(c, s)
    ensures Inv(c, s) && StartInv(c, s)
  {
    assert SamplesOf([]) == [];
    forall s, a | (Inv(c, s) && StartInv(c, s)) && Step(c)(s, a).Some?
      ensures Inv(c, Step(c)(s, a).value) && StartInv(c, Step(c)(s, a).value)
    {
      NextKeeps(c, s, a);
      NextStart(c, s, a);
    }
    Invariant(Init(c), Step(c), (s: State) => Inv(c, s) && StartInv(c, s), s);
  }

  /** In every interleaving, playback starts with the target buffered: until it has started, only
      silence is heard, and the first read finds the target. */
  lemma StartsAtTarget(c: Config, s: State)
    requires Reachable(c, s) && !s.played
    ensures s.player.ReadLoad? || s.player.ReadCopy? ==> c.target <= |Contents(s.data, s.head, s.tail)|
    ensures !s.player.UnlockRead? && !s.player.FillEnd? ==> AudioOf(s.speaker) == []
  {
    ReachableStart(c, s);
    RefinesFifo(c, s);
  }

  /** A pull is silent only before that; otherwise it reads all it asks for, or all that is buffered. */
  lemma PullReadsAll(c: Config, s: State)
    requires Reachable(c, s) && PlayerNext(c, s).Some?
    ensures var (t, level) := (PlayerNext(c, s).value, |Contents(s.data, s.head, s.tail)|);
            && (s.player.CheckStart? ==> if s.played || level >= c.target then t.player == ReadLoad(s.player.want)
                                         else t.player == UnlockSilent)
            && (s.player.ReadLoad? ==> if level > 0 then t.player == ReadCopy(s.player.want, Min(s.player.want, level), [])
                                       else t.player == UnlockRead(s.player.want))
  {
    ReachableInv(c, s);
    Cursors(c, s);
    RefinesFifo(c, s);
  }
}
