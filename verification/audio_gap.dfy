/** The silence inserted after a discontinuity by the audio regulator (audio_regulator.c:148-158),
    under interleaving. */
module AudioGap {
  import opened Arithmetic
  import opened AudioRegulator
  import opened Machine
  import opened Optional
  import opened Ring

  /** Samples measured, input and silence make up the target, unless it was reached without silence;
      and the silence is what was accepted right after the measure. */
  ghost predicate Closed(c: Config, accepted: seq<Sample>, g: Gap)
  {
    && g.buffered + g.silence + g.input == Max(c.target, g.buffered + g.input)
    && g.at + g.silence <= |accepted|
    && forall k :: g.at <= k < g.at + g.silence ==> accepted[k] == Silence
  }

  /** The silence still to be published. */
  ghost predicate Opened(c: Config, accepted: seq<Sample>, g: Gap, missing: nat)
  {
    g.at == |accepted| && g.silence == 0 && g.buffered + missing + g.input == c.target
  }

  ghost predicate AllClosed(c: Config, accepted: seq<Sample>, gaps: seq<Gap>)
  {
    forall i :: 0 <= i < |gaps| ==> Closed(c, accepted, gaps[i])
  }

  ghost predicate GapInv(c: Config, accepted: seq<Sample>, gaps: seq<Gap>, pc: ProducerPc)
  {
    if pc.WriteSilence? then
      && gaps != [] && AllClosed(c, accepted, gaps[..|gaps| - 1])
      && Opened(c, accepted, gaps[|gaps| - 1], pc.silence)
    else AllClosed(c, accepted, gaps)
  }

  lemma ClosedKept(c: Config, accepted: seq<Sample>, more: seq<Sample>, gaps: seq<Gap>)
    requires AllClosed(c, accepted, gaps)
    ensures AllClosed(c, accepted + more, gaps)
  {
    forall i | 0 <= i < |gaps|
      ensures Closed(c, accepted + more, gaps[i])
    {
    }
  }

  lemma ClosedMore(c: Config, accepted: seq<Sample>, gaps: seq<Gap>, g: Gap)
    requires AllClosed(c, accepted, gaps) && Closed(c, accepted, g)
    ensures AllClosed(c, accepted, gaps + [g])
  {
  }

  lemma BridgedClosed(c: Config, accepted: seq<Sample>, gaps: seq<Gap>, missing: nat)
    requires gaps != [] && AllClosed(c, accepted, gaps[..|gaps| - 1])
    requires Opened(c, accepted, gaps[|gaps| - 1], missing)
    ensures AllClosed(c, accepted + Quiet(missing), AudioRegulator.Bridged(gaps, missing))
  {
    var (n, all) := (|gaps| - 1, accepted + Quiet(missing));
    var g := gaps[n].(silence := missing);
    ClosedKept(c, accepted, Quiet(missing), gaps[..n]);
    assert Closed(c, all, g);
    ClosedMore(c, all, gaps[..n], g);
    assert AudioRegulator.Bridged(gaps, missing) == gaps[..n] + [g];
  }

  lemma MeasureGap(c: Config, s: State)
    requires Inv(c, s) && s.producer.CheckGap? && AllClosed(c, s.accepted, s.gaps)
    ensures var t := ProducerNext(c, s).value; GapInv(c, t.accepted, t.gaps, t.producer)
  {
    Cursors(c, s);
    var g := Gap(|s.accepted|, |s.fifo|, s.producer.input, 0);
    assert (s.gaps + [g])[..|s.gaps|] == s.gaps;
    if Closed(c, s.accepted, g) {
      ClosedMore(c, s.accepted, s.gaps, g);
    }
  }

  lemma SilenceGap(c: Config, s: State)
    requires Inv(c, s) && s.producer.WriteSilence? && GapInv(c, s.accepted, s.gaps, s.producer)
    ensures var t := ProducerNext(c, s).value; GapInv(c, t.accepted, t.gaps, t.producer)
  {
    Cursors(c, s);
    BridgedClosed(c, s.accepted, s.gaps, s.producer.silence);
  }

  lemma FrameGap(c: Config, s: State)
    requires s.producer.WriteFrame? && ProducerNext(c, s).Some?
    ensures var t := ProducerNext(c, s).value;
            s.accepted <= t.accepted && t.gaps == s.gaps && !t.producer.WriteSilence?
  {
  }

  lemma OtherGap(c: Config, s: State)
    requires ProducerNext(c, s).Some?
    requires !s.producer.CheckGap? && !s.producer.WriteSilence? && !s.producer.WriteFrame?
    ensures var t := ProducerNext(c, s).value;
            t.accepted == s.accepted && t.gaps == s.gaps && !t.producer.WriteSilence?
  {
  }

  lemma ProducerGap(c: Config, s: State)
    requires Inv(c, s) && GapInv(c, s.accepted, s.gaps, s.producer) && ProducerNext(c, s).Some?
    ensures var t := ProducerNext(c, s).value; GapInv(c, t.accepted, t.gaps, t.producer)
  {
    var t := ProducerNext(c, s).value;
    match s.producer
    case CheckGap(_, _) => MeasureGap(c, s);
    case WriteSilence(_, _, _) => SilenceGap(c, s);
    case WriteFrame(_, _, _) =>
      FrameGap(c, s);
      ClosedKept(c, s.accepted, t.accepted[|s.accepted|..], s.gaps);
      assert t.accepted == s.accepted + t.accepted[|s.accepted|..];
    case _ => OtherGap(c, s);
  }

  lemma PlayerGap(c: Config, s: State)
    requires PlayerNext(c, s).Some?
    ensures var t := PlayerNext(c, s).value;
            t.accepted == s.accepted && t.gaps == s.gaps && t.producer == s.producer
  {
  }

  lemma NextGap(c: Config, s: State, a: Action)
    requires Inv(c, s) && GapInv(c, s.accepted, s.gaps, s.producer) && Next(c, s, a).Some?
    ensures var t := Next(c, s, a).value; GapInv(c, t.accepted, t.gaps, t.producer)
  {
    match a
    case ProducerStep => ProducerGap(c, s);
    case PlayerStep => PlayerGap(c, s);
    case _ =>
  }

  lemma ReachableGap(c: Config, s: State)
    requires Reachable(c, s)
    ensures GapInv(c, s.accepted, s.gaps, s.producer)
  {
    assert SamplesOf([]) == [];
    forall s, a | (Inv(c, s) && GapInv(c, s.accepted, s.gaps, s.producer)) && Step(c)(s, a).Some?
      ensures var t := Step(c)(s, a).value; Inv(c, t) && GapInv(c, t.accepted, t.gaps, t.producer)
    {
      NextKeeps(c, s, a);
      NextGap(c, s, a);
    }
    Invariant(Init(c), Step(c), (s: State) => Inv(c, s) && GapInv(c, s.accepted, s.gaps, s.producer), s);
  }

  /** In every interleaving, what was buffered when a discontinuity was measured, with the silence
      published for it and the input samples, makes up the target; without silence if it was already
      reached. The silence of the last one may still be being written. */
  lemma GapsBridged(c: Config, s: State, i: nat)
    requires Reachable(c, s) && i < |s.gaps|
    requires i == |s.gaps| - 1 ==> !s.producer.WriteSilence?
    ensures var g := s.gaps[i];
            && g.buffered + g.silence + g.input == Max(c.target, g.buffered + g.input)
            && g.at + g.silence <= |s.accepted|
            && forall k :: g.at <= k < g.at + g.silence ==> s.accepted[k] == Silence
  {
    ReachableGap(c, s);
    if s.producer.WriteSilence? {
      assert Closed(c, s.accepted, s.gaps[..|s.gaps| - 1][i]);
    }
  }

  /** Each push with a discontinuity is measured, once, and no other one is. */
  lemma MeasuredOnce(c: Config, s: State, a: Action)
    requires Reachable(c, s) && Next(c, s, a).Some?
    ensures var t := Next(c, s, a).value;
            && (a.BeginPush? ==> (t.producer.CheckGap? <==> a.discontinuity) && (a.discontinuity ==> t.producer.input == a.input))
            && if a == ProducerStep && s.producer.CheckGap? then
                 && !t.producer.CheckGap?
                 && t.gaps == s.gaps + [Gap(|s.accepted|, |Contents(s.data, s.head, s.tail)|, s.producer.input, 0)]
               else |t.gaps| == |s.gaps| && (t.producer.CheckGap? ==> a.BeginPush? || t.producer == s.producer)
  {
    RefinesFifo(c, s);
    if a == ProducerStep {
      MeasuredThen(c, s);
    }
  }

  lemma MeasuredThen(c: Config, s: State)
    requires ProducerNext(c, s).Some?
    ensures var t := ProducerNext(c, s).value;
            && !t.producer.CheckGap?
            && if s.producer.CheckGap? then t.gaps == Measured(s, s.producer.input) else |t.gaps| == |s.gaps|
  {
  }
}
