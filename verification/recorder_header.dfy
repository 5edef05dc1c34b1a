/** The header of the recorder (recorder.c:182-282): what it holds, over every run, and what is then
    in a finished file. */
module RecorderHeader {
  import opened Machine
  import opened Optional
  import opened Recorder
  import opened SequenceFacts

  /** The header takes nothing but the first packet pushed. */
  ghost predicate TakesFirst(st: Stream) { st.pushed == InHand(st.header) + st.accepted }

  /** Only the streams recorded give a packet, audio only if it starts with a config packet. */
  ghost predicate Expected(s: State)
  {
    && (s.v.header.Some? ==> s.hasVideo)
    && (s.a.header.Some? ==> s.hasAudio && s.audioInit && s.expectsConfig)
  }

  /** Without a stop, the header has waited for all of them. */
  ghost predicate Waited(s: State)
  {
    && (s.hasVideo ==> s.v.header.Some?)
    && (s.hasAudio ==> s.audioInit && (s.expectsConfig ==> s.a.header.Some?))
  }

  /** Even after a stop, the header misses no packet that was pushed. */
  ghost predicate Filled(s: State)
  {
    && (s.hasVideo ==> s.v.header.Some?)
    && (s.expectsConfig && s.a.pushed != [] ==> s.a.header.Some?)
  }

  ghost predicate HeaderInv(s: State)
  {
    && TakesFirst(s.v) && TakesFirst(s.a) && Expected(s)
    && (s.pc != Header && !s.stopped ==> Waited(s))
    && (s.pc != Header && s.pc != Failed ==> Filled(s))
    && (s.pc != Header && s.pc != HeaderTaken && s.pc != Failed ==> IsConfig(s.v.header) && IsConfig(s.a.header))
  }

  // ---- every step keeps it

  lemma PushedFirst(st: Stream, p: Packet)
    requires TakesFirst(st)
    ensures TakesFirst(Pushed(st, p))
  {
    Assoc(InHand(st.header), st.accepted, [p]);
  }

  lemma TakingFirst(st: Stream)
    requires TakesFirst(st) && Whole(st) && st.header == None && st.held == None
    ensures TakesFirst(HeaderTaking(st))
    ensures HeaderTaking(st).header.Some? <==> st.pushed != []
    ensures HeaderTaking(st).pushed == st.pushed == st.queue
  {
    Nothing(st.queue);
    Nothing(st.accepted);
  }

  lemma TakeHeaderFirst(s: State)
    requires Inv(s) && HeaderInv(s) && s.pc == Header && TakeHeaderNext(s).Some?
    ensures HeaderInv(TakeHeaderNext(s).value)
  {
    TakingFirst(s.v);
    TakingFirst(s.a);
    TakeHeaderKeeps(s);
  }

  lemma PushFirst(s: State, a: Action)
    requires Inv(s) && HeaderInv(s) && (a.PushVideo? || a.PushAudio?) && Next(s, a).Some?
    ensures HeaderInv(Next(s, a).value)
  {
    PushedFirst(s.v, a.p);
    PushedFirst(s.a, a.p);
  }

  lemma OpenFirst(s: State, a: Action)
    requires Inv(s) && HeaderInv(s) && Next(s, a).Some?
    requires a.OpenVideo? || a.OpenAudio? || a.DisableAudio? || a.Stop?
    ensures HeaderInv(Next(s, a).value)
  {
  }

  /** Nothing that the header depends on changes. */
  ghost predicate SameStream(st: Stream, t: Stream)
  {
    st.header == t.header && st.pushed == t.pushed && st.accepted == t.accepted
  }

  ghost predicate SameHeader(s: State, t: State)
  {
    && s.hasVideo == t.hasVideo && s.hasAudio == t.hasAudio && s.audioInit == t.audioInit
    && s.expectsConfig == t.expectsConfig && s.stopped == t.stopped
    && SameStream(s.v, t.v) && SameStream(s.a, t.a)
  }

  lemma LoopFirst(s: State, t: State)
    requires HeaderInv(s) && SameHeader(s, t)
    requires s.pc != Header && s.pc != Failed && t.pc != Header && t.pc != HeaderTaken
    requires s.pc == HeaderTaken && t.pc != Failed ==> IsConfig(t.v.header) && IsConfig(t.a.header)
    ensures HeaderInv(t)
  {
  }

  lemma FetchedSame(st: Stream)
    ensures SameStream(st, Fetched(st))
  {
  }

  lemma TakeSame(s: State)
    requires Setup(s) && s.pc == Loop && TakeNext(s).Some?
    ensures var t := TakeNext(s).value; SameHeader(s, t) && t.pc != Header && t.pc != HeaderTaken
  {
    TakePc(s);
    FetchedSame(s.v);
    FetchedSame(s.a);
  }

  lemma HandlingSame(s: State, origin: int, videoOk: bool, audioOk: bool)
    ensures var t := Handling(s, origin, videoOk, audioOk); SameHeader(s, t) && (t.pc == s.pc || t.pc == Failed)
  {
    VideoReleases(s.v, s.previous, origin, videoOk);
    AudioReleases(s.a, origin, audioOk);
    match VideoStep(s.v, s.previous, origin, videoOk) {
      case None =>
      case Some((v, previous)) =>
        match AudioStep(s.a, origin, audioOk) {
          case None => StreamsSame(s, v, s.a, previous, Failed);
          case Some(a) => StreamsSame(s, v, a, previous, s.pc);
        }
    }
  }

  lemma StreamsSame(s: State, v: Stream, a: Stream, previous: Option<Written>, pc: Pc)
    requires SameStream(s.v, v) && SameStream(s.a, a)
    ensures SameHeader(s, s.(v := v, a := a, previous := previous, pc := pc))
  {
  }

  lemma ProcessSame(s: State, videoOk: bool, audioOk: bool)
    requires s.pc == Holding
    ensures var t := ProcessNext(s, videoOk, audioOk); SameHeader(s, t) && t.pc != Header && t.pc != HeaderTaken
  {
    var u := Filtering(s);
    StreamsSame(s, u.v, u.a, s.previous, Loop);
    var c := ChooseOrigin(u);
    if c.Chosen? {
      HandlingSame(u.(origin := Some(c.origin), late := c.late), c.origin, videoOk, audioOk);
    }
  }

  lemma WriteLastSame(s: State, ok: bool)
    ensures var t := WriteLastNext(s, ok); SameHeader(s, t) && t.pc.Done?
  {
    WriteLastFrame(s, ok);
  }

  lemma ThreadFirst(s: State, a: Action)
    requires Inv(s) && HeaderInv(s) && (a.WriteHeader? || a.Take? || a.Process? || a.WriteLast?) && Next(s, a).Some?
    ensures HeaderInv(Next(s, a).value)
  {
    match a {
      case WriteHeader(ok) =>
      case Take => TakeSame(s);
      case Process(videoOk, audioOk) => ProcessSame(s, videoOk, audioOk);
      case WriteLast(ok) => WriteLastSame(s, ok);
    }
    LoopFirst(s, Next(s, a).value);
  }

  lemma NextFirst(s: State, a: Action)
    requires Inv(s) && HeaderInv(s) && Next(s, a).Some?
    ensures HeaderInv(Next(s, a).value)
  {
    match a
    case OpenVideo | OpenAudio(_) | DisableAudio | Stop => OpenFirst(s, a);
    case PushVideo(_) | PushAudio(_) => PushFirst(s, a);
    case TakeHeader => TakeHeaderFirst(s);
    case WriteHeader(_) | Take | Process(_, _) | WriteLast(_) => ThreadFirst(s, a);
  }

  lemma ReachableFirst(video: bool, audio: bool, s: State)
    requires Reachable(video, audio, s)
    ensures Inv(s) && HeaderInv(s)
  {
    forall s, a | (Inv(s) && HeaderInv(s)) && Step()(s, a).Some?
      ensures Inv(Step()(s, a).value) && HeaderInv(Step()(s, a).value)
    {
      NextKeeps(s, a);
      NextFirst(s, a);
    }
    Invariant(Init(video, audio), Step(), (s: State) => Inv(s) && HeaderInv(s), s);
  }

  // ---- the main results

  /** In every run the header takes the first packet pushed, or none, of each stream. Taken without a
      stop, it holds one for the video if it is recorded, and one for the audio if it is recorded and
      expects a config packet; written, it misses none that was pushed. */
  lemma HeaderHolds(video: bool, audio: bool, s: State)
    requires Reachable(video, audio, s)
    ensures s.v.pushed == InHand(s.v.header) + s.v.accepted && s.a.pushed == InHand(s.a.header) + s.a.accepted
    ensures s.pc != Header && !s.stopped ==>
              && (s.hasVideo ==> s.v.header.Some?)
              && (s.hasAudio && s.expectsConfig ==> s.a.header.Some?)
    ensures s.pc != Header && s.pc != Failed ==>
              && (s.hasVideo ==> s.v.header.Some?)
              && (s.expectsConfig && s.a.pushed != [] ==> s.a.header.Some?)
    ensures s.a.header.Some? ==> s.expectsConfig
  {
    ReachableFirst(video, audio, s);
  }

  lemma MediaAfterHeader(st: Stream)
    requires TakesFirst(st) && IsConfig(st.header)
    ensures Media(st.pushed) == Media(st.accepted)
  {
    if st.header.Some? {
      MediaPop(st.pushed);
      assert st.pushed[1..] == st.accepted;
      Nothing(Media(st.accepted));
    } else {
      Nothing(st.accepted);
    }
  }

  /** When the recorder ends without error, the file has, per stream, the first packet pushed as its
      configuration, always for video and for audio that expects one, and exactly the media packets
      ever pushed, once each and in order (a failure to write the very last video packet is not an
      error). */
  lemma RecordsEverything(video: bool, audio: bool, s: State)
    requires Reachable(video, audio, s)
    requires s.pc.Done?
    ensures var (v, o) := (Media(s.v.pushed), OriginOf(s));
            && s.a.out == Rebased(o, Media(s.a.pushed))
            && s.v.out == Timed(o, v) + if s.pc == Done(true) then TimedLast(o, v) else []
    ensures s.hasVideo ==> s.v.pushed != [] && s.v.header == Some(s.v.pushed[0]) && !IsMedia(s.v.pushed[0])
    ensures s.expectsConfig && s.a.pushed != [] ==> s.a.header == Some(s.a.pushed[0]) && !IsMedia(s.a.pushed[0])
  {
    ReachableFirst(video, audio, s);
    DoneIsComplete(s);
    MediaAfterHeader(s.v);
    MediaAfterHeader(s.a);
  }
}
