/** Runs of the recorder that show where a property of recorder.c fails: timestamps can be negative,
    and the assertion on the first packet can fail. */
module RecorderRuns {
  import opened Machine
  import opened Optional
  import opened Recorder

  lemma Follows(video: bool, audio: bool, s: State, a: Action, t: State)
    requires Reachable(video, audio, s) && Next(s, a) == Some(t)
    ensures Reachable(video, audio, t)
  {
    ReachesNext(Init(video, audio), Step(), s, a);
  }

  const CONFIG := Packet(None, 0)
  const VIDEO := Packet(Some(10), 1)
  const AUDIO := Packet(Some(5), 2)

  /** After the header. */
  const BEGUN := EMPTY.(header := Some(CONFIG), pushed := [CONFIG])

  /** The enabled streams are open and configured. */
  function Configured(audio: bool, pc: Pc, v: Stream, a: Stream): State
  {
    Init(true, audio).(videoInit := true, audioInit := audio, expectsConfig := audio, v := v, a := a, pc := pc)
  }

  function Queued(st: Stream, packets: seq<Packet>): Stream
  {
    st.(queue := packets, pushed := st.pushed + packets, accepted := packets)
  }

  function Held(p: Packet): Stream { BEGUN.(held := Some(p), pushed := [CONFIG, p], accepted := [p]) }

  lemma HeaderPacket()
    ensures Pushed(EMPTY, CONFIG) == Queued(EMPTY, [CONFIG])
    ensures HeaderTaking(Queued(EMPTY, [CONFIG])) == BEGUN
  {
    assert [] + [CONFIG] == [CONFIG] && [CONFIG][1..] == [];
  }

  lemma OnePacket(p: Packet)
    ensures Pushed(BEGUN, p) == Queued(BEGUN, [p])
    ensures Fetched(Queued(BEGUN, [p])) == Held(p)
  {
    assert [] + [p] == [p] && [p][1..] == [] && [CONFIG] + [p] == [CONFIG, p];
  }

  lemma TwoPackets(p: Packet, q: Packet)
    ensures Pushed(Queued(BEGUN, [p]), q) == Queued(BEGUN, [p, q])
    ensures Fetched(Queued(BEGUN, [p, q])) == Rest(p, q).(held := Some(p))
  {
    assert [p] + [q] == [p, q] && [p, q][1..] == [q] && [CONFIG] + [p, q] == [CONFIG, p, q];
  }

  /** The second of two packets is left. */
  function Rest(p: Packet, q: Packet): Stream
  {
    BEGUN.(queue := [q], pushed := [CONFIG, p, q], accepted := [p, q])
  }

  /** Both streams, once the header is written. */
  lemma LoopReached()
    ensures Reachable(true, true, Configured(true, Loop, BEGUN, BEGUN))
  {
    HeaderPacket();
    ReachesInit(Init(true, true), Step());
    var s0 := Init(true, true);
    var s1 := s0.(videoInit := true);
    Follows(true, true, s0, OpenVideo, s1);
    var s2 := s1.(audioInit := true, expectsConfig := true);
    Follows(true, true, s1, OpenAudio(true), s2);
    var s3 := s2.(v := Queued(EMPTY, [CONFIG]));
    Follows(true, true, s2, PushVideo(CONFIG), s3);
    var s4 := s3.(a := Queued(EMPTY, [CONFIG]));
    Follows(true, true, s3, PushAudio(CONFIG), s4);
    var s5 := Configured(true, HeaderTaken, BEGUN, BEGUN);
    Follows(true, true, s4, TakeHeader, s5);
    Follows(true, true, s5, WriteHeader(true), Configured(true, Loop, BEGUN, BEGUN));
  }

  // ---- negative timestamps

  /** The recorder is stopped once it has chosen the origin of the video, with audio still queued. */
  function LateOrigin(a: Stream): State
  {
    Configured(true, Loop, Handled(Held(VIDEO), []), a).(
      stopped := true, origin := Some(10), late := true, previous := Some(Written(1, 0, None)))
  }

  /** The end of such a recording, with the audio packet at -5. */
  function EndedLate(a: Stream): State
  {
    LateOrigin(a).(pc := Done(true),
                   v := Handled(Held(VIDEO), []).(out := [Written(1, 0, Some(LAST_DURATION))]))
  }

  function Taken(a: Stream): Stream { a.(queue := [], held := Some(AUDIO)) }

  function Played(a: Stream): Stream { Handled(Taken(a), [Written(2, -5, None)]) }

  lemma LateTake(a: Stream)
    requires a.held == None && a.queue == [AUDIO]
    ensures Next(LateOrigin(a), Take) == Some(LateOrigin(Taken(a)).(pc := Holding))
  {
    assert Fetched(a) == Taken(a);
  }

  lemma LateProcess(a: Stream)
    ensures Next(LateOrigin(Taken(a)).(pc := Holding), Process(true, true)) == Some(LateOrigin(Played(a)))
  {
    assert Filtered(Taken(a)) == Taken(a);
    assert AudioStep(Taken(a), 10, true) == Some(Played(a));
  }

  lemma LateEnd(a: Stream)
    requires a.held == None && a.queue == []
    ensures Next(LateOrigin(a), Take) == Some(LateOrigin(a).(pc := Last))
    ensures Next(LateOrigin(a).(pc := Last), WriteLast(true)) == Some(EndedLate(a))
  {
    var last := [Written(1, 0, Some(LAST_DURATION))];
    assert Handled(Held(VIDEO), []).out + last == last;
  }

  /** From the late origin on, the queued audio is written at -5 and the recording ends cleanly. */
  lemma LateOriginEnds(a: Stream)
    requires a.held == None && a.queue == [AUDIO] && Reachable(true, true, LateOrigin(a))
    ensures Reachable(true, true, EndedLate(Played(a)))
  {
    LateTake(a);
    Follows(true, true, LateOrigin(a), Take, LateOrigin(Taken(a)).(pc := Holding));
    LateProcess(a);
    Follows(true, true, LateOrigin(Taken(a)).(pc := Holding), Process(true, true), LateOrigin(Played(a)));
    LateEnd(Played(a));
    Follows(true, true, LateOrigin(Played(a)), Take, LateOrigin(Played(a)).(pc := Last));
    Follows(true, true, LateOrigin(Played(a)).(pc := Last), WriteLast(true), EndedLate(Played(a)));
  }

  /** The unlocked read: audio is accepted and the recorder stopped between the critical section
      of the loop and the read of `stopped`. */
  lemma RaceReached() returns (s: State)
    ensures Reachable(true, true, s) && s.pc == Done(true) && s.a.out == [Written(AUDIO.payload, -5, None)]
    ensures s.a.accepted == [AUDIO]
  {
    LoopReached();
    OnePacket(VIDEO);
    OnePacket(AUDIO);
    var s1 := Configured(true, Loop, BEGUN, BEGUN);
    var s2 := s1.(v := Queued(BEGUN, [VIDEO]));
    Follows(true, true, s1, PushVideo(VIDEO), s2);
    var s3 := s1.(v := Held(VIDEO), pc := Holding);
    Follows(true, true, s2, Take, s3);
    var s4 := s3.(a := Queued(BEGUN, [AUDIO]));
    Follows(true, true, s3, PushAudio(AUDIO), s4);
    var s5 := s4.(stopped := true);
    Follows(true, true, s4, Stop, s5);
    Follows(true, true, s5, Process(true, true), LateOrigin(Queued(BEGUN, [AUDIO])));
    LateOriginEnds(Queued(BEGUN, [AUDIO]));
    s := EndedLate(Played(Queued(BEGUN, [AUDIO])));
  }

  /** The filter: with the stop already set, a further audio config packet is dropped, and the
      audio packet behind it comes too late. */
  lemma FilterReached() returns (s: State)
    ensures Reachable(true, true, s) && s.pc == Done(true) && s.a.out == [Written(AUDIO.payload, -5, None)]
    ensures s.a.accepted == [CONFIG, AUDIO]
  {
    LoopReached();
    OnePacket(VIDEO);
    OnePacket(CONFIG);
    TwoPackets(CONFIG, AUDIO);
    var s1 := Configured(true, Loop, BEGUN, BEGUN);
    var s2 := s1.(v := Queued(BEGUN, [VIDEO]));
    Follows(true, true, s1, PushVideo(VIDEO), s2);
    var s3 := s2.(a := Queued(BEGUN, [CONFIG]));
    Follows(true, true, s2, PushAudio(CONFIG), s3);
    var s4 := s2.(a := Queued(BEGUN, [CONFIG, AUDIO]));
    Follows(true, true, s3, PushAudio(AUDIO), s4);
    var s5 := s4.(stopped := true);
    Follows(true, true, s4, Stop, s5);
    var rest := Rest(CONFIG, AUDIO);
    var s6 := s5.(v := Held(VIDEO), a := rest.(held := Some(CONFIG)), pc := Holding);
    Follows(true, true, s5, Take, s6);
    Follows(true, true, s6, Process(true, true), LateOrigin(rest));
    LateOriginEnds(rest);
    s := EndedLate(Played(rest));
  }

  // ---- a failing assertion

  /** Recording video alone, a second config packet before the first frame fails the assertion of
      line 366. */
  lemma AssertionReached() returns (s: State)
    ensures Reachable(true, false, s) && s.pc == AssertFailed(366) && s.v.accepted == [CONFIG]
  {
    HeaderPacket();
    OnePacket(CONFIG);
    ReachesInit(Init(true, false), Step());
    var s0 := Init(true, false);
    var s1 := Configured(false, Header, EMPTY, EMPTY);
    Follows(true, false, s0, OpenVideo, s1);
    var s2 := s1.(v := Queued(EMPTY, [CONFIG]));
    Follows(true, false, s1, PushVideo(CONFIG), s2);
    var s3 := Configured(false, HeaderTaken, BEGUN, EMPTY);
    Follows(true, false, s2, TakeHeader, s3);
    var s4 := Configured(false, Loop, BEGUN, EMPTY);
    Follows(true, false, s3, WriteHeader(true), s4);
    var s5 := s4.(v := Queued(BEGUN, [CONFIG]));
    Follows(true, false, s4, PushVideo(CONFIG), s5);
    var s6 := s4.(v := Held(CONFIG), pc := Holding);
    Follows(true, false, s5, Take, s6);
    s := s4.(v := Held(CONFIG).(held := None), pc := AssertFailed(366));
    Follows(true, false, s6, Process(true, true), s);
  }
}
