/** The recorder thread as it runs (recorder.c): its shared queues and local variables updated in
    place, each method being one step of the machine in module Recorder. */
module RecorderThread {
  import opened Arithmetic
  import opened Optional
  import opened Recorder

  class Thread {
    var hasVideo: bool
    var hasAudio: bool
    var videoInit: bool
    var audioInit: bool
    var expectsConfig: bool
    var stopped: bool
    var videoQueue: seq<Packet>
    var audioQueue: seq<Packet>
    var videoPkt: Option<Packet>
    var audioPkt: Option<Packet>
    var videoPktPrevious: Option<Written>
    var ptsOrigin: Option<int>
    var videoOut: seq<Written>
    var audioOut: seq<Written>
    /** The two streams, with their histories. */
    ghost var video: Stream
    ghost var audio: Stream
    ghost var late: bool

    ghost predicate Valid()
      reads this
    {
      && videoQueue == video.queue && videoPkt == video.held && videoOut == video.out
      && audioQueue == audio.queue && audioPkt == audio.held && audioOut == audio.out
    }

    /** The state of the machine when the thread is at `pc`. */
    ghost function At(pc: Pc): State
      reads this
    {
      State(hasVideo, hasAudio, videoInit, audioInit, expectsConfig, stopped, video, audio,
            pc, ptsOrigin, late, videoPktPrevious)
    }

    constructor (video: bool, audio: bool)
      ensures Valid() && At(Header) == Init(video, audio)
    {
      hasVideo, hasAudio := video, audio;
      videoInit, audioInit, expectsConfig, stopped := false, false, false, false;
      videoQueue, audioQueue, videoOut, audioOut := [], [], [], [];
      videoPkt, audioPkt, videoPktPrevious, ptsOrigin := None, None, None, None;
      this.video, this.audio, late := EMPTY, EMPTY, false;
    }

    method PushVideo(p: Packet, ghost pc: Pc) returns (ok: bool)
      requires Valid() && videoInit
      modifies this
      ensures Valid() && ok == !stopped && Next(old(At(pc)), Action.PushVideo(p)) == Some(At(pc))
    {
      if stopped {
        return false;
      }
      videoQueue, video := videoQueue + [p], Pushed(video, p);
      return true;
    }

    method PushAudio(p: Packet, ghost pc: Pc) returns (ok: bool)
      requires Valid() && hasAudio && audioInit
      modifies this
      ensures Valid() && ok == !stopped && Next(old(At(pc)), Action.PushAudio(p)) == Some(At(pc))
    {
      if stopped {
        return false;
      }
      audioQueue, audio := audioQueue + [p], Pushed(audio, p);
      return true;
    }

    method Close(ghost pc: Pc)
      requires Valid()
      modifies this
      ensures Valid() && Next(old(At(pc)), Stop) == Some(At(pc))
    {
      stopped := true;
    }

    /** The header takes the first packets. */
    method PopHeader() returns (videoHeader: Option<Packet>, audioHeader: Option<Packet>)
      requires Valid() && video.header == audio.header == None
      modifies this`videoQueue, this`audioQueue, this`video, this`audio
      ensures Valid() && video == HeaderTaking(old(video)) && videoHeader == video.header
      ensures audio == (if expectsConfig then HeaderTaking(old(audio)) else old(audio)) && audioHeader == audio.header
    {
      videoHeader, audioHeader := None, None;
      if videoQueue != [] {
        videoHeader, videoQueue := Some(videoQueue[0]), videoQueue[1..];
      }
      if expectsConfig && audioQueue != [] {
        audioHeader, audioQueue := Some(audioQueue[0]), audioQueue[1..];
      }
      video, audio := HeaderTaking(video), if expectsConfig then HeaderTaking(audio) else audio;
    }

    /** The critical section of the header, once it no longer waits: the packets it takes; false if
        the recorder was stopped before any video packet. */
    method TakeHeader() returns (more: bool, videoHeader: Option<Packet>, audioHeader: Option<Packet>)
      requires Valid() && Inv(At(Header)) && TakeHeaderNext(At(Header)).Some?
      modifies this`videoQueue, this`audioQueue, this`video, this`audio
      ensures Valid() && TakeHeaderNext(old(At(Header))) == Some(At(if more then HeaderTaken else Failed))
      ensures more ==> videoHeader == video.header && audioHeader == audio.header
    {
      TakeHeaderPc(At(Header));
      more, videoHeader, audioHeader := !hasVideo || videoQueue != [], None, None;
      if more {
        videoHeader, audioHeader := PopHeader();
      }
    }

    /** The header is written if the packets taken are config packets. */
    method WriteHeader(videoHeader: Option<Packet>, audioHeader: Option<Packet>, writeOk: bool) returns (ok: bool)
      requires Valid() && videoHeader == video.header && audioHeader == audio.header
      ensures WriteHeaderNext(At(HeaderTaken), writeOk) == Some(At(if ok then Loop else Failed))
    {
      if videoHeader.Some? && IsMedia(videoHeader.value) {
        return false;
      }
      if audioHeader.Some? && IsMedia(audioHeader.value) {
        return false;
      }
      return writeOk;
    }

    /** The thread takes the packets it does not hold yet. */
    method Fetch()
      requires Valid()
      modifies this`videoPkt, this`videoQueue, this`audioPkt, this`audioQueue, this`video, this`audio
      ensures Valid() && video == Fetched(old(video)) && audio == Fetched(old(audio))
    {
      if videoPkt.None? && videoQueue != [] {
        videoPkt, videoQueue := Some(videoQueue[0]), videoQueue[1..];
      }
      if audioPkt.None? && audioQueue != [] {
        audioPkt, audioQueue := Some(audioQueue[0]), audioQueue[1..];
      }
      video, audio := Fetched(video), Fetched(audio);
    }

    /** The critical section of the loop, once it no longer waits; false ends the loop. */
    method Take() returns (more: bool)
      requires Valid() && Setup(At(Loop)) && TakeNext(At(Loop)).Some?
      modifies this
      ensures Valid() && TakeNext(old(At(Loop))) == Some(At(if more then Holding else Last))
    {
      ghost var s := At(Loop);
      TakePc(s);
      Fetch();
      more := videoPkt.Some? || audioPkt.Some?;
      assert TakeNext(s).value == Fetching(s).(pc := if more then Holding else Last);
    }

    /** Further config packets are ignored. */
    method Filter()
      requires Valid()
      modifies this
      ensures Valid() && At(Loop) == Filtering(old(At(Holding)))
    {
      if videoPkt.Some? && !IsMedia(videoPkt.value) {
        videoPkt := None;
      }
      if audioPkt.Some? && !IsMedia(audioPkt.value) {
        audioPkt := None;
      }
      video, audio := Filtered(video), Filtered(audio);
    }

    /** The origin of the first packets: whether it is known, and whether recording fails. */
    method SetOrigin() returns (known: bool, error: bool)
      requires Valid() && !ChooseOrigin(At(Loop)).Violated?
      modifies this`ptsOrigin, this`late
      ensures Valid() && At(Loop) == match ChooseOrigin(old(At(Loop)))
                                     case Chosen(origin, late) => old(At(Loop)).(origin := Some(origin), late := late)
                                     case _ => old(At(Loop))
      ensures known == ChooseOrigin(old(At(Loop))).Chosen? && error == ChooseOrigin(old(At(Loop))).Error?
      ensures known ==> ptsOrigin.Some?
    {
      ghost var c := ChooseOrigin(At(Loop));
      known, error := true, false;
      if ptsOrigin.None? {
        if !hasAudio {
          ptsOrigin := Some(Time(videoPkt.value));
        } else if !hasVideo {
          ptsOrigin := Some(Time(audioPkt.value));
        } else if videoPkt.Some? && audioPkt.Some? {
          ptsOrigin := Some(Min(Time(videoPkt.value), Time(audioPkt.value)));
        } else if stopped {
          if videoPkt.Some? {
            ptsOrigin := Some(Time(videoPkt.value));
          } else {
            return false, true;
          }
        } else {
          return false, false;
        }
      }
      late := c.late;
    }

    method HandleVideo(origin: int, writeOk: bool) returns (ok: bool)
      requires Valid()
      modifies this`videoPkt, this`videoPktPrevious, this`videoOut, this`video
      ensures Valid() && match VideoStep(old(video), old(videoPktPrevious), origin, writeOk)
                         case None => !ok && video == old(video) && videoPktPrevious == old(videoPktPrevious)
                         case Some((v, previous)) => ok && video == v && videoPktPrevious == previous
    {
      if videoPkt.Some? {
        ghost var r := VideoStep(video, videoPktPrevious, origin, true);
        var next := Written(videoPkt.value.payload, Time(videoPkt.value) - origin, None);
        if videoPktPrevious.Some? {
          if !writeOk {
            return false;
          }
          var duration := next.pts - videoPktPrevious.value.pts;
          videoOut := videoOut + [videoPktPrevious.value.(duration := Some(duration))];
        }
        videoPktPrevious, videoPkt := Some(next), None;
        video := r.value.0;
      }
      return true;
    }

    method HandleAudio(origin: int, writeOk: bool) returns (ok: bool)
      requires Valid()
      modifies this`audioPkt, this`audioOut, this`audio
      ensures Valid() && match AudioStep(old(audio), origin, writeOk)
                         case None => !ok && audio == old(audio)
                         case Some(a) => ok && audio == a
    {
      if audioPkt.Some? {
        if !writeOk {
          return false;
        }
        audioOut := audioOut + [Written(audioPkt.value.payload, Time(audioPkt.value) - origin, None)];
        audioPkt := None;
        audio := Handled(audio, [Rebase(origin, audio.held.value)]);
      }
      return true;
    }

    method Handle(origin: int, videoOk: bool, audioOk: bool) returns (ok: bool)
      requires Valid()
      modifies this`videoPkt, this`videoPktPrevious, this`videoOut, this`video, this`audioPkt, this`audioOut, this`audio
      ensures Valid() && At(if ok then Loop else Failed) == Handling(old(At(Loop)), origin, videoOk, audioOk)
    {
      ok := HandleVideo(origin, videoOk);
      if ok {
        ok := HandleAudio(origin, audioOk);
      }
    }

    /** The rest of the loop, outside the critical section. */
    method Process(videoOk: bool, audioOk: bool) returns (ok: bool)
      requires Valid() && !ChooseOrigin(Filtering(At(Holding))).Violated?
      modifies this
      ensures Valid() && ProcessNext(old(At(Holding)), videoOk, audioOk) == At(if ok then Loop else Failed)
    {
      Filter();
      ghost var s := At(Loop);
      var known, error := SetOrigin();
      if known {
        ghost var t := At(Loop);
        assert ChooseOrigin(s) == Chosen(ptsOrigin.value, late);
        ok := Handle(ptsOrigin.value, videoOk, audioOk);
        assert t == s.(origin := t.origin, late := t.late);
      } else {
        ok := !error;
        assert At(Loop) == s;
      }
    }

    /** The state of the thread while it empties the queues, for given packets accepted. */
    ghost predicate Draining(pc: Pc, v: seq<Packet>, a: seq<Packet>)
      reads this
    {
      && Valid() && Inv(At(pc)) && !BadStart(At(pc)) && stopped
      && video.accepted == v && audio.accepted == a
    }

    method TakeDraining(ghost v: seq<Packet>, ghost a: seq<Packet>) returns (more: bool)
      requires Draining(Loop, v, a)
      modifies this
      ensures Draining(if more then Holding else Last, v, a)
      ensures more ==> Remaining(At(Holding)) < old(Remaining(At(Loop)))
    {
      TakeProgress(At(Loop));
      TakeKeeps(At(Loop));
      TakeAccepted(At(Loop));
      more := Take();
    }

    method ProcessDraining(videoOk: bool, audioOk: bool, ghost v: seq<Packet>, ghost a: seq<Packet>) returns (ok: bool)
      requires Draining(Holding, v, a)
      modifies this
      ensures Draining(if ok then Loop else Failed, v, a)
      ensures ok ==> Remaining(At(Loop)) < old(Remaining(At(Holding)))
    {
      ghost var s := At(Holding);
      NoViolation(s);
      ProcessKeeps(s, videoOk, audioOk);
      ProcessProgress(s, videoOk, audioOk);
      ProcessAccepted(s, videoOk, audioOk);
      ok := Process(videoOk, audioOk);
    }

    method WriteLast(lastOk: bool) returns (written: bool)
      requires Valid()
      modifies this
      ensures Valid() && At(Done(written)) == WriteLastNext(old(At(Last)), lastOk)
      ensures lastOk ==> written
    {
      ghost var s := At(Last);
      WriteLastFrame(s, lastOk);
      written := videoPktPrevious.None? || lastOk;
      if videoPktPrevious.Some? && lastOk {
        videoOut := videoOut + [videoPktPrevious.value.(duration := Some(LAST_DURATION))];
      }
      video := WriteLastNext(s, lastOk).v;
    }

    /** The end of the recording: once stopped, the loop runs until the queues are empty, and the
        last video packet is written. The file is complete, or a write failed. */
    method Drain(videoOk: nat -> bool, audioOk: nat -> bool, lastOk: bool) returns (ok: bool, written: bool)
      requires Draining(Loop, video.accepted, audio.accepted)
      modifies this
      ensures video.accepted == old(video.accepted) && audio.accepted == old(audio.accepted)
      ensures ok ==> Complete(At(Done(written))) && (lastOk ==> written)
      ensures !ok ==> Draining(Failed, video.accepted, audio.accepted)
    {
      ghost var (v, a) := (video.accepted, audio.accepted);
      var i := 0;
      var more := true;
      ok, written := true, false;
      while more
        invariant Draining(if more then Loop else if ok then Last else Failed, v, a)
        decreases more, Remaining(At(Loop))
      {
        more := TakeDraining(v, a);
        if more {
          ok := ProcessDraining(videoOk(i), audioOk(i), v, a);
          more := ok;
        }
        i := i + 1;
      }
      if ok {
        WriteLastCompletes(At(Last), lastOk);
        written := WriteLast(lastOk);
      }
    }
  }

  /** The assertions of the header hold. */
  lemma TakeHeaderPc(s: State)
    requires Inv(s) && s.pc == Header && TakeHeaderNext(s).Some?
    ensures TakeHeaderNext(s) == Some(
              if s.hasVideo && s.v.queue == [] then s.(pc := Failed)
              else s.(v := HeaderTaking(s.v), a := if s.expectsConfig then HeaderTaking(s.a) else s.a, pc := HeaderTaken))
  {
  }

  lemma ProcessAccepted(s: State, videoOk: bool, audioOk: bool)
    requires s.pc == Holding
    ensures var t := ProcessNext(s, videoOk, audioOk);
            && t.v.accepted == s.v.accepted && t.a.accepted == s.a.accepted && t.stopped == s.stopped
            && (t.pc == Loop || t.pc.Failed? || t.pc.AssertFailed?) && (BadStart(t) <==> BadStart(s))
  {
    var u := Filtering(s);
    var c := ChooseOrigin(u);
    if c.Chosen? {
      HandlingAccepted(u.(origin := Some(c.origin), late := c.late), c.origin, videoOk, audioOk);
    }
  }

  lemma TakeAccepted(s: State)
    requires Setup(s) && s.pc == Loop && TakeNext(s).Some?
    ensures var t := TakeNext(s).value;
            && t.v.accepted == s.v.accepted && t.a.accepted == s.a.accepted && t.stopped == s.stopped
            && (BadStart(t) <==> BadStart(s)) && (t.pc == Holding || t.pc == Last)
  {
    TakePc(s);
  }

  lemma WriteLastCompletes(s: State, ok: bool)
    requires Inv(s) && s.pc == Last
    ensures var t := WriteLastNext(s, ok);
            Complete(t) && t.v.accepted == s.v.accepted && t.a.accepted == s.a.accepted
  {
    WriteLastKeeps(s, ok);
    WriteLastFrame(s, ok);
    DoneIsComplete(WriteLastNext(s, ok));
  }

  lemma NoViolation(s: State)
    requires Inv(s) && s.pc == Holding && !BadStart(s)
    ensures !ChooseOrigin(Filtering(s)).Violated?
  {
    if s.origin == None {
      ViolatedMeaning(s);
    }
  }
}
