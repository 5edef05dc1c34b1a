/** The recorder (recorder.c): two producers push packets, one thread writes them to a file. The
    first packets give the header; a video packet is written once the next one is known; the time
    origin is chosen late. A step is one critical section, or the work between two of them. */
module Recorder {
  import opened Arithmetic
  import opened Machine
  import opened Optional
  import opened SequenceFacts

  /** A config packet has no timestamp. */
  datatype Packet = Packet(pts: Option<int>, payload: nat)

  /** A packet handed to the muxer; an audio packet keeps its own duration (None). */
  datatype Written = Written(payload: nat, pts: int, duration: Option<int>)

  predicate IsMedia(p: Packet) { p.pts.Some? }

  function Time(p: Packet): int { if IsMedia(p) then p.pts.value else 0 }

  /** One of the two streams: the shared queue, the packet the thread holds, the media packets it
      has handled, what it has written, and the packet taken by the header. The histories are the
      packets pushed: all of them, and without the one taken by the header. */
  datatype Stream = Stream(queue: seq<Packet>, held: Option<Packet>, done: seq<Packet>, out: seq<Written>,
                           header: Option<Packet>, pushed: seq<Packet>, accepted: seq<Packet>)

  datatype Pc =
    | Header
    | HeaderTaken
    | Loop
    | Holding
    | Last
    | Done(lastWritten: bool)
    | Failed
    | AssertFailed(line: int)

  /** `late`: the origin was chosen without audio, because the recorder was seen stopped. */
  datatype State = State(hasVideo: bool, hasAudio: bool, videoInit: bool, audioInit: bool,
                         expectsConfig: bool, stopped: bool, v: Stream, a: Stream,
                         pc: Pc, origin: Option<int>, late: bool, previous: Option<Written>)

  datatype Action =
    | OpenVideo
    | PushVideo(p: Packet)
    | OpenAudio(expectsConfig: bool)
    | DisableAudio
    | PushAudio(p: Packet)
    | Stop
    | TakeHeader
    | WriteHeader(ok: bool)
    | Take
    | Process(videoOk: bool, audioOk: bool)
    | WriteLast(ok: bool)

  const EMPTY := Stream([], None, [], [], None, [], [])
  const LAST_DURATION := 100000

  function Init(video: bool, audio: bool): State
  {
    State(video, audio, false, false, false, false, EMPTY, EMPTY, Header, None, false, None)
  }

  // ---- the streams

  function Pushed(st: Stream, p: Packet): Stream
  {
    st.(queue := st.queue + [p], pushed := st.pushed + [p], accepted := st.accepted + [p])
  }

  /** The header takes the first packet, if there is one; nothing else was taken before. */
  function HeaderTaking(st: Stream): Stream
  {
    if st.queue == [] then st
    else st.(queue := st.queue[1..], accepted := st.queue[1..], header := Some(st.queue[0]))
  }

  function Fetched(st: Stream): Stream
  {
    if st.held.None? && st.queue != [] then st.(held := Some(st.queue[0]), queue := st.queue[1..]) else st
  }

  /** Config packets after the header are ignored. */
  function Filtered(st: Stream): Stream
  {
    if st.held.Some? && !IsMedia(st.held.value) then st.(held := None) else st
  }

  /** The held packet is handled; `out` is what gets written. */
  function Handled(st: Stream, out: seq<Written>): Stream
    requires st.held.Some?
  {
    st.(held := None, done := st.done + [st.held.value], out := st.out + out)
  }

  // ---- the steps of the recorder thread

  function TakeHeaderNext(s: State): Option<State>
  {
    var waitsForConfig := (s.hasVideo && s.v.queue == []) || (s.hasAudio && s.expectsConfig && s.a.queue == []);
    var waits := (s.hasVideo && !s.videoInit) || (s.hasAudio && !s.audioInit) || waitsForConfig;
    if !s.stopped && waits then None
    else if s.hasVideo && s.v.queue == [] then Some(s.(pc := if s.stopped then Failed else AssertFailed(211)))
    else
      var (v, a) := (HeaderTaking(s.v), if s.expectsConfig then HeaderTaking(s.a) else s.a);
      Some(s.(v := v, a := a,
              pc := if v.header.Some? && !s.hasVideo then AssertFailed(220)
                    else if a.header.Some? && !s.hasAudio then AssertFailed(227)
                    else HeaderTaken))
  }

  predicate IsConfig(header: Option<Packet>) { header.Some? ==> !IsMedia(header.value) }

  function WriteHeaderNext(s: State, ok: bool): Option<State>
  {
    if s.pc != HeaderTaken then None
    else Some(s.(pc := if !IsConfig(s.v.header) || !IsConfig(s.a.header) || !ok then Failed else Loop))
  }

  function Fetching(s: State): State { s.(v := Fetched(s.v), a := Fetched(s.a)) }

  function TakeNext(s: State): Option<State>
  {
    var canVideo := s.hasVideo && s.v.held.None? && s.v.queue != [];
    var canAudio := s.hasAudio && s.a.held.None? && s.a.queue != [];
    if !s.stopped && !canVideo && !canAudio then None
    else if !s.hasVideo && (s.v.held.Some? || s.v.queue != []) then Some(s.(pc := AssertFailed(324)))
    else if !s.hasAudio && (s.a.held.Some? || s.a.queue != []) then Some(s.(pc := AssertFailed(329)))
    else
      var t := Fetching(s);
      Some(t.(pc := if t.v.held.None? && t.a.held.None? then
                      if !t.stopped then AssertFailed(347)
                      else if t.v.queue != [] then AssertFailed(341)
                      else if t.a.queue != [] then AssertFailed(342)
                      else Last
                    else Holding))
  }

  /** How the time origin gets chosen once config packets are filtered out. */
  datatype Choice = Chosen(origin: int, late: bool) | Wait | Error | Violated(line: int)

  function ChooseOrigin(s: State): Choice
  {
    var (v, a) := (s.v.held, s.a.held);
    if s.origin.Some? then Chosen(s.origin.value, s.late)
    else if !s.hasAudio then
      if v.Some? then Chosen(Time(v.value), false) else Violated(366)
    else if !s.hasVideo then
      if a.Some? then Chosen(Time(a.value), false) else Violated(369)
    else if v.Some? && a.Some? then
      Chosen(Min(Time(v.value), Time(a.value)), false)
    else if s.stopped then  // read without the mutex
      if v.Some? then Chosen(Time(v.value), true) else Error
    else Wait
  }

  /** The held video packet gives the previous one its duration and takes its place; None if
      the write fails. */
  function VideoStep(v: Stream, previous: Option<Written>, origin: int, ok: bool): Option<(Stream, Option<Written>)>
  {
    if v.held.None? then Some((v, previous)) else
      var next := Rebase(origin, v.held.value);
      match previous
      case None => Some((Handled(v, []), Some(next)))
      case Some(last) =>
        if !ok then None
        else Some((Handled(v, [last.(duration := Some(next.pts - last.pts))]), Some(next)))
  }

  function AudioStep(a: Stream, origin: int, ok: bool): Option<Stream>
  {
    if a.held.None? then Some(a)
    else if !ok then None
    else Some(Handled(a, [Rebase(origin, a.held.value)]))
  }

  function Handling(s: State, origin: int, videoOk: bool, audioOk: bool): State
  {
    match VideoStep(s.v, s.previous, origin, videoOk)
    case None => s.(pc := Failed)
    case Some((v, previous)) =>
      match AudioStep(s.a, origin, audioOk)
      case None => s.(v := v, previous := previous, pc := Failed)
      case Some(a) => s.(v := v, previous := previous, a := a)
  }

  function Rebase(origin: int, p: Packet): Written { Written(p.payload, Time(p) - origin, None) }

  function Filtering(s: State): State
  {
    s.(v := Filtered(s.v), a := Filtered(s.a), pc := Loop)
  }

  function ProcessNext(s: State, videoOk: bool, audioOk: bool): State
  {
    var t := Filtering(s);
    match ChooseOrigin(t)
    case Violated(line) => t.(pc := AssertFailed(line))
    case Error => t.(pc := Failed)
    case Wait => t
    case Chosen(origin, late) =>
      Handling(t.(origin := Some(origin), late := late), origin, videoOk, audioOk)
  }

  function WriteLastNext(s: State, ok: bool): State
  {
    match s.previous
    case None => s.(pc := Done(true))
    case Some(last) =>
      if ok then s.(v := s.v.(out := s.v.out + [last.(duration := Some(LAST_DURATION))]), pc := Done(true))
      else s.(pc := Done(false))
  }

  function Next(s: State, a: Action): Option<State>
  {
    match a
    case OpenVideo => if s.hasVideo && !s.videoInit && !s.stopped then Some(s.(videoInit := true)) else None
    case PushVideo(p) =>
      if !s.videoInit then None else if s.stopped then Some(s) else Some(s.(v := Pushed(s.v, p)))
    case OpenAudio(expectsConfig) =>
      if s.hasAudio && !s.audioInit then Some(s.(audioInit := true, expectsConfig := expectsConfig)) else None
    case DisableAudio =>
      if s.hasAudio && !s.audioInit then Some(s.(hasAudio := false, audioInit := true)) else None
    case PushAudio(p) =>
      if !s.hasAudio || !s.audioInit then None else if s.stopped then Some(s) else Some(s.(a := Pushed(s.a, p)))
    case Stop => Some(s.(stopped := true))
    case TakeHeader => if s.pc == Header then TakeHeaderNext(s) else None
    case WriteHeader(ok) => WriteHeaderNext(s, ok)
    case Take => if s.pc == Loop then TakeNext(s) else None
    case Process(videoOk, audioOk) => if s.pc == Holding then Some(ProcessNext(s, videoOk, audioOk)) else None
    case WriteLast(ok) => if s.pc == Last then Some(WriteLastNext(s, ok)) else None
  }

  ghost function Step(): (State, Action) -> Option<State> { (s, a) => Next(s, a) }

  // ---- what should be recorded

  /** The media packets, without the config packets. */
  function Media(packets: seq<Packet>): seq<Packet>
  {
    if packets == [] then [] else
      Media(packets[..|packets| - 1]) + MediaOf(packets[|packets| - 1])
  }

  function MediaOf(p: Packet): seq<Packet> { if IsMedia(p) then [p] else [] }

  function InHand(held: Option<Packet>): seq<Packet> { if held.Some? then [held.value] else [] }

  function HeldMedia(held: Option<Packet>): seq<Packet> { if held.Some? then MediaOf(held.value) else [] }

  function Rebased(origin: int, packets: seq<Packet>): seq<Written>
  {
    if packets == [] then [] else
      Rebased(origin, packets[..|packets| - 1]) + [Rebase(origin, packets[|packets| - 1])]
  }

  /** Each packet but the last, which lasts until the next one. */
  function Timed(origin: int, packets: seq<Packet>): seq<Written>
  {
    var n := |packets| - 1;
    if n <= 0 then [] else Timed(origin, packets[..n]) + [Until(origin, packets[n - 1], packets[n])]
  }

  function Until(origin: int, p: Packet, next: Packet): Written
  {
    Written(p.payload, Time(p) - origin, Some(Time(next) - Time(p)))
  }

  /** The last packet, with an arbitrary duration. */
  function TimedLast(origin: int, packets: seq<Packet>): seq<Written>
  {
    if packets == [] then [] else
      var p := packets[|packets| - 1];
      [Written(p.payload, Time(p) - origin, Some(LAST_DURATION))]
  }

  function Earliest(v: seq<Packet>, a: seq<Packet>): int
    requires v != [] || a != []
  {
    if v == [] then Time(a[0]) else if a == [] then Time(v[0]) else Min(Time(v[0]), Time(a[0]))
  }

  // ---- the invariant, piece by piece

  /** Nothing is lost or reordered in a stream. */
  ghost predicate StreamInv(st: Stream)
  {
    Media(st.accepted) == st.done + HeldMedia(st.held) + Media(st.queue)
  }

  /** The origin is the first timestamp of all, or of the video alone if chosen late. */
  ghost predicate IsOrigin(origin: int, late: bool, hasVideo: bool, hasAudio: bool, v: seq<Packet>, a: seq<Packet>)
  {
    if late then v != [] && origin == Time(v[0])
    else && (hasVideo ==> v != []) && (hasAudio ==> a != []) && (v != [] || a != [])
         && origin == Earliest(v, a)
  }

  ghost predicate OriginInv(s: State)
  {
    match s.origin
    case None => s.v.done == [] && s.a.done == [] && !s.late
    case Some(origin) => IsOrigin(origin, s.late, s.hasVideo, s.hasAudio, Media(s.v.accepted), Media(s.a.accepted))
  }

  function OriginOf(s: State): int { if s.origin.Some? then s.origin.value else 0 }

  function LastOf(o: int, done: seq<Packet>): Option<Written>
  {
    if done == [] then None else Some(Rebase(o, done[|done| - 1]))
  }

  ghost predicate Outputs(s: State)
  {
    var o := OriginOf(s);
    && s.a.out == Rebased(o, s.a.done)
    && if s.pc.Done? then s.v.out == Timed(o, s.v.done) + if s.pc.lastWritten then TimedLast(o, s.v.done) else []
       else s.v.out == Timed(o, s.v.done) && s.previous == LastOf(o, s.v.done)
  }

  ghost predicate Core(s: State)
  {
    StreamInv(s.v) && StreamInv(s.a) && OriginInv(s) && Outputs(s)
  }

  ghost predicate Setup(s: State)
  {
    && (s.v.held.Some? || s.v.queue != [] ==> s.v.accepted != [])
    && (s.a.held.Some? || s.a.queue != [] ==> s.a.accepted != [])
    && (s.v.accepted != [] || s.videoInit ==> s.hasVideo)
    && (s.a.accepted != [] ==> s.hasAudio && s.audioInit)
  }

  ghost predicate Drained(s: State)
  {
    s.stopped && s.v.held == s.a.held == None && s.v.queue == s.a.queue == []
  }

  /** In each stream, the first packet after the header is a media packet. */
  predicate StartWithMedia(s: State)
  {
    && (s.v.accepted != [] ==> IsMedia(s.v.accepted[0]))
    && (s.a.accepted != [] ==> IsMedia(s.a.accepted[0]))
  }

  /** Nothing has been skipped yet. */
  ghost predicate Whole(st: Stream) { st.accepted == InHand(st.held) + st.queue }

  ghost predicate Untouched(s: State) { Whole(s.v) && Whole(s.a) }

  /** One stream is recorded, or audio may still be disabled. */
  predicate Alone(s: State) { !s.hasVideo || !s.hasAudio || !s.audioInit }

  /** The only stream recorded starts with a config packet after the header. */
  predicate BadStart(s: State)
  {
    if !s.hasAudio then s.v.accepted != [] && !IsMedia(s.v.accepted[0])
    else !s.hasVideo && s.a.accepted != [] && !IsMedia(s.a.accepted[0])
  }

  /** The loop starts without audio only once stopped; a stream alone chooses the origin with its
      first packet. */
  ghost predicate Fresh(s: State)
  {
    && (s.hasAudio && !s.audioInit ==> s.stopped)
    && (Alone(s) ==> if s.origin == None then Untouched(s) else StartWithMedia(s))
  }

  ghost predicate AtPc(s: State)
  {
    match s.pc
    case Header =>
      s.origin == None && Untouched(s) && s.v.held == s.a.held == None && s.v.header == s.a.header == None
    case HeaderTaken => s.origin == None && Untouched(s) && Fresh(s)
    case Loop => Fresh(s)
    case Holding => Fresh(s) && (s.v.held.Some? || s.a.held.Some?)
    case Last => Fresh(s) && Drained(s)
    case Done(_) => Fresh(s) && Drained(s)
    case Failed => true
    case AssertFailed(line) => BadStart(s) && line == (if s.hasAudio then 369 else 366)
  }

  ghost predicate Inv(s: State) { Setup(s) && AtPc(s) && (Core(s) || s.pc.Failed? || s.pc.AssertFailed?) }

  // ---- the streams, step by step

  lemma MediaPush(x: seq<Packet>, p: Packet)
    ensures Media(x + [p]) == Media(x) + MediaOf(p)
  {
    assert (x + [p])[..|x|] == x;
  }

  lemma {:induction false} MediaPop(x: seq<Packet>)
    requires x != []
    ensures Media(x) == MediaOf(x[0]) + Media(x[1..])
  {
    var n := |x| - 1;
    if n == 0 {
      assert x[..0] == [] == x[1..];
    } else {
      var rest := x[1..];
      MediaPop(x[..n]);
      assert rest[..n - 1] == x[..n][1..] && rest[n - 1] == x[n];
      assert Media(rest) == Media(rest[..n - 1]) + MediaOf(x[n]);
      Assoc(MediaOf(x[0]), Media(rest[..n - 1]), MediaOf(x[n]));
    }
  }

  lemma Regroup(x: seq<Packet>, y: seq<Packet>, z: seq<Packet>, w: seq<Packet>)
    ensures ((x + y) + z) + w == (x + y) + (z + w)
    ensures ((x + y) + []) + z == (x + y) + z
    ensures (x + []) + (y + z) == (x + y) + z
  {
  }

  lemma PushedKeeps(st: Stream, p: Packet)
    requires StreamInv(st)
    ensures StreamInv(Pushed(st, p))
  {
    MediaPush(st.accepted, p);
    MediaPush(st.queue, p);
    Regroup(st.done, HeldMedia(st.held), Media(st.queue), MediaOf(p));
  }

  lemma FetchedKeeps(st: Stream)
    requires StreamInv(st)
    ensures StreamInv(Fetched(st))
  {
    if st.held.None? && st.queue != [] {
      MediaPop(st.queue);
      Regroup(st.done, MediaOf(st.queue[0]), Media(st.queue[1..]), []);
    }
  }

  lemma FilteredKeeps(st: Stream)
    requires StreamInv(st)
    ensures StreamInv(Filtered(st))
  {
  }

  lemma HandledKeeps(st: Stream, out: seq<Written>)
    requires StreamInv(st) && st.held.Some? && IsMedia(st.held.value)
    ensures StreamInv(Handled(st, out))
  {
    Regroup(st.done, [st.held.value], Media(st.queue), []);
  }

  /** A held media packet, with nothing handled before, is the first one accepted. */
  lemma HeldIsFirst(st: Stream)
    requires StreamInv(st) && st.done == [] && st.held.Some? && IsMedia(st.held.value)
    ensures Media(st.accepted) != [] && Media(st.accepted)[0] == st.held.value
  {
  }

  lemma PushedWhole(st: Stream, p: Packet)
    requires Whole(st)
    ensures Whole(Pushed(st, p))
  {
  }

  lemma FetchedWhole(st: Stream)
    requires Whole(st)
    ensures Whole(Fetched(st))
  {
  }

  /** The origin is not affected by the packets that come after the first one. */
  lemma OriginKept(origin: int, late: bool, hasVideo: bool, hasAudio: bool,
                   v: seq<Packet>, a: seq<Packet>, v': seq<Packet>, a': seq<Packet>)
    requires IsOrigin(origin, late, hasVideo, hasAudio, v, a)
    requires v <= v' && a <= a' && (v != v' ==> hasVideo) && (a != a' ==> hasAudio)
    ensures IsOrigin(origin, late, hasVideo, hasAudio, v', a')
  {
  }

  // ---- every step keeps the invariant

  lemma PushVideoCore(s: State, p: Packet)
    requires Core(s) && !s.pc.Done? && s.hasVideo
    ensures Core(s.(v := Pushed(s.v, p)))
  {
    PushedKeeps(s.v, p);
    MediaPush(s.v.accepted, p);
    if s.origin.Some? {
      OriginKept(s.origin.value, s.late, s.hasVideo, s.hasAudio, Media(s.v.accepted), Media(s.a.accepted),
                 Media(s.v.accepted + [p]), Media(s.a.accepted));
    }
  }

  lemma PushAudioCore(s: State, p: Packet)
    requires Core(s) && !s.pc.Done? && s.hasAudio
    ensures Core(s.(a := Pushed(s.a, p)))
  {
    PushedKeeps(s.a, p);
    MediaPush(s.a.accepted, p);
    if s.origin.Some? {
      OriginKept(s.origin.value, s.late, s.hasVideo, s.hasAudio, Media(s.v.accepted), Media(s.a.accepted),
                 Media(s.v.accepted), Media(s.a.accepted + [p]));
    }
  }

  lemma PushKeeps(s: State, t: State, p: Packet)
    requires Inv(s) && !s.stopped
    requires || (s.hasVideo && t == s.(v := Pushed(s.v, p)))
             || (s.hasAudio && s.audioInit && t == s.(a := Pushed(s.a, p)))
    ensures Setup(t) && AtPc(t)
  {
    if Whole(s.v) { PushedWhole(s.v, p); }
    if Whole(s.a) { PushedWhole(s.a, p); }
    if s.origin.Some? && OriginInv(s) {
      assert Media([]) == [];
      assert s.hasVideo && Alone(s) ==> s.v.accepted != [];
      assert s.hasAudio && s.audioInit && Alone(s) ==> s.a.accepted != [];
    }
  }

  lemma PushVideoKeeps(s: State, p: Packet)
    requires Inv(s) && Next(s, PushVideo(p)).Some?
    ensures Inv(Next(s, PushVideo(p)).value)
  {
    if !s.stopped {
      PushKeeps(s, s.(v := Pushed(s.v, p)), p);
      if Core(s) { PushVideoCore(s, p); }
    }
  }

  lemma PushAudioKeeps(s: State, p: Packet)
    requires Inv(s) && Next(s, PushAudio(p)).Some?
    ensures Inv(Next(s, PushAudio(p)).value)
  {
    if !s.stopped {
      PushKeeps(s, s.(a := Pushed(s.a, p)), p);
      if Core(s) { PushAudioCore(s, p); }
    }
  }

  lemma FlagsKeep(s: State, videoInit: bool, audioInit: bool, expectsConfig: bool, stopped: bool)
    requires Core(s)
    ensures Core(s.(videoInit := videoInit, audioInit := audioInit, expectsConfig := expectsConfig, stopped := stopped))
  {
  }

  lemma OpenKeeps(s: State, a: Action)
    requires Inv(s) && Next(s, a).Some? && (a.OpenVideo? || a.Stop?)
    ensures Inv(Next(s, a).value)
  {
    var t := Next(s, a).value;
    if Core(s) {
      FlagsKeep(s, t.videoInit, t.audioInit, t.expectsConfig, t.stopped);
    }
  }

  lemma OpenAudioKeeps(s: State, expectsConfig: bool)
    requires Inv(s) && Next(s, OpenAudio(expectsConfig)).Some?
    ensures Inv(Next(s, OpenAudio(expectsConfig)).value)
  {
    if Core(s) {
      FlagsKeep(s, s.videoInit, true, expectsConfig, s.stopped);
    }
  }

  lemma DisableKeeps(s: State)
    requires Inv(s) && Next(s, DisableAudio).Some?
    ensures Inv(Next(s, DisableAudio).value)
  {
    var t := Next(s, DisableAudio).value;
    assert s.a.accepted == [] && Media([]) == [];
    if Core(s) {
      assert s.origin.Some? ==> s.late;
      assert OriginInv(t) && Outputs(t);
    }
  }

  lemma WholeStream(st: Stream)
    requires Whole(st) && st.held == None && st.done == []
    ensures StreamInv(st)
  {
    assert st.accepted == st.queue;
  }

  lemma HeaderTakenWhole(st: Stream)
    requires Whole(st) && st.held == None && st.done == []
    ensures var t := HeaderTaking(st);
            && Whole(t) && StreamInv(t) && t.held == None && t.done == st.done && t.out == st.out
            && (t.queue != [] ==> st.queue != [])
            && t.header == if st.queue != [] then Some(st.queue[0]) else st.header
  {
    WholeStream(HeaderTaking(st));
  }

  lemma TakeHeaderCore(s: State, v: Stream, a: Stream, pc: Pc)
    requires Core(s) && s.pc == Header && s.origin == None && !pc.Done? && StreamInv(v) && StreamInv(a)
    requires v.done == s.v.done && v.out == s.v.out && a.done == s.a.done && a.out == s.a.out
    ensures Core(s.(v := v, a := a, pc := pc))
  {
  }

  lemma TakeHeaderKeeps(s: State)
    requires Inv(s) && Next(s, TakeHeader).Some?
    ensures Inv(Next(s, TakeHeader).value)
  {
    HeaderTakenWhole(s.v);
    HeaderTakenWhole(s.a);
    var t := Next(s, TakeHeader).value;
    if t.pc.HeaderTaken? {
      WholeStream(s.a);
      TakeHeaderCore(s, t.v, t.a, t.pc);
    }
  }

  lemma WriteHeaderKeeps(s: State, ok: bool)
    requires Inv(s) && Next(s, WriteHeader(ok)).Some?
    ensures Inv(Next(s, WriteHeader(ok)).value)
  {
    var t := Next(s, WriteHeader(ok)).value;
    if t.pc == Loop {
      CoreAt(s, Loop);
    } else {
      StuckKeeps(s, Failed);
    }
    assert t == s.(pc := t.pc);
  }

  lemma FetchingCore(s: State)
    requires Core(s) && s.pc == Loop
    ensures Core(Fetching(s))
  {
    FetchedKeeps(s.v);
    FetchedKeeps(s.a);
  }

  lemma FetchingFresh(s: State)
    requires Fresh(s)
    ensures Fresh(Fetching(s))
  {
    if Untouched(s) {
      FetchedWhole(s.v);
      FetchedWhole(s.a);
    }
  }

  lemma CoreAt(s: State, pc: Pc)
    requires Core(s) && !s.pc.Done? && !pc.Done?
    ensures Core(s.(pc := pc))
  {
  }

  lemma TakePc(s: State)
    requires Setup(s) && s.pc == Loop && TakeNext(s).Some?
    ensures var t := TakeNext(s).value;
            && t == Fetching(s).(pc := t.pc) && Setup(t)
            && if t.v.held.Some? || t.a.held.Some? then t.pc == Holding else t.pc == Last && Drained(t)
  {
  }

  lemma TakeKeeps(s: State)
    requires Inv(s) && Next(s, Take).Some?
    ensures Inv(Next(s, Take).value)
  {
    TakePc(s);
    FetchingCore(s);
    FetchingFresh(s);
    CoreAt(Fetching(s), TakeNext(s).value.pc);
  }

  lemma FilteringCore(s: State)
    requires Core(s) && s.pc == Holding
    ensures Core(Filtering(s))
  {
    FilteredKeeps(s.v);
    FilteredKeeps(s.a);
  }

  lemma FilteringSetup(s: State)
    requires Setup(s)
    ensures Setup(Filtering(s)) && OnlyMedia(Filtering(s))
  {
  }

  /** The origin chosen by a stream alone is the timestamp of its first packet. */
  lemma ChosenFresh(s: State)
    requires Setup(s) && Fresh(s) && ChooseOrigin(Filtering(s)).Chosen?
    ensures var c := ChooseOrigin(Filtering(s));
            Fresh(Filtering(s).(origin := Some(c.origin), late := c.late))
  {
    if Alone(s) && s.origin == None {
      assert s.v.held.Some? ==> s.v.accepted[0] == s.v.held.value;
      assert s.a.held.Some? ==> s.a.accepted[0] == s.a.held.value;
    }
  }

  /** The held packets are media packets. */
  predicate OnlyMedia(s: State)
  {
    (s.v.held.Some? ==> IsMedia(s.v.held.value)) && (s.a.held.Some? ==> IsMedia(s.a.held.value))
  }

  lemma OriginKeeps(s: State)
    requires Setup(s) && Core(s) && s.pc == Loop && OnlyMedia(s) && ChooseOrigin(s).Chosen?
    ensures var c := ChooseOrigin(s);
            var t := s.(origin := Some(c.origin), late := c.late);
            Setup(t) && Core(t)
  {
    if s.origin == None {
      if s.v.held.Some? { HeldIsFirst(s.v); }
      if s.a.held.Some? { HeldIsFirst(s.a); }
      assert s.v.accepted == [] ==> Media(s.v.accepted) == [];
      assert s.a.accepted == [] ==> Media(s.a.accepted) == [];
    }
  }

  lemma RebasedPush(o: int, done: seq<Packet>, p: Packet)
    ensures Rebased(o, done + [p]) == Rebased(o, done) + [Rebase(o, p)]
  {
    assert (done + [p])[..|done|] == done;
  }

  lemma TimedPush(o: int, done: seq<Packet>, p: Packet)
    ensures Timed(o, done + [p]) == Timed(o, done) + if done == [] then [] else [Until(o, done[|done| - 1], p)]
  {
    assert (done + [p])[..|done|] == done;
  }

  lemma VideoStepKeeps(v: Stream, previous: Option<Written>, o: int, ok: bool)
    requires StreamInv(v) && (v.held.Some? ==> IsMedia(v.held.value))
    requires v.out == Timed(o, v.done) && previous == LastOf(o, v.done)
    ensures var r := VideoStep(v, previous, o, ok);
            r.Some? ==>
              var (w, next) := r.value;
              && StreamInv(w) && w.out == Timed(o, w.done) && next == LastOf(o, w.done)
              && Releases(v, w)
  {
    if v.held.Some? {
      TimedPush(o, v.done, v.held.value);
      HandledKeeps(v, []);
    }
  }

  lemma AudioStepKeeps(a: Stream, o: int, ok: bool)
    requires StreamInv(a) && (a.held.Some? ==> IsMedia(a.held.value)) && a.out == Rebased(o, a.done)
    ensures var r := AudioStep(a, o, ok);
            r.Some? ==>
              && StreamInv(r.value) && r.value.out == Rebased(o, r.value.done)
              && Releases(a, r.value)
  {
    if a.held.Some? {
      RebasedPush(o, a.done, a.held.value);
      HandledKeeps(a, [Rebase(o, a.held.value)]);
    }
  }

  lemma HandledCore(s: State, v: Stream, previous: Option<Written>, a: Stream)
    requires OriginInv(s) && s.pc == Loop && s.origin.Some? && StreamInv(v) && StreamInv(a)
    requires v.accepted == s.v.accepted && a.accepted == s.a.accepted
    requires v.out == Timed(s.origin.value, v.done) && previous == LastOf(s.origin.value, v.done)
    requires a.out == Rebased(s.origin.value, a.done)
    ensures Core(s.(v := v, previous := previous, a := a))
  {
  }

  /** `t` is `s` after it handled what it held. */
  predicate Releases(s: Stream, t: Stream) { t == s.(held := None, done := t.done, out := t.out) }

  lemma HandlingSetup(s: State, v: Stream, previous: Option<Written>, a: Stream, pc: Pc)
    requires Setup(s) && Releases(s.v, v) && (a == s.a || Releases(s.a, a))
    ensures Setup(s.(v := v, previous := previous, a := a, pc := pc))
  {
  }

  lemma HandledInv(s: State, v: Stream, previous: Option<Written>, a: Stream)
    requires Setup(s) && OriginInv(s) && Fresh(s) && s.pc == Loop && s.origin.Some?
    requires Releases(s.v, v) && Releases(s.a, a) && StreamInv(v) && StreamInv(a)
    requires v.out == Timed(s.origin.value, v.done) && previous == LastOf(s.origin.value, v.done)
    requires a.out == Rebased(s.origin.value, a.done)
    ensures Inv(s.(v := v, previous := previous, a := a))
  {
    HandlingSetup(s, v, previous, a, Loop);
    HandledCore(s, v, previous, a);
  }

  lemma HandlingStuck(s: State, v: Stream, previous: Option<Written>)
    requires Setup(s) && Releases(s.v, v)
    ensures Inv(s.(v := v, previous := previous, pc := Failed)) && Inv(s.(pc := Failed))
  {
    HandlingSetup(s, v, previous, s.a, Failed);
    StuckKeeps(s.(v := v, previous := previous, pc := Failed), Failed);
    StuckKeeps(s, Failed);
  }

  lemma HandlingKeeps(s: State, videoOk: bool, audioOk: bool)
    requires Setup(s) && Core(s) && Fresh(s) && s.pc == Loop && OnlyMedia(s) && s.origin.Some?
    ensures Inv(Handling(s, s.origin.value, videoOk, audioOk))
  {
    var o := s.origin.value;
    VideoStepKeeps(s.v, s.previous, o, videoOk);
    AudioStepKeeps(s.a, o, audioOk);
    match VideoStep(s.v, s.previous, o, videoOk) {
      case None => HandlingStuck(s, s.v.(held := None), s.previous);
      case Some((v, previous)) =>
        match AudioStep(s.a, o, audioOk) {
          case None => HandlingStuck(s, v, previous);
          case Some(a) => HandledInv(s, v, previous, a);
        }
    }
  }

  /** The assertions on the first packet fail exactly if it is a config packet of a stream alone. */
  lemma ViolatedMeaning(s: State)
    requires Setup(s) && Fresh(s) && s.origin == None && (s.v.held.Some? || s.a.held.Some?)
    ensures ChooseOrigin(Filtering(s)).Violated? <==> BadStart(s)
    ensures BadStart(s) ==> ChooseOrigin(Filtering(s)) == Violated(if s.hasAudio then 369 else 366)
  {
    if Alone(s) {
      assert s.v.held.Some? ==> s.v.accepted[0] == s.v.held.value;
      assert s.a.held.Some? ==> s.a.accepted[0] == s.a.held.value;
    }
  }

  lemma ProcessChosen(s: State, videoOk: bool, audioOk: bool)
    requires Inv(s) && s.pc == Holding && ChooseOrigin(Filtering(s)).Chosen?
    ensures var c := ChooseOrigin(Filtering(s));
            var t := Filtering(s).(origin := Some(c.origin), late := c.late);
            Inv(Handling(t, c.origin, videoOk, audioOk))
  {
    FilteringCore(s);
    FilteringSetup(s);
    ChosenFresh(s);
    OriginKeeps(Filtering(s));
    var c := ChooseOrigin(Filtering(s));
    HandlingKeeps(Filtering(s).(origin := Some(c.origin), late := c.late), videoOk, audioOk);
  }

  lemma WaitKeeps(s: State)
    requires Inv(s) && s.pc == Holding && ChooseOrigin(Filtering(s)).Wait?
    ensures Inv(Filtering(s))
  {
    FilteringCore(s);
    FilteringSetup(s);
    assert !Alone(s);
  }

  lemma ProcessKeeps(s: State, videoOk: bool, audioOk: bool)
    requires Inv(s) && s.pc == Holding
    ensures Inv(ProcessNext(s, videoOk, audioOk))
  {
    FilteringSetup(s);
    var t := Filtering(s);
    match ChooseOrigin(t) {
      case Chosen(origin, late) =>
        ProcessChosen(s, videoOk, audioOk);
        assert ProcessNext(s, videoOk, audioOk)
               == Handling(t.(origin := Some(origin), late := late), origin, videoOk, audioOk);
      case Violated(line) =>
        ViolatedMeaning(s);
        StuckKeeps(t, AssertFailed(line));
      case Error => StuckKeeps(t, Failed);
      case Wait => WaitKeeps(s);
    }
  }

  lemma StuckKeeps(s: State, pc: Pc)
    requires Setup(s) && (pc == Failed || (BadStart(s) && pc == AssertFailed(if s.hasAudio then 369 else 366)))
    ensures Inv(s.(pc := pc))
  {
  }

  lemma WriteLastOutputs(s: State, ok: bool)
    requires Outputs(s) && s.pc == Last
    ensures Outputs(WriteLastNext(s, ok))
  {
  }

  /** Only what is written and where the thread is changes at the end. */
  lemma WriteLastFrame(s: State, ok: bool)
    ensures var t := WriteLastNext(s, ok); t == s.(v := s.v.(out := t.v.out), pc := t.pc) && t.pc.Done?
    ensures (ok && s.previous.Some?) || WriteLastNext(s, ok).v == s.v
  {
  }

  lemma OutputOnly(s: State, out: seq<Written>, pc: Pc)
    requires Setup(s) && Fresh(s) && Drained(s)
    ensures var t := s.(v := s.v.(out := out), pc := pc); Setup(t) && Fresh(t) && Drained(t)
  {
  }

  lemma WriteLastKeeps(s: State, ok: bool)
    requires Inv(s) && s.pc == Last
    ensures Inv(WriteLastNext(s, ok))
  {
    WriteLastOutputs(s, ok);
    WriteLastFrame(s, ok);
    var t := WriteLastNext(s, ok);
    OutputOnly(s, t.v.out, t.pc);
    assert StreamInv(t.v) && StreamInv(t.a) && OriginInv(t);
  }

  lemma NextKeeps(s: State, a: Action)
    requires Inv(s) && Next(s, a).Some?
    ensures Inv(Next(s, a).value)
  {
    match a
    case OpenVideo | Stop => OpenKeeps(s, a);
    case OpenAudio(expectsConfig) => OpenAudioKeeps(s, expectsConfig);
    case DisableAudio => DisableKeeps(s);
    case PushVideo(p) => PushVideoKeeps(s, p);
    case PushAudio(p) => PushAudioKeeps(s, p);
    case TakeHeader => TakeHeaderKeeps(s);
    case WriteHeader(ok) => WriteHeaderKeeps(s, ok);
    case Take => TakeKeeps(s);
    case Process(videoOk, audioOk) => ProcessKeeps(s, videoOk, audioOk);
    case WriteLast(ok) => WriteLastKeeps(s, ok);
  }

  ghost predicate Reachable(video: bool, audio: bool, s: State)
  {
    Reaches(Init(video, audio), Step(), s)
  }

  lemma ReachableInv(video: bool, audio: bool, s: State)
    requires Reachable(video, audio, s)
    ensures Inv(s)
  {
    forall s, a | Inv(s) && Step()(s, a).Some?
      ensures Inv(Step()(s, a).value)
    {
      NextKeeps(s, a);
    }
    Invariant(Init(video, audio), Step(), (s: State) => Inv(s), s);
  }

  // ---- the main results, over every interleaving of the pushes, the stop and the recorder

  lemma {:induction false} RebasedAt(o: int, packets: seq<Packet>, i: nat)
    requires i < |packets|
    ensures |Rebased(o, packets)| == |packets| && Rebased(o, packets)[i] == Rebase(o, packets[i])
  {
    var n := |packets| - 1;
    if i < n {
      RebasedAt(o, packets[..n], i);
    } else if n > 0 {
      RebasedAt(o, packets[..n], 0);
    }
  }

  lemma {:induction false} TimedAt(o: int, packets: seq<Packet>, i: nat)
    requires i + 1 < |packets|
    ensures |Timed(o, packets)| == |packets| - 1 && Timed(o, packets)[i] == Until(o, packets[i], packets[i + 1])
  {
    var n := |packets| - 1;
    if i + 1 < n {
      TimedAt(o, packets[..n], i);
    } else if n > 1 {
      TimedAt(o, packets[..n], 0);
    }
  }

  /** What a finished recording contains. */
  ghost predicate Complete(s: State)
  {
    var (v, o) := (Media(s.v.accepted), OriginOf(s));
    && s.a.out == Rebased(o, Media(s.a.accepted))
    && s.v.out == Timed(o, v) + if s.pc == Done(true) then TimedLast(o, v) else []
  }

  lemma DoneIsComplete(s: State)
    requires Inv(s) && s.pc.Done?
    ensures Complete(s)
  {
    assert Media(s.v.accepted) == s.v.done && Media(s.a.accepted) == s.a.done;
  }

  /** Each video packet but the last lasts until the next one, on the rebased clock. */
  lemma Durations(o: int, v: seq<Packet>, i: nat)
    requires i < |v|
    ensures var out := Timed(o, v) + TimedLast(o, v);
            && |out| == |v| && out[i].payload == v[i].payload && out[i].pts == Time(v[i]) - o
            && out[i].duration == Some(if i + 1 < |v| then out[i + 1].pts - out[i].pts else LAST_DURATION)
  {
    if i + 1 < |v| {
      TimedAt(o, v, i);
      if i + 2 < |v| { TimedAt(o, v, i + 1); }
    } else if |v| > 1 {
      TimedAt(o, v, 0);
    }
  }

  predicate Nondecreasing(packets: seq<Packet>)
  {
    forall i, j :: 0 <= i <= j < |packets| ==> Time(packets[i]) <= Time(packets[j])
  }

  predicate NonNegative(out: seq<Written>)
  {
    forall i :: 0 <= i < |out| ==> out[i].pts >= 0
  }

  lemma OriginBounds(o: int, late: bool, hasVideo: bool, hasAudio: bool, v: seq<Packet>, a: seq<Packet>)
    requires IsOrigin(o, late, hasVideo, hasAudio, v, a)
    ensures v == [] || o <= Time(v[0])
    ensures (a == [] || o <= Time(a[0])) <==> !(late && v != [] && a != [] && Time(a[0]) < Time(v[0]))
  {
  }

  lemma VideoSigns(o: int, v: seq<Packet>)
    requires Nondecreasing(v)
    requires v == [] || o <= Time(v[0])
    ensures NonNegative(Timed(o, v) + TimedLast(o, v)) && NonNegative(Timed(o, v))
  {
    var out := Timed(o, v) + TimedLast(o, v);
    forall i | 0 <= i < |v| ensures |out| == |v| && out[i].pts == Time(v[i]) - o { Durations(o, v, i); }
    assert out[..|Timed(o, v)|] == Timed(o, v);
  }

  lemma AudioSigns(o: int, a: seq<Packet>)
    requires Nondecreasing(a)
    ensures NonNegative(Rebased(o, a)) <==> a == [] || o <= Time(a[0])
  {
    var out := Rebased(o, a);
    forall i | 0 <= i < |a| ensures |out| == |a| && out[i].pts == Time(a[i]) - o { RebasedAt(o, a, i); }
    assert a != [] ==> out[0].pts == Time(a[0]) - o;
  }

  /** With nondecreasing timestamps, everything written is at or after the origin, unless the
      origin was chosen late, from the video alone, and the audio starts before it: then, and only
      then, a negative timestamp is written. */
  lemma NegativeTimestamps(video: bool, audio: bool, s: State)
    requires Reachable(video, audio, s)
    requires && s.pc.Done?
             && Nondecreasing(Media(s.v.accepted)) && Nondecreasing(Media(s.a.accepted))
    ensures SignsMeaning(s)
  {
    ReachableInv(video, audio, s);
    DoneSigns(s);
  }

  ghost predicate SignsMeaning(s: State)
  {
    var (v, a) := (Media(s.v.accepted), Media(s.a.accepted));
    && NonNegative(s.v.out)
    && (NonNegative(s.a.out) <==> !(s.late && v != [] && a != [] && Time(a[0]) < Time(v[0])))
  }

  lemma DoneSigns(s: State)
    requires Inv(s) && s.pc.Done?
    requires Nondecreasing(Media(s.v.accepted)) && Nondecreasing(Media(s.a.accepted))
    ensures SignsMeaning(s)
  {
    DoneIsComplete(s);
    NothingWithoutOrigin(s);
    Signs(s);
  }

  lemma NothingWithoutOrigin(s: State)
    requires Core(s) && Drained(s)
    ensures s.origin == None ==> Media(s.v.accepted) == Media(s.a.accepted) == []
  {
  }

  lemma Signs(s: State)
    requires OriginInv(s) && Complete(s) && (s.origin == None ==> Media(s.v.accepted) == Media(s.a.accepted) == [])
    requires Nondecreasing(Media(s.v.accepted)) && Nondecreasing(Media(s.a.accepted))
    ensures SignsMeaning(s)
  {
    var (v, a, o) := (Media(s.v.accepted), Media(s.a.accepted), OriginOf(s));
    if s.origin.Some? {
      OriginBounds(o, s.late, s.hasVideo, s.hasAudio, v, a);
    }
    VideoSigns(o, v);
    AudioSigns(o, a);
  }

  /** No assertion of the recorder thread ever fails, but for lines 366 and 369, and only when the
      only stream recorded starts with a config packet after the header; recording such a stream
      never ends cleanly. */
  lemma AssertionsHold(video: bool, audio: bool, s: State)
    requires Reachable(video, audio, s)
    ensures s.pc.AssertFailed? ==> BadStart(s) && s.pc.line == if s.hasAudio then 369 else 366
    ensures s.pc.Done? ==> !BadStart(s)
  {
    ReachableInv(video, audio, s);
  }

  /** What the assertions of the critical sections ask for (lines 211 to 227 and 324 to 347). */
  lemma AssertedFacts(video: bool, audio: bool, s: State)
    requires Reachable(video, audio, s)
    ensures s.v.queue != [] || s.v.held.Some? ==> s.hasVideo
    ensures s.a.queue != [] || s.a.held.Some? ==> s.hasAudio
    ensures s.pc == Header && TakeHeaderNext(s).Some? && s.hasVideo && s.v.queue == [] ==> s.stopped
    ensures s.pc == Loop && TakeNext(s).Some? && Fetched(s.v).held == Fetched(s.a).held == None ==>
              s.stopped && s.v.queue == s.a.queue == []
  {
    ReachableInv(video, audio, s);
    assert Setup(s);
  }

  predicate HoldsMedia(st: Stream) { st.held.Some? && IsMedia(st.held.value) }

  function HeldTime(st: Stream): int { if st.held.Some? then Time(st.held.value) else 0 }

  /** When the origin gets chosen: at once and as the earliest time if every stream recorded gives a
      media packet; late, as the time of the video, only once stopped and without audio. */
  lemma OriginChosen(video: bool, audio: bool, s: State, videoOk: bool, audioOk: bool)
    requires Reachable(video, audio, s) && s.pc == Holding && s.origin == None
    ensures var t := ProcessNext(s, videoOk, audioOk);
            var (v, a) := (HoldsMedia(s.v), HoldsMedia(s.a));
            && ((s.hasVideo ==> v) && (s.hasAudio ==> a) && (s.hasVideo || s.hasAudio) ==>
                  && !t.late
                  && t.origin == Some(if !a then HeldTime(s.v) else if !v then HeldTime(s.a)
                                      else Min(HeldTime(s.v), HeldTime(s.a))))
            && (t.late ==> s.stopped && s.hasAudio && !a && v && t.origin == Some(HeldTime(s.v)))
            && (t.origin.Some? && !t.late ==> (s.hasVideo ==> v) && (s.hasAudio ==> a))
  {
    ReachableInv(video, audio, s);
    HeldRecorded(s);
    ChoiceMeaning(s);
    ProcessOrigin(s, videoOk, audioOk);
  }

  lemma HeldRecorded(s: State)
    requires Inv(s) && s.pc == Holding
    ensures (HoldsMedia(s.v) ==> s.hasVideo) && (HoldsMedia(s.a) ==> s.hasAudio)
    ensures s.v.held.Some? || s.a.held.Some?
    ensures s.origin == None ==> !s.late
  {
  }

  lemma ChoiceMeaning(s: State)
    requires s.origin == None
    requires (HoldsMedia(s.v) ==> s.hasVideo) && (HoldsMedia(s.a) ==> s.hasAudio) && (s.v.held.Some? || s.a.held.Some?)
    ensures var (c, v, a) := (ChooseOrigin(Filtering(s)), HoldsMedia(s.v), HoldsMedia(s.a));
            && ((s.hasVideo ==> v) && (s.hasAudio ==> a) && (s.hasVideo || s.hasAudio) ==>
                  c == Chosen(if !a then HeldTime(s.v) else if !v then HeldTime(s.a)
                              else Min(HeldTime(s.v), HeldTime(s.a)), false))
            && (c.Chosen? && c.late ==> s.stopped && s.hasAudio && !a && v && c.origin == HeldTime(s.v))
            && (c.Chosen? && !c.late ==> (s.hasVideo ==> v) && (s.hasAudio ==> a))
  {
  }

  lemma ProcessOrigin(s: State, videoOk: bool, audioOk: bool)
    ensures var (c, t) := (ChooseOrigin(Filtering(s)), ProcessNext(s, videoOk, audioOk));
            && t.origin == (if c.Chosen? then Some(c.origin) else s.origin)
            && t.late == (if c.Chosen? then c.late else s.late)
  {
    var c := ChooseOrigin(Filtering(s));
    if c.Chosen? {
      HandlingOrigin(Filtering(s).(origin := Some(c.origin), late := c.late), c.origin, videoOk, audioOk);
    }
  }

  lemma HandlingOrigin(s: State, origin: int, videoOk: bool, audioOk: bool)
    ensures var t := Handling(s, origin, videoOk, audioOk); t.origin == s.origin && t.late == s.late
  {
  }

  /** A packet counts as written only if its write succeeds; a failed one ends the loop. */
  lemma WrittenOnlyIfOk(s: State, videoOk: bool, audioOk: bool)
    requires s.pc == Holding
    ensures var t := ProcessNext(s, videoOk, audioOk);
            && (t.v.out != s.v.out ==> videoOk) && (t.a.out != s.a.out ==> audioOk)
            && (t.origin.Some? && HoldsMedia(s.a) && !audioOk ==> t.pc == Failed)
            && (t.origin.Some? && HoldsMedia(s.v) && s.previous.Some? && !videoOk ==> t.pc == Failed)
  {
    var c := ChooseOrigin(Filtering(s));
    if c.Chosen? {
      HandlingOk(Filtering(s).(origin := Some(c.origin), late := c.late), c.origin, videoOk, audioOk);
    }
  }

  lemma HandlingOk(s: State, origin: int, videoOk: bool, audioOk: bool)
    ensures var t := Handling(s, origin, videoOk, audioOk);
            && (t.v.out != s.v.out ==> videoOk) && (t.a.out != s.a.out ==> audioOk)
            && (s.a.held.Some? && !audioOk ==> t.pc == Failed)
            && (s.v.held.Some? && s.previous.Some? && !videoOk ==> t.pc == Failed)
  {
    VideoOk(s.v, s.previous, origin, videoOk);
    AudioOk(s.a, origin, audioOk);
    match VideoStep(s.v, s.previous, origin, videoOk) {
      case None =>
      case Some((v, previous)) =>
        match AudioStep(s.a, origin, audioOk) {
          case None =>
          case Some(a) => assert Handling(s, origin, videoOk, audioOk) == s.(v := v, previous := previous, a := a);
        }
    }
  }

  lemma VideoOk(v: Stream, previous: Option<Written>, origin: int, ok: bool)
    ensures var r := VideoStep(v, previous, origin, ok);
            && (r.Some? && r.value.0.out != v.out ==> ok)
            && (v.held.Some? && previous.Some? && !ok ==> r.None?)
  {
    Nothing(v.out);
  }

  lemma AudioOk(a: Stream, origin: int, ok: bool)
    ensures var r := AudioStep(a, origin, ok);
            && (r.Some? && r.value.out != a.out ==> ok)
            && (a.held.Some? && !ok ==> r.None?)
  {
  }

  /** The step that chooses the origin fails an assertion if and only if the stream starts so. */
  lemma AssertionsExact(video: bool, audio: bool, s: State, videoOk: bool, audioOk: bool)
    requires Reachable(video, audio, s) && s.pc == Holding && s.origin == None
    ensures ProcessNext(s, videoOk, audioOk).pc.AssertFailed? <==> BadStart(s)
  {
    ReachableInv(video, audio, s);
    HoldingFresh(s);
    ViolatedMeaning(s);
    ProcessViolates(s, videoOk, audioOk);
  }

  lemma HoldingFresh(s: State)
    requires Inv(s) && s.pc == Holding
    ensures Setup(s) && Fresh(s) && (s.v.held.Some? || s.a.held.Some?)
  {
  }

  lemma ProcessViolates(s: State, videoOk: bool, audioOk: bool)
    ensures ProcessNext(s, videoOk, audioOk).pc.AssertFailed? <==> ChooseOrigin(Filtering(s)).Violated?
  {
    var c := ChooseOrigin(Filtering(s));
    if c.Chosen? {
      HandlingAccepted(Filtering(s).(origin := Some(c.origin), late := c.late), c.origin, videoOk, audioOk);
    }
  }

  // ---- the drain terminates

  /** The packets left to handle, and whether the next ones are still to be taken. */
  function Remaining(s: State): nat
  {
    2 * (|s.v.queue| + |s.a.queue| + |InHand(s.v.held)| + |InHand(s.a.held)|) + if s.pc == Loop then 1 else 0
  }

  /** Once stopped, the loop never waits, and each of its steps leaves less to do. */
  lemma TakeProgress(s: State)
    requires Setup(s) && s.stopped && s.pc == Loop
    ensures TakeNext(s).Some?
    ensures TakeNext(s).value.pc == Last || Remaining(TakeNext(s).value) < Remaining(s)
  {
    TakePc(s);
  }

  lemma ProcessProgress(s: State, videoOk: bool, audioOk: bool)
    requires s.stopped && s.pc == Holding && (s.v.held.Some? || s.a.held.Some?)
    ensures var t := ProcessNext(s, videoOk, audioOk);
            t.pc == Loop ==> Remaining(t) < Remaining(s)
  {
    var t := Filtering(s);
    var c := ChooseOrigin(t);
    if c.Chosen? {
      HandlingReleases(t.(origin := Some(c.origin), late := c.late), c.origin, videoOk, audioOk);
    }
  }

  lemma HandlingAccepted(s: State, origin: int, videoOk: bool, audioOk: bool)
    requires s.pc == Loop
    ensures var t := Handling(s, origin, videoOk, audioOk);
            && t.v.accepted == s.v.accepted && t.a.accepted == s.a.accepted && t.stopped == s.stopped
            && t.hasVideo == s.hasVideo && t.hasAudio == s.hasAudio && (t.pc == Loop || t.pc == Failed)
  {
    VideoReleases(s.v, s.previous, origin, videoOk);
    AudioReleases(s.a, origin, audioOk);
  }

  lemma HandlingReleases(s: State, origin: int, videoOk: bool, audioOk: bool)
    requires s.pc == Loop
    ensures var t := Handling(s, origin, videoOk, audioOk);
            t.pc == Loop ==> Releases(s.v, t.v) && Releases(s.a, t.a)
  {
    VideoReleases(s.v, s.previous, origin, videoOk);
    AudioReleases(s.a, origin, audioOk);
  }

  lemma AudioReleases(a: Stream, origin: int, ok: bool)
    ensures var r := AudioStep(a, origin, ok); r.Some? ==> Releases(a, r.value)
  {
  }

  lemma VideoReleases(v: Stream, previous: Option<Written>, origin: int, ok: bool)
    ensures var r := VideoStep(v, previous, origin, ok); r.Some? ==> Releases(v, r.value.0)
  {
  }
}
