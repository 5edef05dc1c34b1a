/** Reception of device messages (receiver.c, device_msg.c): a byte stream received in arbitrary
    chunks is reassembled in a fixed buffer. */
module Receiver {
  import opened BigEndian

  const MAX_SIZE := 0x4_0000

  datatype DeviceMsg =
    | Clipboard(text: seq<Byte>)
    | AckClipboard(sequence: U64)
    | UhidOutput(id: U16, data: seq<Byte>)

  /** `Overrun`: a HID output message that counts more bytes than were received; it goes on with
      whatever follows them in the buffer. */
  datatype Parse = Incomplete | Invalid | Overrun(id: U16, received: seq<Byte>, missing: nat) | Parsed(msg: DeviceMsg, size: nat)

  /** sc_device_msg_deserialize on the received bytes `b`. */
  function Deserialize(b: seq<Byte>): (r: Parse)
    ensures r.Parsed? ==> 0 < r.size <= |b|
  {
    if b == [] then Incomplete else
      match b[0]
      case 0 =>
        if |b| < 5 || Read32(b, 1) > |b| - 5 then Incomplete
        else Parsed(Clipboard(b[5..5 + Read32(b, 1)]), 5 + Read32(b, 1))
      case 1 =>
        if |b| < 9 then Incomplete else Parsed(AckClipboard(Read64(b, 1)), 9)
      case 2 =>
        if |b| < 5 || Read16(b, 3) < |b| - 5 then Incomplete
        else if Read16(b, 3) > |b| - 5 then Overrun(Read16(b, 1), b[5..], Read16(b, 3) - (|b| - 5))
        else Parsed(UhidOutput(Read16(b, 1), b[5..]), 5 + Read16(b, 3))
      case _ => Invalid
  }

  /** How parsing ends: more bytes are needed; an unknown message stops the thread; or a message
      with bytes that were not received is delivered, and then process_msgs fails its assertion. */
  datatype End = Waiting | Unknown | Overread(id: U16, received: seq<Byte>, missing: nat)

  datatype Drained = Drained(messages: seq<DeviceMsg>, rest: seq<Byte>, end: End)

  /** Parsing as many messages as possible from the start of `b`. */
  function Drain(b: seq<Byte>): Drained
  {
    match Deserialize(b)
    case Incomplete => Drained([], b, Waiting)
    case Parsed(msg, size) => After([msg], Drain(b[size..]))
    case Invalid => Drained([], b, Unknown)
    case Overrun(id, received, missing) => Drained([], b, Overread(id, received, missing))
  }

  /** `d`, obtained after `messages` had been delivered. */
  function After(messages: seq<DeviceMsg>, d: Drained): Drained
  {
    Drained(messages + d.messages, d.rest, d.end)
  }

  lemma AfterAfter(first: seq<DeviceMsg>, second: seq<DeviceMsg>, d: Drained)
    ensures After(first, After(second, d)) == After(first + second, d)
    ensures After([], d) == d
  {
  }

  /** The first `consumed` bytes have been parsed into `messages`. */
  predicate ParsedUpTo(all: seq<Byte>, messages: seq<DeviceMsg>, consumed: nat)
  {
    consumed <= |all| && Drain(all) == After(messages, Drain(all[consumed..]))
  }

  lemma ParseStep(all: seq<Byte>, messages: seq<DeviceMsg>, consumed: nat, msg: DeviceMsg, size: nat)
    requires ParsedUpTo(all, messages, consumed) && Deserialize(all[consumed..]) == Parsed(msg, size)
    ensures 0 < size && ParsedUpTo(all, messages + [msg], consumed + size)
  {
    assert all[consumed..][size..] == all[consumed + size..];
    AfterAfter(messages, [msg], Drain(all[consumed + size..]));
  }

  lemma ParseEnd(all: seq<Byte>, messages: seq<DeviceMsg>, consumed: nat)
    requires ParsedUpTo(all, messages, consumed) && !Deserialize(all[consumed..]).Parsed?
    ensures Drain(all) == Drained(messages, all[consumed..],
                                  match Deserialize(all[consumed..])
                                  case Overrun(id, received, missing) => Overread(id, received, missing)
                                  case Invalid => Unknown
                                  case _ => Waiting)
  {
  }

  /** The receiver thread: its buffer and the number of bytes not parsed yet. */
  class ReceiverThread {
    const buf: array<Byte>
    var head: nat

    ghost predicate Valid()
      reads this
    {
      buf.Length == MAX_SIZE && head <= MAX_SIZE
    }

    /** The bytes received and not parsed. */
    ghost function Pending(): seq<Byte>
      requires Valid()
      reads this, buf
    {
      buf[..head]
    }

    constructor ()
      ensures Valid() && fresh(buf) && Pending() == []
    {
      buf := new Byte[MAX_SIZE];
      head := 0;
    }

    /** process_msgs: parses from the start of the buffer, without changing it. */
    method ProcessMsgs() returns (messages: seq<DeviceMsg>, consumed: nat, end: End)
      requires Valid()
      ensures consumed <= head
      ensures Drain(Pending()) == Drained(messages, Pending()[consumed..], end)
    {
      messages, consumed, end := [], 0, Waiting;
      var all := buf[..head];
      AfterAfter([], [], Drain(all));
      while true
        invariant end == Waiting && ParsedUpTo(all, messages, consumed)
        decreases |all| - consumed
      {
        match Deserialize(all[consumed..]) {
          case Parsed(msg, size) =>
            ParseStep(all, messages, consumed, msg, size);
            messages := messages + [msg];
            consumed := consumed + size;
            if consumed == |all| {
              ParseEnd(all, messages, consumed);
              return;
            }
          case Incomplete =>
            ParseEnd(all, messages, consumed);
            return;
          case Invalid =>
            ParseEnd(all, messages, consumed);
            end := Unknown;
            return;
          case Overrun(id, received, missing) =>
            ParseEnd(all, messages, consumed);
            end := Overread(id, received, missing);
            return;
        }
      }
    }

    /** One turn of run_receiver: `chunk` is what the socket returned. */
    method Receive(chunk: seq<Byte>) returns (messages: seq<DeviceMsg>, end: End)
      requires Valid() && head + |chunk| <= MAX_SIZE
      modifies this`head, buf
      ensures Valid()
      ensures var d := Drain(old(Pending()) + chunk);
              messages == d.messages && end == d.end && (end == Waiting ==> Pending() == d.rest)
    {
      PutBytes(buf, head, chunk);
      head := head + |chunk|;
      assert Pending() == old(Pending()) + chunk;
      var consumed;
      messages, consumed, end := ProcessMsgs();
      if end == Waiting && consumed > 0 {
        Shift(consumed);
      }
    }

    /** memmove of the bytes not parsed to the start of the buffer. */
    method Shift(consumed: nat)
      requires Valid() && consumed <= head
      modifies this`head, buf
      ensures Valid() && Pending() == old(Pending())[consumed..]
    {
      var left := head - consumed;
      for k := 0 to left
        invariant head == old(head)
        invariant forall i | 0 <= i < k :: buf[i] == old(buf[..])[consumed + i]
        invariant forall i | k <= i < buf.Length :: buf[i] == old(buf[..])[i]
      {
        buf[k] := buf[consumed + k];
      }
      head := left;
    }
  }

  // ---- the stream of the device

  const HID_HEADER_SIZE := 5

  /** A message that the device can send: it fits in the buffer. */
  predicate Encodable(m: DeviceMsg)
  {
    match m
    case Clipboard(text) => 5 + |text| <= MAX_SIZE
    case AckClipboard(_) => true
    case UhidOutput(_, data) => |data| < 0x1_0000
  }

  type Sendable = m: DeviceMsg | Encodable(m) witness AckClipboard(0)

  function Size(m: Sendable): (n: nat)
    ensures n >= HID_HEADER_SIZE
  {
    match m
    case Clipboard(text) => 5 + |text|
    case AckClipboard(_) => 9
    case UhidOutput(_, data) => HID_HEADER_SIZE + |data|
  }

  function Encode(m: Sendable): (b: seq<Byte>)
    ensures |b| == Size(m) <= MAX_SIZE
  {
    match m
    case Clipboard(text) => [0] + Be32(|text|) + text
    case AckClipboard(sequence) => [1] + Be64(sequence)
    case UhidOutput(id, data) => [2] + Be16(id) + Be16(|data|) + data
  }

  function EncodeAll(messages: seq<Sendable>): seq<Byte>
  {
    if messages == [] then [] else Encode(messages[0]) + EncodeAll(messages[1..])
  }

  /** What should come out of the received part of a stream: the messages it fully contains, and
      the start of the next one. */
  function Expected(messages: seq<Sendable>, b: seq<Byte>): Drained
  {
    if messages == [] || |b| < Size(messages[0]) then Drained([], b, Waiting)
    else After([messages[0]], Expected(messages[1..], b[Size(messages[0])..]))
  }

  // ---- one message

  /** A clipboard or an acknowledgement is parsed whatever follows it. */
  lemma ParseWhole(m: Sendable, rest: seq<Byte>)
    requires !m.UhidOutput?
    ensures Deserialize(Encode(m) + rest) == Parsed(m, Size(m))
  {
    var b := Encode(m) + rest;
    match m
    case Clipboard(text) =>
      assert b[1..5] == Be32(|text|);
      RoundTrip32(b, 1, |text|);
      assert b[5..5 + |text|] == text;
    case AckClipboard(sequence) =>
      assert b[1..9] == Be64(sequence);
      RoundTrip64(b, 1, sequence);
  }

  lemma ParsePart(m: Sendable, k: nat)
    requires !m.UhidOutput? && k < Size(m)
    ensures Deserialize(Encode(m)[..k]) == Incomplete
  {
    if m.Clipboard? && k >= 5 {
      assert Encode(m)[..k][1..5] == Be32(|m.text|);
      RoundTrip32(Encode(m)[..k], 1, |m.text|);
    }
  }

  lemma HidHeader(m: Sendable, b: seq<Byte>)
    requires m.UhidOutput? && |b| >= HID_HEADER_SIZE
    requires b[..HID_HEADER_SIZE] == Encode(m)[..HID_HEADER_SIZE]
    ensures b[0] == 2 && Read16(b, 1) == m.id && Read16(b, 3) == |m.data|
  {
    var h := b[..HID_HEADER_SIZE];
    assert b[0] == h[0] && b[1..3] == h[1..3] && b[3..5] == h[3..5];
    RoundTrip16(b, 1, m.id);
    RoundTrip16(b, 3, |m.data|);
  }

  /** A HID output message is parsed exactly when the buffer ends with it: with fewer bytes of its
      data it is over-read, and with more bytes behind it, it waits (device_msg.c:56). */
  lemma ParseHid(m: Sendable, k: nat, rest: seq<Byte>)
    requires m.UhidOutput? && k <= Size(m)
    ensures k < HID_HEADER_SIZE ==> Deserialize(Encode(m)[..k]) == Incomplete
    ensures HID_HEADER_SIZE <= k < Size(m) ==>
              Deserialize(Encode(m)[..k]) == Overrun(m.id, m.data[..k - HID_HEADER_SIZE], Size(m) - k)
    ensures Deserialize(Encode(m)) == Parsed(m, Size(m))
    ensures rest != [] ==> Deserialize(Encode(m) + rest) == Incomplete
  {
    var all := Encode(m);
    HidHeader(m, all);
    assert all[HID_HEADER_SIZE..] == m.data;
    if k >= HID_HEADER_SIZE {
      assert all[..k][..HID_HEADER_SIZE] == all[..HID_HEADER_SIZE];
      HidHeader(m, all[..k]);
      assert all[..k][HID_HEADER_SIZE..] == m.data[..k - HID_HEADER_SIZE];
    }
    assert (all + rest)[..HID_HEADER_SIZE] == all[..HID_HEADER_SIZE];
    HidHeader(m, all + rest);
  }

  // ---- one buffer

  /** Parsing up to `total` meets the end of each HID output message of which it has the header. */
  predicate Fits(messages: seq<Sendable>, start: nat, total: nat)
  {
    messages != [] ==>
      var end := start + Size(messages[0]);
      && (messages[0].UhidOutput? && start + HID_HEADER_SIZE <= total ==> end == total)
      && Fits(messages[1..], end, total)
  }

  /** A HID output message with more bytes behind it waits for ever. */
  predicate Stuck(rest: seq<Byte>)
  {
    |rest| > HID_HEADER_SIZE && rest[0] == 2 && Read16(rest, 3) < |rest| - HID_HEADER_SIZE
  }

  predicate Bad(d: Drained) { d.end != Waiting || Stuck(d.rest) }

  lemma SplitFirst(m: Sendable, tail: seq<Byte>, b: seq<Byte>)
    requires Size(m) <= |b| && b <= Encode(m) + tail
    ensures b == Encode(m) + b[Size(m)..] && b[Size(m)..] <= tail
  {
  }

  /** Nothing of a HID output message is due beyond the bytes received. */
  lemma {:induction false} FitsBeyond(messages: seq<Sendable>, start: nat, total: nat)
    requires start >= total
    ensures Fits(messages, start, total)
  {
    if messages != [] {
      FitsBeyond(messages[1..], start + Size(messages[0]), total);
    }
  }

  lemma DrainHid(messages: seq<Sendable>, start: nat, b: seq<Byte>)
    requires messages != [] && messages[0].UhidOutput? && b <= EncodeAll(messages)
    ensures Drains(messages, start, b, Drain(b))
  {
    var (m, size) := (messages[0], Size(messages[0]));
    if |b| < size {
      assert b == Encode(m)[..|b|];
      ParseHid(m, |b|, []);
      FitsBeyond(messages[1..], start + size, start + |b|);
    } else {
      SplitFirst(m, EncodeAll(messages[1..]), b);
      ParseHid(m, size, b[size..]);
      if |b| == size {
        assert b == Encode(m) && b[size..] == [];
        FitsBeyond(messages[1..], start + size, start + |b|);
      } else {
        assert b[..HID_HEADER_SIZE] == Encode(m)[..HID_HEADER_SIZE];
        HidHeader(m, b);
      }
    }
  }

  lemma DrainFirst(messages: seq<Sendable>, start: nat, b: seq<Byte>)
    requires messages != [] && !messages[0].UhidOutput?
    requires b <= EncodeAll(messages) && |b| < Size(messages[0])
    ensures Fits(messages, start, start + |b|) && Drain(b) == Expected(messages, b)
  {
    var m := messages[0];
    assert b == Encode(m)[..|b|];
    ParsePart(m, |b|);
    FitsBeyond(messages[1..], start + Size(m), start + |b|);
  }

  lemma DrainAfter(m: Sendable, b: seq<Byte>)
    requires !m.UhidOutput? && Size(m) <= |b| && b == Encode(m) + b[Size(m)..]
    ensures Drain(b) == After([m], Drain(b[Size(m)..]))
  {
    ParseWhole(m, b[Size(m)..]);
  }

  lemma {:induction false} DrainStream(messages: seq<Sendable>, start: nat, b: seq<Byte>)
    requires b <= EncodeAll(messages)
    ensures Drains(messages, start, b, Drain(b))
  {
    if messages == [] {
      DrainNothing(start, b);
    } else if messages[0].UhidOutput? {
      DrainHid(messages, start, b);
    } else if |b| < Size(messages[0]) {
      DrainFirst(messages, start, b);
    } else {
      var size := Size(messages[0]);
      SplitStream(messages, b);
      DrainStream(messages[1..], start + size, b[size..]);
      DrainBehind(messages, start, b);
    }
  }

  lemma DrainNothing(start: nat, b: seq<Byte>)
    requires b <= EncodeAll([])
    ensures Drains([], start, b, Drain(b))
  {
    assert b == [];
  }

  lemma SplitStream(messages: seq<Sendable>, b: seq<Byte>)
    requires messages != [] && Size(messages[0]) <= |b| && b <= EncodeAll(messages)
    ensures b == Encode(messages[0]) + b[Size(messages[0])..]
    ensures b[Size(messages[0])..] <= EncodeAll(messages[1..])
  {
    SplitFirst(messages[0], EncodeAll(messages[1..]), b);
  }

  /** `d` is what is expected if the bytes up to the end of `b` fit, and bad otherwise. */
  predicate Drains(messages: seq<Sendable>, start: nat, b: seq<Byte>, d: Drained)
  {
    if Fits(messages, start, start + |b|) then d == Expected(messages, b) else Bad(d)
  }

  /** What holds behind a message of another kind holds with it. */
  lemma DrainBehind(messages: seq<Sendable>, start: nat, b: seq<Byte>)
    requires messages != [] && !messages[0].UhidOutput? && Size(messages[0]) <= |b|
    requires b == Encode(messages[0]) + b[Size(messages[0])..]
    requires Drains(messages[1..], start + Size(messages[0]), b[Size(messages[0])..], Drain(b[Size(messages[0])..]))
    ensures Drains(messages, start, b, Drain(b))
  {
    DrainAfter(messages[0], b);
    BehindDrains(messages, start, b, Drain(b[Size(messages[0])..]));
  }

  lemma BehindDrains(messages: seq<Sendable>, start: nat, b: seq<Byte>, d: Drained)
    requires messages != [] && !messages[0].UhidOutput? && Size(messages[0]) <= |b|
    requires Drains(messages[1..], start + Size(messages[0]), b[Size(messages[0])..], d)
    ensures Drains(messages, start, b, After([messages[0]], d))
  {
  }

  // ---- any chunks

  function Concat(chunks: seq<seq<Byte>>): seq<Byte>
  {
    if chunks == [] then [] else Concat(chunks[..|chunks| - 1]) + chunks[|chunks| - 1]
  }

  /** What the thread delivered and kept after receiving the chunks one by one. */
  function Received(chunks: seq<seq<Byte>>): Drained
  {
    if chunks == [] then Drained([], [], Waiting) else
      var before := Received(chunks[..|chunks| - 1]);
      if before.end != Waiting then before else
        After(before.messages, Drain(before.rest + chunks[|chunks| - 1]))
  }

  /** A chunk ends (or the first one starts) at this position of the stream. */
  ghost predicate CutAt(chunks: seq<seq<Byte>>, position: nat)
  {
    exists i :: 0 <= i <= |chunks| && |Concat(chunks[..i])| == position
  }

  /** A chunk ends exactly at the end of a HID output message, and none inside its data. */
  ghost predicate CutsSuit(m: Sendable, start: nat, chunks: seq<seq<Byte>>)
  {
    m.UhidOutput? ==>
      && CutAt(chunks, start + Size(m))
      && forall b | start + HID_HEADER_SIZE <= b < start + Size(m) :: !CutAt(chunks, b)
  }

  /** The chunks suit every HID output message of the stream. */
  ghost predicate AllSuit(messages: seq<Sendable>, start: nat, chunks: seq<seq<Byte>>)
  {
    messages != [] ==>
      && CutsSuit(messages[0], start, chunks)
      && AllSuit(messages[1..], start + Size(messages[0]), chunks)
  }

  /** The same so far, for those of which the header comes before `total`. */
  ghost predicate Aligned(messages: seq<Sendable>, start: nat, chunks: seq<seq<Byte>>, total: nat)
  {
    messages != [] ==>
      && (start + HID_HEADER_SIZE <= total ==> CutsSuit(messages[0], start, chunks))
      && Aligned(messages[1..], start + Size(messages[0]), chunks, total)
  }

  // ---- where chunks end

  lemma ConcatMore(chunks: seq<seq<Byte>>, c: seq<Byte>)
    ensures Concat(chunks + [c]) == Concat(chunks) + c
  {
    assert (chunks + [c])[..|chunks|] == chunks;
  }

  lemma {:induction false} PrefixLength(chunks: seq<seq<Byte>>, i: nat)
    requires i <= |chunks|
    ensures |Concat(chunks[..i])| <= |Concat(chunks)|
    decreases |chunks|
  {
    if i < |chunks| {
      var before := chunks[..|chunks| - 1];
      assert before[..i] == chunks[..i];
      PrefixLength(before, i);
    } else {
      assert chunks[..i] == chunks;
    }
  }

  lemma CutBound(chunks: seq<seq<Byte>>, position: nat)
    requires CutAt(chunks, position)
    ensures position <= |Concat(chunks)|
  {
    var i :| 0 <= i <= |chunks| && |Concat(chunks[..i])| == position;
    PrefixLength(chunks, i);
  }

  lemma CutNow(chunks: seq<seq<Byte>>)
    ensures CutAt(chunks, |Concat(chunks)|)
  {
    assert chunks[..|chunks|] == chunks;
  }

  /** One more chunk adds one end, after all the others. */
  lemma CutMore(chunks: seq<seq<Byte>>, c: seq<Byte>, position: nat)
    ensures CutAt(chunks + [c], position) <==> CutAt(chunks, position) || position == |Concat(chunks)| + |c|
  {
    var more := chunks + [c];
    ConcatMore(chunks, c);
    if CutAt(more, position) {
      var i :| 0 <= i <= |more| && |Concat(more[..i])| == position;
      if i <= |chunks| {
        assert more[..i] == chunks[..i];
      } else {
        assert more[..i] == more;
      }
    }
    if CutAt(chunks, position) {
      var i :| 0 <= i <= |chunks| && |Concat(chunks[..i])| == position;
      assert more[..i] == chunks[..i];
    }
    CutNow(more);
  }

  /** A message that was received whole is not affected by one more chunk. */
  lemma SuitsBehind(m: Sendable, start: nat, chunks: seq<seq<Byte>>, c: seq<Byte>)
    requires start + Size(m) <= |Concat(chunks)| && CutsSuit(m, start, chunks)
    ensures CutsSuit(m, start, chunks + [c])
  {
    CutMore(chunks, c, start + Size(m));
    forall b | start + HID_HEADER_SIZE <= b < start + Size(m)
      ensures CutAt(chunks + [c], b) <==> CutAt(chunks, b)
    {
      CutMore(chunks, c, b);
    }
  }

  /** A HID output message whose header was not received yet is suited by the next chunk that
      completes the header exactly if it ends with the message. */
  lemma SuitsAhead(m: Sendable, start: nat, chunks: seq<seq<Byte>>, c: seq<Byte>)
    requires m.UhidOutput?
    requires |Concat(chunks)| < start + HID_HEADER_SIZE <= |Concat(chunks)| + |c|
    ensures CutsSuit(m, start, chunks + [c]) <==> start + Size(m) == |Concat(chunks)| + |c|
  {
    var (end, total) := (start + Size(m), |Concat(chunks)| + |c|);
    forall b | b >= start + HID_HEADER_SIZE
      ensures CutAt(chunks + [c], b) <==> b == total
    {
      CutMore(chunks, c, b);
      if CutAt(chunks, b) {
        CutBound(chunks, b);
      }
    }
    assert CutAt(chunks + [c], end) <==> end == total;
    assert CutAt(chunks + [c], total);
  }

  lemma {:induction false} AlignedAhead(messages: seq<Sendable>, start: nat, chunks: seq<seq<Byte>>, c: seq<Byte>)
    requires messages != [] && messages[0].UhidOutput? ==> |Concat(chunks)| < start + HID_HEADER_SIZE
    requires messages != [] ==> |Concat(chunks)| < start + Size(messages[0])
    ensures var total := |Concat(chunks)| + |c|;
            Aligned(messages, start, chunks + [c], total) <==> Fits(messages, start, total)
  {
    if messages != [] {
      var m := messages[0];
      if m.UhidOutput? && start + HID_HEADER_SIZE <= |Concat(chunks)| + |c| {
        SuitsAhead(m, start, chunks, c);
      }
      AlignedAhead(messages[1..], start + Size(m), chunks, c);
    }
  }

  /** What is aligned with one more chunk was aligned before it. */
  lemma {:induction false} AlignedBefore(messages: seq<Sendable>, start: nat, chunks: seq<seq<Byte>>, c: seq<Byte>)
    requires Aligned(messages, start, chunks + [c], |Concat(chunks)| + |c|)
    ensures Aligned(messages, start, chunks, |Concat(chunks)|)
  {
    if messages != [] {
      if messages[0].UhidOutput? && start + HID_HEADER_SIZE <= |Concat(chunks)| {
        SuitedBefore(messages[0], start, chunks, c);
      }
      AlignedBefore(messages[1..], start + Size(messages[0]), chunks, c);
    }
  }

  lemma SuitedBefore(m: Sendable, start: nat, chunks: seq<seq<Byte>>, c: seq<Byte>)
    requires m.UhidOutput? && start + HID_HEADER_SIZE <= |Concat(chunks)|
    requires CutsSuit(m, start, chunks + [c])
    ensures CutsSuit(m, start, chunks)
  {
    var end := start + Size(m);
    CutNow(chunks);
    CutMore(chunks, c, |Concat(chunks)|);
    CutMore(chunks, c, end);
    forall b | start + HID_HEADER_SIZE <= b < end
      ensures !CutAt(chunks, b)
    {
      CutMore(chunks, c, b);
    }
  }

  // ---- what is expected, chunk by chunk

  /** The expected messages are the first ones, and what is left starts the next one. */
  lemma {:induction false} ExpectedSplit(messages: seq<Sendable>, b: seq<Byte>)
    requires b <= EncodeAll(messages)
    ensures var d := Expected(messages, b);
            && d.end == Waiting && d.messages <= messages
            && b == EncodeAll(d.messages) + d.rest && |d.rest| < MAX_SIZE
  {
    if messages == [] || |b| < Size(messages[0]) {
      assert EncodeAll([]) + b == b;
    } else {
      var (m, tail) := (messages[0], messages[1..]);
      var rest := b[Size(m)..];
      SplitFirst(m, EncodeAll(tail), b);
      ExpectedSplit(tail, rest);
      var d := Expected(tail, rest);
      EncodeFirst(m, d.messages, d.rest);
      PrefixFirst(m, tail, d.messages);
      assert messages == [m] + tail;
    }
  }

  lemma EncodeFirst(m: Sendable, messages: seq<Sendable>, rest: seq<Byte>)
    ensures Encode(m) + (EncodeAll(messages) + rest) == EncodeAll([m] + messages) + rest
  {
    assert ([m] + messages)[1..] == messages;
    assert Encode(m) + (EncodeAll(messages) + rest) == (Encode(m) + EncodeAll(messages)) + rest;
  }

  lemma PrefixFirst(m: Sendable, tail: seq<Sendable>, messages: seq<Sendable>)
    requires messages <= tail
    ensures [m] + messages <= [m] + tail
  {
  }

  /** `e`, parsed after `d`, gives what is expected, or goes wrong if it is not aligned. */
  predicate Yields(aligned: bool, d: Drained, e: Drained, expected: Drained)
  {
    if aligned then After(d.messages, e) == expected else Bad(e)
  }

  lemma YieldsAfter(aligned: bool, m: Sendable, d: Drained, e: Drained, expected: Drained)
    requires Yields(aligned, d, e, expected)
    ensures Yields(aligned, After([m], d), e, After([m], expected))
  {
    AfterAfter([m], d.messages, e);
  }

  /** Parsing what is left with one more chunk gives what is expected, exactly if it is aligned. */
  ghost predicate NextChunk(messages: seq<Sendable>, start: nat, b: seq<Byte>, chunks: seq<seq<Byte>>, c: seq<Byte>)
  {
    var d := Expected(messages, b);
    Yields(Aligned(messages, start, chunks + [c], |Concat(chunks)| + |c|), d, Drain(d.rest + c), Expected(messages, b + c))
  }

  lemma PartialAligned(messages: seq<Sendable>, start: nat, size: nat, chunks: seq<seq<Byte>>, c: seq<Byte>)
    requires |Concat(chunks)| == start + size
    requires Aligned(messages, start, chunks, |Concat(chunks)|)
    requires messages == [] || size < Size(messages[0])
    ensures Aligned(messages, start, chunks + [c], |Concat(chunks)| + |c|)
            <==> Fits(messages, start, |Concat(chunks)| + |c|)
  {
    if messages != [] && messages[0].UhidOutput? && HID_HEADER_SIZE <= size {
      CutBound(chunks, start + Size(messages[0]));
    }
    AlignedAhead(messages, start, chunks, c);
  }

  lemma PartialYields(messages: seq<Sendable>, start: nat, b: seq<Byte>, all: seq<Byte>)
    requires b <= all <= EncodeAll(messages)
    requires messages == [] || |b| < Size(messages[0])
    ensures Yields(Fits(messages, start, start + |all|), Expected(messages, b), Drain(all), Expected(messages, all))
  {
    DrainStream(messages, start, all);
    AfterAfter([], [], Drain(all));
    assert Expected(messages, b) == Drained([], b, Waiting);
  }

  lemma NextPartial(messages: seq<Sendable>, start: nat, b: seq<Byte>, chunks: seq<seq<Byte>>, c: seq<Byte>)
    requires b + c <= EncodeAll(messages)
    requires |Concat(chunks)| == start + |b| && Aligned(messages, start, chunks, |Concat(chunks)|)
    requires messages == [] || |b| < Size(messages[0])
    ensures NextChunk(messages, start, b, chunks, c)
  {
    PartialAligned(messages, start, |b|, chunks, c);
    PartialYields(messages, start, b, b + c);
    assert Expected(messages, b).rest == b;
  }

  lemma NextWhole(messages: seq<Sendable>, start: nat, b: seq<Byte>, chunks: seq<seq<Byte>>, c: seq<Byte>)
    requires messages != [] && Size(messages[0]) <= |b|
    requires |Concat(chunks)| == start + |b| && Aligned(messages, start, chunks, |Concat(chunks)|)
    requires NextChunk(messages[1..], start + Size(messages[0]), b[Size(messages[0])..], chunks, c)
    ensures NextChunk(messages, start, b, chunks, c)
  {
    var (m, size, tail) := (messages[0], Size(messages[0]), messages[1..]);
    var d := Expected(tail, b[size..]);
    AlignedBehind(messages, start, chunks, c);
    assert (b + c)[size..] == b[size..] + c;
    ExpectedFirst(messages, b);
    ExpectedFirst(messages, b + c);
    YieldsAfter(Aligned(messages, start, chunks + [c], |Concat(chunks)| + |c|), m, d, Drain(d.rest + c),
                Expected(tail, b[size..] + c));
  }

  lemma ExpectedFirst(messages: seq<Sendable>, b: seq<Byte>)
    requires messages != [] && Size(messages[0]) <= |b|
    ensures Expected(messages, b) == After([messages[0]], Expected(messages[1..], b[Size(messages[0])..]))
  {
  }

  lemma AlignedBehind(messages: seq<Sendable>, start: nat, chunks: seq<seq<Byte>>, c: seq<Byte>)
    requires messages != []
    requires start + Size(messages[0]) <= |Concat(chunks)| && Aligned(messages, start, chunks, |Concat(chunks)|)
    ensures Aligned(messages[1..], start + Size(messages[0]), chunks, |Concat(chunks)|)
    ensures var total := |Concat(chunks)| + |c|;
            Aligned(messages, start, chunks + [c], total)
            <==> Aligned(messages[1..], start + Size(messages[0]), chunks + [c], total)
  {
    if messages[0].UhidOutput? {
      SuitsBehind(messages[0], start, chunks, c);
    }
  }

  lemma SplitMore(m: Sendable, tail: seq<Byte>, b: seq<Byte>, c: seq<Byte>)
    requires Size(m) <= |b| && b + c <= Encode(m) + tail
    ensures (b + c)[Size(m)..] == b[Size(m)..] + c <= tail
  {
  }

  lemma {:induction false} Next(messages: seq<Sendable>, start: nat, b: seq<Byte>, chunks: seq<seq<Byte>>, c: seq<Byte>)
    requires b + c <= EncodeAll(messages)
    requires |Concat(chunks)| == start + |b| && Aligned(messages, start, chunks, |Concat(chunks)|)
    ensures NextChunk(messages, start, b, chunks, c)
  {
    if messages == [] || |b| < Size(messages[0]) {
      NextPartial(messages, start, b, chunks, c);
    } else {
      var (m, size) := (messages[0], Size(messages[0]));
      SplitMore(m, EncodeAll(messages[1..]), b, c);
      AlignedBehind(messages, start, chunks, c);
      Next(messages[1..], start + size, b[size..], chunks, c);
      NextWhole(messages, start, b, chunks, c);
    }
  }

  lemma BadPersists(d: Drained, c: seq<Byte>)
    requires Bad(d) && d.end == Waiting
    ensures Bad(After(d.messages, Drain(d.rest + c)))
  {
    var b := d.rest + c;
    assert Read16(b, 3) == Read16(d.rest, 3);
    assert Deserialize(b) == Incomplete;
  }

  // ---- the main results, for any chunks

  /** As long as the chunks suit the HID output messages, what is delivered and kept is what is
      expected; otherwise a message is over-read, or waits for ever. */
  lemma {:induction false} ReceivedStream(messages: seq<Sendable>, chunks: seq<seq<Byte>>)
    requires Concat(chunks) <= EncodeAll(messages)
    ensures if Aligned(messages, 0, chunks, |Concat(chunks)|) then Received(chunks) == Expected(messages, Concat(chunks))
            else Bad(Received(chunks))
  {
    if chunks == [] {
      NothingDue(messages, 0, chunks);
    } else {
      var (before, c) := (chunks[..|chunks| - 1], chunks[|chunks| - 1]);
      assert chunks == before + [c];
      ConcatMore(before, c);
      PrefixOf(Concat(before), c, EncodeAll(messages));
      ReceivedStream(messages, before);
      if Aligned(messages, 0, before, |Concat(before)|) {
        ReceivedNext(messages, before, c);
      } else {
        StaysMisaligned(messages, before, c);
        StaysBad(before, c);
      }
    }
  }

  lemma {:induction false} NothingDue(messages: seq<Sendable>, start: nat, chunks: seq<seq<Byte>>)
    ensures Aligned(messages, start, chunks, 0)
    ensures Expected(messages, []) == Drained([], [], Waiting)
  {
    if messages != [] {
      NothingDue(messages[1..], start + Size(messages[0]), chunks);
    }
  }

  lemma ReceivedNext(messages: seq<Sendable>, before: seq<seq<Byte>>, c: seq<Byte>)
    requires Concat(before) + c <= EncodeAll(messages)
    requires Aligned(messages, 0, before, |Concat(before)|)
    requires Received(before) == Expected(messages, Concat(before))
    ensures if Aligned(messages, 0, before + [c], |Concat(before)| + |c|)
            then Received(before + [c]) == Expected(messages, Concat(before) + c)
            else Bad(Received(before + [c]))
  {
    ExpectedWaits(messages, Concat(before));
    Next(messages, 0, Concat(before), before, c);
    ReceivedMore(before, c);
  }

  lemma StaysBad(before: seq<seq<Byte>>, c: seq<Byte>)
    requires Bad(Received(before))
    ensures Bad(Received(before + [c]))
  {
    assert (before + [c])[..|before|] == before;
    var d := Received(before);
    if d.end == Waiting {
      BadPersists(d, c);
    }
  }

  lemma StaysMisaligned(messages: seq<Sendable>, before: seq<seq<Byte>>, c: seq<Byte>)
    requires !Aligned(messages, 0, before, |Concat(before)|)
    ensures !Aligned(messages, 0, before + [c], |Concat(before)| + |c|)
  {
    if Aligned(messages, 0, before + [c], |Concat(before)| + |c|) {
      AlignedBefore(messages, 0, before, c);
    }
  }

  lemma {:induction false} ExpectedWaits(messages: seq<Sendable>, b: seq<Byte>)
    ensures Expected(messages, b).end == Waiting
  {
    if messages != [] && |b| >= Size(messages[0]) {
      ExpectedWaits(messages[1..], b[Size(messages[0])..]);
    }
  }

  lemma PrefixOf(b: seq<Byte>, c: seq<Byte>, all: seq<Byte>)
    requires b + c <= all
    ensures b <= all
  {
    assert all[..|b|] == (b + c)[..|b|] == b;
  }

  lemma ReceivedMore(before: seq<seq<Byte>>, c: seq<Byte>)
    requires Received(before).end == Waiting
    ensures var d := Received(before);
            Received(before + [c]) == After(d.messages, Drain(d.rest + c))
    ensures Bad(Received(before + [c])) == Bad(Drain(Received(before).rest + c))
  {
    assert (before + [c])[..|before|] == before;
  }

  lemma {:induction false} ExpectedWhole(messages: seq<Sendable>)
    ensures Expected(messages, EncodeAll(messages)) == Drained(messages, [], Waiting)
  {
    if messages != [] {
      ExpectedWhole(messages[1..]);
      assert EncodeAll(messages)[Size(messages[0])..] == EncodeAll(messages[1..]);
      assert messages == [messages[0]] + messages[1..];
    }
  }

  lemma {:induction false} AlignedAll(messages: seq<Sendable>, start: nat, chunks: seq<seq<Byte>>, total: nat)
    requires total == start + |EncodeAll(messages)|
    ensures Aligned(messages, start, chunks, total) <==> AllSuit(messages, start, chunks)
  {
    if messages != [] {
      AlignedAll(messages[1..], start + Size(messages[0]), chunks, total);
    }
  }

  /** A whole stream with HID output messages is delivered if and only if, for each of them, a
      chunk ends exactly at its end and none ends inside its data. */
  lemma HidChunking(messages: seq<Sendable>, chunks: seq<seq<Byte>>)
    requires Concat(chunks) == EncodeAll(messages)
    ensures Received(chunks) == Drained(messages, [], Waiting) <==> AllSuit(messages, 0, chunks)
    ensures AllSuit(messages, 0, chunks) || Bad(Received(chunks))
  {
    ReceivedStream(messages, chunks);
    ExpectedWhole(messages);
    AlignedAll(messages, 0, chunks, |Concat(chunks)|);
  }

  /** A message whose framing does not depend on what follows. */
  predicate Supported(m: Sendable) { !m.UhidOutput? }

  predicate AllSupported(messages: seq<Sendable>)
  {
    messages != [] ==> Supported(messages[0]) && AllSupported(messages[1..])
  }

  lemma {:induction false} NoHid(messages: seq<Sendable>, start: nat, chunks: seq<seq<Byte>>, total: nat)
    requires AllSupported(messages)
    ensures Aligned(messages, start, chunks, total) && Fits(messages, start, total)
  {
    if messages != [] {
      NoHid(messages[1..], start + Size(messages[0]), chunks, total);
    }
  }

  /** Without HID output messages, reassembly does not depend on the chunks: however the received
      part of a stream is split, the delivered messages are those it fully contains, as parsing it
      at once yields; the buffer holds exactly the rest, and has room for more (the assertion
      before recv). */
  lemma ChunkIndependent(messages: seq<Sendable>, chunks: seq<seq<Byte>>)
    requires AllSupported(messages) && Concat(chunks) <= EncodeAll(messages)
    ensures var r := Received(chunks);
            && r == Drain(Concat(chunks)) && r.end == Waiting && |r.rest| < MAX_SIZE
            && r.messages <= messages
            && AllSupported(r.messages) && Concat(chunks) == EncodeAll(r.messages) + r.rest
            && (Concat(chunks) == EncodeAll(messages) ==> r == Drained(messages, [], Waiting))
  {
    SupportedReceived(messages, chunks);
    ExpectedMeaning(messages, Concat(chunks));
  }

  lemma SupportedReceived(messages: seq<Sendable>, chunks: seq<seq<Byte>>)
    requires AllSupported(messages) && Concat(chunks) <= EncodeAll(messages)
    ensures Received(chunks) == Expected(messages, Concat(chunks)) == Drain(Concat(chunks))
  {
    NoHid(messages, 0, chunks, |Concat(chunks)|);
    ReceivedStream(messages, chunks);
    SupportedDrained(messages, Concat(chunks));
  }

  lemma SupportedDrained(messages: seq<Sendable>, b: seq<Byte>)
    requires AllSupported(messages) && b <= EncodeAll(messages)
    ensures Drain(b) == Expected(messages, b)
  {
    NoHid(messages, 0, [], |b|);
    DrainStream(messages, 0, b);
    assert Fits(messages, 0, 0 + |b|);
  }

  lemma ExpectedMeaning(messages: seq<Sendable>, b: seq<Byte>)
    requires AllSupported(messages) && b <= EncodeAll(messages)
    ensures var d := Expected(messages, b);
            && d.end == Waiting && |d.rest| < MAX_SIZE && d.messages <= messages
            && AllSupported(d.messages) && b == EncodeAll(d.messages) + d.rest
            && (b == EncodeAll(messages) ==> d == Drained(messages, [], Waiting))
  {
    ExpectedSplit(messages, b);
    SupportedPrefix(messages, Expected(messages, b).messages);
    ExpectedWhole(messages);
  }

  lemma {:induction false} SupportedPrefix(messages: seq<Sendable>, prefix: seq<Sendable>)
    requires AllSupported(messages) && prefix <= messages
    ensures AllSupported(prefix)
  {
    if prefix != [] {
      assert prefix[0] == messages[0] && prefix[1..] <= messages[1..];
      SupportedPrefix(messages[1..], prefix[1..]);
    }
  }

  lemma OneChunk(c: seq<Byte>)
    ensures Received([c]) == Drain(c)
  {
    ReceivedMore([], c);
    assert [] + [c] == [c] && [] + c == c;
    AfterAfter([], [], Drain(c));
  }

  lemma TwoChunks(first: seq<Byte>, second: seq<Byte>)
    ensures var d := Drain(first);
            Received([first, second])
            == if d.end == Waiting then After(d.messages, Drain(d.rest + second)) else d
  {
    OneChunk(first);
    assert [first, second][..1] == [first];
  }

  lemma DrainHidWhole(m: Sendable)
    requires m.UhidOutput?
    ensures Drain(Encode(m)) == Drained([m], [], Waiting)
  {
    ParseHid(m, 0, []);
    assert Encode(m)[Size(m)..] == [];
    assert Drain([]) == Drained([], [], Waiting);
  }

  /** A HID output message cut in two is delivered if and only if the cut is inside its header;
      otherwise it is over-read: its missing bytes are whatever the buffer holds. */
  lemma HidCutInTwo(m: Sendable, k: nat)
    requires m.UhidOutput? && 0 < k < Size(m)
    ensures Received([Encode(m)[..k], Encode(m)[k..]])
            == if k < HID_HEADER_SIZE then Drained([m], [], Waiting)
               else Drained([], Encode(m)[..k], Overread(m.id, m.data[..k - HID_HEADER_SIZE], Size(m) - k))
  {
    var (first, second) := (Encode(m)[..k], Encode(m)[k..]);
    TwoChunks(first, second);
    ParseHid(m, k, []);
    if k < HID_HEADER_SIZE {
      assert first + second == Encode(m);
      DrainHidWhole(m);
      AfterAfter([], [], Drain(Encode(m)));
    }
  }

  /** On any received bytes, not only those of a stream: a HID output message is parsed if and only
      if the buffer ends with it. */
  lemma UhidOutputGuard(b: seq<Byte>)
    requires |b| >= HID_HEADER_SIZE && b[0] == 2
    ensures Deserialize(b).Parsed? <==> |b| == HID_HEADER_SIZE + Read16(b, 3)
    ensures Deserialize(b).Overrun? <==> |b| < HID_HEADER_SIZE + Read16(b, 3)
    ensures Deserialize(b).Incomplete? <==> |b| > HID_HEADER_SIZE + Read16(b, 3)
  {
  }

  /** So any HID output message is delivered when it is received alone, and never when any other
      bytes come in the same chunk. */
  lemma UhidOutputDependsOnChunks(m: Sendable, more: seq<Byte>)
    requires m.UhidOutput? && more != []
    ensures Received([Encode(m), more]).messages == [m] + Drain(more).messages
    ensures Received([Encode(m) + more]) == Drained([], Encode(m) + more, Waiting)
  {
    DrainHidWhole(m);
    TwoChunks(Encode(m), more);
    assert [] + more == more;
    OneChunk(Encode(m) + more);
    ParseHid(m, 0, more);
  }
}
