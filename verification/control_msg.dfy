/** The messages sent to the device over the control socket (control_msg.c). */
module ControlMessages {
  import opened BigEndian
  import opened Optional
  import opened Utf8

  const MAX_SIZE := 0x4_0000
  const INJECT_TEXT_MAX_LENGTH := 300
  const CLIPBOARD_TEXT_MAX_LENGTH := MAX_SIZE - 14
  const UHID_NAME_MAX_LENGTH := 127
  const APP_NAME_MAX_LENGTH := 255
  const HID_MAX_SIZE := 15

  /** A string; the truncation only needs that it does not start inside a character. */
  type Text = t: seq<Byte> | t == [] || !IsContinuation(t[0])
  type Descriptor = d: seq<Byte> | |d| < 0x1_0000
  type Report = r: seq<Byte> | |r| <= HID_MAX_SIZE

  datatype Position = Position(x: U32, y: U32, width: U16, height: U16)

  /** Floating-point values are given as the 16 bits they are converted to. */
  datatype Message =
    | InjectKeycode(action: Byte, keycode: U32, repeat: U32, metastate: U32)
    | InjectText(text: Text)
    | InjectTouch(action: Byte, pointerId: U64, position: Position, pressure: U16, actionButton: U32, buttons: U32)
    | InjectScroll(position: Position, hscroll: U16, vscroll: U16, buttons: U32)
    | BackOrScreenOn(action: Byte)
    | ExpandNotificationPanel
    | ExpandSettingsPanel
    | CollapsePanels
    | GetClipboard(copyKey: Byte)
    | SetClipboard(sequence: U64, paste: bool, text: Text)
    | SetDisplayPower(on: bool)
    | RotateDevice
    | UhidCreate(id: U16, vendorId: U16, productId: U16, deviceName: Option<Text>, reportDesc: Descriptor)
    | UhidInput(id: U16, data: Report)
    | UhidDestroy(id: U16)
    | OpenHardKeyboardSettings
    | StartApp(name: Text)
    | ResetVideo

  predicate IsDroppable(m: Message) { !m.UhidCreate? && !m.UhidDestroy? }

  // ---- serialization

  function Flag(b: bool): Byte { if b then 1 else 0 }

  function Truncate(text: Text, maxLen: nat): Text
  {
    text[..TruncationIndex(text, maxLen)]
  }

  function NameOf(name: Option<Text>): Text
  {
    match name case None => [] case Some(text) => text
  }

  function PositionBytes(p: Position): (b: seq<Byte>)
    ensures |b| == 12
  {
    Be32(p.x) + Be32(p.y) + Be16(p.width) + Be16(p.height)
  }

  function StringBytes(text: Text, maxLen: nat): seq<Byte>
    requires maxLen < 0x1_0000_0000
  {
    Be32(TruncationIndex(text, maxLen)) + Truncate(text, maxLen)
  }

  function TinyStringBytes(text: Text, maxLen: nat): seq<Byte>
    requires maxLen <= 0xFF
  {
    [TruncationIndex(text, maxLen)] + Truncate(text, maxLen)
  }

  function Serialize(m: Message): seq<Byte>
  {
    match m
    case InjectKeycode(action, keycode, repeat, metastate) =>
      [0] + [action] + Be32(keycode) + Be32(repeat) + Be32(metastate)
    case InjectText(text) => [1] + StringBytes(text, INJECT_TEXT_MAX_LENGTH)
    case InjectTouch(action, pointerId, position, pressure, actionButton, buttons) =>
      [2] + [action] + Be64(pointerId) + PositionBytes(position) + Be16(pressure) + Be32(actionButton) + Be32(buttons)
    case InjectScroll(position, hscroll, vscroll, buttons) =>
      [3] + PositionBytes(position) + Be16(hscroll) + Be16(vscroll) + Be32(buttons)
    case BackOrScreenOn(action) => [4] + [action]
    case ExpandNotificationPanel => [5]
    case ExpandSettingsPanel => [6]
    case CollapsePanels => [7]
    case GetClipboard(copyKey) => [8] + [copyKey]
    case SetClipboard(sequence, paste, text) =>
      [9] + Be64(sequence) + [Flag(paste)] + StringBytes(text, CLIPBOARD_TEXT_MAX_LENGTH)
    case SetDisplayPower(on) => [10] + [Flag(on)]
    case RotateDevice => [11]
    case UhidCreate(id, vendorId, productId, name, reportDesc) =>
      [12] + Be16(id) + Be16(vendorId) + Be16(productId)
      + TinyStringBytes(NameOf(name), UHID_NAME_MAX_LENGTH) + Be16(|reportDesc|) + reportDesc
    case UhidInput(id, data) => [13] + Be16(id) + Be16(|data|) + data
    case UhidDestroy(id) => [14] + Be16(id)
    case OpenHardKeyboardSettings => [15]
    case StartApp(name) => [16] + TinyStringBytes(name, APP_NAME_MAX_LENGTH)
    case ResetVideo => [17]
  }

  // ---- the same in place: sc_control_msg_serialize

  method PutPosition(buf: array<Byte>, at: nat, p: Position)
    requires at + 12 <= buf.Length
    modifies buf
    ensures buf[..at + 12] == old(buf[..at]) + PositionBytes(p)
  {
    Put32(buf, at, p.x);
    Put32(buf, at + 4, p.y);
    Put16(buf, at + 8, p.width);
    Put16(buf, at + 10, p.height);
  }

  method PutString(buf: array<Byte>, at: nat, text: Text, maxLen: nat) returns (size: nat)
    requires at + 4 + maxLen <= buf.Length && maxLen < 0x1_0000_0000
    modifies buf
    ensures size == |StringBytes(text, maxLen)| && at + size <= buf.Length
    ensures buf[..at + size] == old(buf[..at]) + StringBytes(text, maxLen)
  {
    var len := ComputeTruncationIndex(text, maxLen);
    PutBytes(buf, at + 4, text[..len]);
    ghost var payload := buf[..];
    Written(payload, at, at + 4, old(buf[..at + 4]), text[..len]);
    Put32(buf, at, len);
    size := 4 + len;
    SameEnd(buf[..], payload, at + 4, at + size);
  }

  /** What a buffer holds between and behind the parts written. */
  lemma Written(b: seq<Byte>, at: nat, i: nat, before: seq<Byte>, data: seq<Byte>)
    requires at <= i && |before| == i && i + |data| <= |b| && b[..i + |data|] == before + data
    ensures b[i..i + |data|] == data && b[..at] == before[..at]
  {
    var w := b[..i + |data|];
    assert b[i..i + |data|] == w[i..] && b[..at] == w[..at];
  }

  lemma SameEnd(b: seq<Byte>, c: seq<Byte>, i: nat, j: nat)
    requires |b| == |c| && i <= j <= |b| && b[i..] == c[i..]
    ensures b[..j] == b[..i] + c[i..j]
  {
    assert b[i..j] == b[i..][..j - i] && c[i..j] == c[i..][..j - i];
  }

  method PutTinyString(buf: array<Byte>, at: nat, text: Text, maxLen: nat) returns (size: nat)
    requires at + 1 + maxLen <= buf.Length && maxLen <= 0xFF
    modifies buf
    ensures size == |TinyStringBytes(text, maxLen)| && at + size <= buf.Length
    ensures buf[..at + size] == old(buf[..at]) + TinyStringBytes(text, maxLen)
  {
    var len := ComputeTruncationIndex(text, maxLen);
    PutBytes(buf, at + 1, text[..len]);
    ghost var payload := buf[..];
    Written(payload, at, at + 1, old(buf[..at + 1]), text[..len]);
    PutByte(buf, at, len);
    size := 1 + len;
    SameEnd(buf[..], payload, at + 1, at + size);
  }

  // ---- one method per branch with several fields

  method SerializeKeycode(m: Message, buf: array<Byte>) returns (size: nat)
    requires m.InjectKeycode? && buf.Length >= MAX_SIZE
    modifies buf
    ensures size <= MAX_SIZE && buf[..size] == Serialize(m)
  {
    PutByte(buf, 0, 0);
    PutByte(buf, 1, m.action);
    Put32(buf, 2, m.keycode);
    Put32(buf, 6, m.repeat);
    Put32(buf, 10, m.metastate);
    size := 14;
  }

  method SerializeTouch(m: Message, buf: array<Byte>) returns (size: nat)
    requires m.InjectTouch? && buf.Length >= MAX_SIZE
    modifies buf
    ensures size <= MAX_SIZE && buf[..size] == Serialize(m)
  {
    PutByte(buf, 0, 2);
    PutByte(buf, 1, m.action);
    Put64(buf, 2, m.pointerId);
    PutPosition(buf, 10, m.position);
    Put16(buf, 22, m.pressure);
    Put32(buf, 24, m.actionButton);
    Put32(buf, 28, m.buttons);
    size := 32;
  }

  method SerializeScroll(m: Message, buf: array<Byte>) returns (size: nat)
    requires m.InjectScroll? && buf.Length >= MAX_SIZE
    modifies buf
    ensures size <= MAX_SIZE && buf[..size] == Serialize(m)
  {
    PutByte(buf, 0, 3);
    PutPosition(buf, 1, m.position);
    Put16(buf, 13, m.hscroll);
    Put16(buf, 15, m.vscroll);
    Put32(buf, 17, m.buttons);
    size := 21;
  }

  method SerializeSetClipboard(m: Message, buf: array<Byte>) returns (size: nat)
    requires m.SetClipboard? && buf.Length >= MAX_SIZE
    modifies buf
    ensures size <= MAX_SIZE && buf[..size] == Serialize(m)
  {
    PutByte(buf, 0, 9);
    Put64(buf, 1, m.sequence);
    PutByte(buf, 9, Flag(m.paste));
    assert buf[..10] == [9] + Be64(m.sequence) + [Flag(m.paste)];
    var len := PutString(buf, 10, m.text, CLIPBOARD_TEXT_MAX_LENGTH);
    size := 10 + len;
  }

  method PutUhidHeader(m: Message, buf: array<Byte>)
    requires m.UhidCreate? && buf.Length >= MAX_SIZE
    modifies buf
    ensures buf[..7] == [12] + Be16(m.id) + Be16(m.vendorId) + Be16(m.productId)
  {
    PutByte(buf, 0, 12);
    Put16(buf, 1, m.id);
    Put16(buf, 3, m.vendorId);
    Put16(buf, 5, m.productId);
  }

  method SerializeUhidCreate(m: Message, buf: array<Byte>) returns (index: nat)
    requires m.UhidCreate? && buf.Length >= MAX_SIZE
    modifies buf
    ensures index <= MAX_SIZE && buf[..index] == Serialize(m)
  {
    PutUhidHeader(m, buf);
    index := 7;
    var len := PutTinyString(buf, index, NameOf(m.deviceName), UHID_NAME_MAX_LENGTH);
    index := index + len;
    ghost var named := buf[..index];
    Put16(buf, index, |m.reportDesc|);
    index := index + 2;
    assert buf[..index] == named + Be16(|m.reportDesc|);
    PutBytes(buf, index, m.reportDesc);
    index := index + |m.reportDesc|;
  }

  method SerializeUhidInput(m: Message, buf: array<Byte>) returns (size: nat)
    requires m.UhidInput? && buf.Length >= MAX_SIZE
    modifies buf
    ensures size <= MAX_SIZE && buf[..size] == Serialize(m)
  {
    PutByte(buf, 0, 13);
    Put16(buf, 1, m.id);
    Put16(buf, 3, |m.data|);
    PutBytes(buf, 5, m.data);
    size := 5 + |m.data|;
  }

  method SerializeInjectText(m: Message, buf: array<Byte>) returns (size: nat)
    requires m.InjectText? && buf.Length >= MAX_SIZE
    modifies buf
    ensures size <= MAX_SIZE && buf[..size] == Serialize(m)
  {
    PutByte(buf, 0, 1);
    var len := PutString(buf, 1, m.text, INJECT_TEXT_MAX_LENGTH);
    size := 1 + len;
  }

  method SerializeUhidDestroy(m: Message, buf: array<Byte>) returns (size: nat)
    requires m.UhidDestroy? && buf.Length >= MAX_SIZE
    modifies buf
    ensures size <= MAX_SIZE && buf[..size] == Serialize(m)
  {
    PutByte(buf, 0, 14);
    Put16(buf, 1, m.id);
    size := 3;
  }

  method SerializeStartApp(m: Message, buf: array<Byte>) returns (size: nat)
    requires m.StartApp? && buf.Length >= MAX_SIZE
    modifies buf
    ensures size <= MAX_SIZE && buf[..size] == Serialize(m)
  {
    PutByte(buf, 0, 16);
    var len := PutTinyString(buf, 1, m.name, APP_NAME_MAX_LENGTH);
    size := 1 + len;
  }

  /** The branches with a type and at most one byte. */
  method SerializeShort(code: Byte, argument: Option<Byte>, buf: array<Byte>) returns (size: nat)
    requires buf.Length >= MAX_SIZE
    modifies buf
    ensures size <= MAX_SIZE
    ensures buf[..size] == match argument case None => [code] case Some(x) => [code] + [x]
  {
    PutByte(buf, 0, code);
    size := 1;
    if argument.Some? {
      PutByte(buf, 1, argument.value);
      size := 2;
    }
  }

  /** sc_control_msg_serialize: every message fits in a buffer of MAX_SIZE bytes. */
  method SerializeInto(m: Message, buf: array<Byte>) returns (size: nat)
    requires buf.Length >= MAX_SIZE
    modifies buf
    ensures size <= MAX_SIZE && buf[..size] == Serialize(m)
  {
    match m
    case InjectKeycode(_, _, _, _) => size := SerializeKeycode(m, buf);
    case InjectText(_) => size := SerializeInjectText(m, buf);
    case InjectTouch(_, _, _, _, _, _) => size := SerializeTouch(m, buf);
    case InjectScroll(_, _, _, _) => size := SerializeScroll(m, buf);
    case BackOrScreenOn(action) => size := SerializeShort(4, Some(action), buf);
    case ExpandNotificationPanel => size := SerializeShort(5, None, buf);
    case ExpandSettingsPanel => size := SerializeShort(6, None, buf);
    case CollapsePanels => size := SerializeShort(7, None, buf);
    case GetClipboard(copyKey) => size := SerializeShort(8, Some(copyKey), buf);
    case SetClipboard(_, _, _) => size := SerializeSetClipboard(m, buf);
    case SetDisplayPower(on) => size := SerializeShort(10, Some(Flag(on)), buf);
    case RotateDevice => size := SerializeShort(11, None, buf);
    case UhidCreate(_, _, _, _, _) => size := SerializeUhidCreate(m, buf);
    case UhidInput(_, _) => size := SerializeUhidInput(m, buf);
    case UhidDestroy(_) => size := SerializeUhidDestroy(m, buf);
    case OpenHardKeyboardSettings => size := SerializeShort(15, None, buf);
    case StartApp(_) => size := SerializeStartApp(m, buf);
    case ResetVideo => size := SerializeShort(17, None, buf);
  }

  // ---- what the device can recover

  /** The message as the device receives it: texts are truncated, no name is an empty name. */
  function Normalized(m: Message): Message
  {
    match m
    case InjectText(text) => InjectText(Truncate(text, INJECT_TEXT_MAX_LENGTH))
    case SetClipboard(sequence, paste, text) =>
      SetClipboard(sequence, paste, Truncate(text, CLIPBOARD_TEXT_MAX_LENGTH))
    case UhidCreate(id, vendorId, productId, name, reportDesc) =>
      UhidCreate(id, vendorId, productId, Some(Truncate(NameOf(name), UHID_NAME_MAX_LENGTH)), reportDesc)
    case StartApp(name) => StartApp(Truncate(name, APP_NAME_MAX_LENGTH))
    case _ => m
  }

  function ReadPosition(b: seq<Byte>, at: nat): Position
    requires at + 12 <= |b|
  {
    Position(Read32(b, at), Read32(b, at + 4), Read16(b, at + 8), Read16(b, at + 10))
  }

  /** A text of `len` bytes at `at`, if it is there. */
  function ReadText(b: seq<Byte>, at: nat, len: nat): Option<Text>
  {
    if at + len > |b| || (len > 0 && IsContinuation(b[at])) then None else Some(b[at..at + len])
  }

  /** A reference decoder: the first message of a stream and its length, None if incomplete. */
  function Decode(b: seq<Byte>): Option<(Message, nat)>
  {
    if b == [] then None else
      match b[0]
      case 0 => if |b| < 14 then None else
                Some((InjectKeycode(b[1], Read32(b, 2), Read32(b, 6), Read32(b, 10)), 14))
      case 1 => if |b| < 5 then None else
                (match ReadText(b, 5, Read32(b, 1))
                 case None => None
                 case Some(text) => Some((InjectText(text), 5 + |text|)))
      case 2 => if |b| < 32 then None else
                Some((InjectTouch(b[1], Read64(b, 2), ReadPosition(b, 10), Read16(b, 22), Read32(b, 24), Read32(b, 28)), 32))
      case 3 => if |b| < 21 then None else
                Some((InjectScroll(ReadPosition(b, 1), Read16(b, 13), Read16(b, 15), Read32(b, 17)), 21))
      case 4 => if |b| < 2 then None else Some((BackOrScreenOn(b[1]), 2))
      case 5 => Some((ExpandNotificationPanel, 1))
      case 6 => Some((ExpandSettingsPanel, 1))
      case 7 => Some((CollapsePanels, 1))
      case 8 => if |b| < 2 then None else Some((GetClipboard(b[1]), 2))
      case 9 => DecodeClipboard(b)
      case 10 => if |b| < 2 then None else Some((SetDisplayPower(b[1] != 0), 2))
      case 11 => Some((RotateDevice, 1))
      case 12 => DecodeUhidCreate(b)
      case 13 => if |b| < 5 || |b| < 5 + Read16(b, 3) || Read16(b, 3) > HID_MAX_SIZE then None else
                 Some((UhidInput(Read16(b, 1), b[5..5 + Read16(b, 3)]), 5 + Read16(b, 3)))
      case 14 => if |b| < 3 then None else Some((UhidDestroy(Read16(b, 1)), 3))
      case 15 => Some((OpenHardKeyboardSettings, 1))
      case 16 => if |b| < 2 then None else
                 (match ReadText(b, 2, b[1])
                  case None => None
                  case Some(name) => Some((StartApp(name), 2 + |name|)))
      case 17 => Some((ResetVideo, 1))
      case _ => None
  }

  function DecodeClipboard(b: seq<Byte>): Option<(Message, nat)>
  {
    if |b| < 14 then None else
      match ReadText(b, 14, Read32(b, 10))
      case None => None
      case Some(text) => Some((SetClipboard(Read64(b, 1), b[9] != 0, text), 14 + |text|))
  }

  function DecodeUhidCreate(b: seq<Byte>): Option<(Message, nat)>
  {
    if |b| < 8 then None else
      match ReadText(b, 8, b[7])
      case None => None
      case Some(name) =>
        var at := 8 + |name|;
        if |b| < at + 2 || |b| < at + 2 + Read16(b, at) then None else
          var desc := b[at + 2..at + 2 + Read16(b, at)];
          Some((UhidCreate(Read16(b, 1), Read16(b, 3), Read16(b, 5), Some(name), desc), at + 2 + |desc|))
  }

  lemma DecodeKeycode(m: Message, rest: seq<Byte>)
    requires m.InjectKeycode?
    ensures Decode(Serialize(m) + rest) == Some((m, 14))
  {
    var b := Serialize(m) + rest;
    RoundTrip32(b, 2, m.keycode);
    RoundTrip32(b, 6, m.repeat);
    RoundTrip32(b, 10, m.metastate);
  }

  lemma SubSlice(b: seq<Byte>, at: nat, n: nat, i: nat, j: nat)
    requires i <= j <= n && at + n <= |b|
    ensures b[at + i..at + j] == b[at..at + n][i..j]
  {
    var (x, y) := (b[at + i..at + j], b[at..at + n][i..j]);
    forall k | 0 <= k < |x|
      ensures x[k] == y[k]
    {
      assert y[k] == b[at..at + n][i + k];
    }
  }

  /** A string found in a stream is read back. */
  lemma ReadString(pre: seq<Byte>, text: Text, maxLen: nat, post: seq<Byte>)
    requires maxLen < 0x1_0000_0000
    ensures var b := pre + StringBytes(text, maxLen) + post;
            && |pre| + 4 <= |b|
            && ReadText(b, |pre| + 4, Read32(b, |pre|)) == Some(Truncate(text, maxLen))
  {
    var b := pre + StringBytes(text, maxLen) + post;
    var (at, t) := (|pre|, Truncate(text, maxLen));
    assert b[at..at + 4] == Be32(|t|);
    RoundTrip32(b, at, |t|);
    assert b[at + 4..at + 4 + |t|] == t;
  }

  lemma DecodePosition(b: seq<Byte>, at: nat, p: Position)
    requires at + 12 <= |b| && b[at..at + 12] == PositionBytes(p)
    ensures ReadPosition(b, at) == p
  {
    SubSlice(b, at, 12, 0, 4);
    SubSlice(b, at, 12, 4, 8);
    SubSlice(b, at, 12, 8, 10);
    SubSlice(b, at, 12, 10, 12);
    RoundTrip32(b, at, p.x);
    RoundTrip32(b, at + 4, p.y);
    RoundTrip16(b, at + 8, p.width);
    RoundTrip16(b, at + 10, p.height);
  }

  lemma DecodeTouch(m: Message, rest: seq<Byte>)
    requires m.InjectTouch?
    ensures Decode(Serialize(m) + rest) == Some((m, 32))
  {
    var b := Serialize(m) + rest;
    var (head, tail) := ([2] + [m.action] + Be64(m.pointerId), Be16(m.pressure) + Be32(m.actionButton) + Be32(m.buttons));
    TouchLayout(head, PositionBytes(m.position), tail, rest);
    assert b == head + PositionBytes(m.position) + tail + rest;
    assert b[2..10] == b[..10][2..] == Be64(m.pointerId);
    RoundTrip64(b, 2, m.pointerId);
    DecodePosition(b, 10, m.position);
    SubSlice(b, 22, 10, 0, 2);
    SubSlice(b, 22, 10, 2, 6);
    SubSlice(b, 22, 10, 6, 10);
    RoundTrip16(b, 22, m.pressure);
    RoundTrip32(b, 24, m.actionButton);
    RoundTrip32(b, 28, m.buttons);
  }

  lemma TouchLayout(head: seq<Byte>, position: seq<Byte>, tail: seq<Byte>, rest: seq<Byte>)
    requires |head| == 10 && |position| == 12 && |tail| == 10
    ensures var b := head + position + tail + rest;
            b[..10] == head && b[10..22] == position && b[22..32] == tail
  {
  }

  lemma DecodeScroll(m: Message, rest: seq<Byte>)
    requires m.InjectScroll?
    ensures Decode(Serialize(m) + rest) == Some((m, 21))
  {
    var b := Serialize(m) + rest;
    DecodePosition(b, 1, m.position);
    RoundTrip16(b, 13, m.hscroll);
    RoundTrip16(b, 15, m.vscroll);
    RoundTrip32(b, 17, m.buttons);
  }

  lemma DecodeInjectText(m: Message, rest: seq<Byte>)
    requires m.InjectText?
    ensures Decode(Serialize(m) + rest) == Some((Normalized(m), |Serialize(m)|))
  {
    ReadString([1], m.text, INJECT_TEXT_MAX_LENGTH, rest);
  }

  lemma DecodeSetClipboard(m: Message, rest: seq<Byte>)
    requires m.SetClipboard?
    ensures Decode(Serialize(m) + rest) == Some((Normalized(m), |Serialize(m)|))
  {
    var header := [9] + Be64(m.sequence) + [Flag(m.paste)];
    ReadString(header, m.text, CLIPBOARD_TEXT_MAX_LENGTH, rest);
    var s := StringBytes(m.text, CLIPBOARD_TEXT_MAX_LENGTH);
    var b := header + s + rest;
    assert Serialize(m) == header + s;
    DecodeClipboardHeader(m, b, s + rest);
    assert Decode(b) == DecodeClipboard(b);
  }

  lemma DecodeClipboardHeader(m: Message, b: seq<Byte>, rest: seq<Byte>)
    requires m.SetClipboard? && b == [9] + Be64(m.sequence) + [Flag(m.paste)] + rest
    ensures Read64(b, 1) == m.sequence && (b[9] != 0) == m.paste && b[0] == 9
  {
    assert b[1..9] == Be64(m.sequence);
    RoundTrip64(b, 1, m.sequence);
  }

  lemma DecodeStartApp(m: Message, rest: seq<Byte>)
    requires m.StartApp?
    ensures Decode(Serialize(m) + rest) == Some((Normalized(m), |Serialize(m)|))
  {
    var name := Truncate(m.name, APP_NAME_MAX_LENGTH);
    assert (Serialize(m) + rest)[2..2 + |name|] == name;
  }

  lemma CreateLayout(m: Message, rest: seq<Byte>, header: seq<Byte>, name: Text)
    requires m.UhidCreate? && name == Truncate(NameOf(m.deviceName), UHID_NAME_MAX_LENGTH)
    requires header == [12] + Be16(m.id) + Be16(m.vendorId) + Be16(m.productId) + [|name|]
    ensures Serialize(m) + rest == header + name + (Be16(|m.reportDesc|) + m.reportDesc + rest)
    ensures |Serialize(m)| == 10 + |name| + |m.reportDesc|
  {
  }

  lemma DecodeCreate(m: Message, rest: seq<Byte>)
    requires m.UhidCreate?
    ensures Decode(Serialize(m) + rest) == Some((Normalized(m), |Serialize(m)|))
  {
    var (name, desc) := (Truncate(NameOf(m.deviceName), UHID_NAME_MAX_LENGTH), m.reportDesc);
    var header := [12] + Be16(m.id) + Be16(m.vendorId) + Be16(m.productId) + [|name|];
    var b := header + name + (Be16(|desc|) + desc + rest);
    CreateLayout(m, rest, header, name);
    assert b[..8] == header;
    DecodeHeader(m, b, |name|);
    DecodeDescriptor(header, name, desc, rest, b);
    assert Decode(b) == DecodeUhidCreate(b);
  }

  lemma DecodeHeader(m: Message, b: seq<Byte>, len: Byte)
    requires m.UhidCreate? && |b| >= 8
    requires b[..8] == [12] + Be16(m.id) + Be16(m.vendorId) + Be16(m.productId) + [len]
    ensures b[0] == 12 && b[7] == len
    ensures Read16(b, 1) == m.id && Read16(b, 3) == m.vendorId && Read16(b, 5) == m.productId
  {
    var h := b[..8];
    assert b[0] == h[0] && b[7] == h[7];
    assert b[1..3] == h[1..3] && b[3..5] == h[3..5] && b[5..7] == h[5..7];
    RoundTrip16(b, 1, m.id);
    RoundTrip16(b, 3, m.vendorId);
    RoundTrip16(b, 5, m.productId);
  }

  lemma DecodeDescriptor(header: seq<Byte>, name: Text, desc: Descriptor, rest: seq<Byte>, b: seq<Byte>)
    requires |header| == 8 && b == header + name + (Be16(|desc|) + desc + rest)
    ensures ReadText(b, 8, |name|) == Some(name)
    ensures Read16(b, 8 + |name|) == |desc|
    ensures b[10 + |name|..10 + |name| + |desc|] == desc
  {
    assert b[8..8 + |name|] == name;
    assert b[8 + |name|..10 + |name|] == Be16(|desc|);
    RoundTrip16(b, 8 + |name|, |desc|);
  }

  lemma DecodeInputDestroy(m: Message, rest: seq<Byte>)
    requires m.UhidInput? || m.UhidDestroy?
    ensures Decode(Serialize(m) + rest) == Some((m, |Serialize(m)|))
  {
    var b := Serialize(m) + rest;
    RoundTrip16(b, 1, m.id);
    if m.UhidInput? {
      RoundTrip16(b, 3, |m.data|);
      assert b[5..5 + |m.data|] == m.data;
    }
  }

  /** Each serialization is self-delimiting: it is decoded alone whatever follows it. */
  lemma RoundTrip(m: Message, rest: seq<Byte>)
    ensures Decode(Serialize(m) + rest) == Some((Normalized(m), |Serialize(m)|))
  {
    match m
    case InjectKeycode(_, _, _, _) => DecodeKeycode(m, rest);
    case InjectTouch(_, _, _, _, _, _) => DecodeTouch(m, rest);
    case InjectScroll(_, _, _, _) => DecodeScroll(m, rest);
    case InjectText(_) => DecodeInjectText(m, rest);
    case SetClipboard(_, _, _) => DecodeSetClipboard(m, rest);
    case StartApp(_) => DecodeStartApp(m, rest);
    case UhidCreate(_, _, _, _, _) => DecodeCreate(m, rest);
    case UhidInput(_, _) | UhidDestroy(_) => DecodeInputDestroy(m, rest);
    case _ =>
  }

  function SerializeAll(messages: seq<Message>): seq<Byte>
  {
    if messages == [] then [] else Serialize(messages[0]) + SerializeAll(messages[1..])
  }

  function DecodeAll(b: seq<Byte>): Option<seq<Message>>
  {
    if b == [] then Some([]) else
      match Decode(b)
      case None => None
      case Some((m, size)) =>
        if size == 0 || size > |b| then None else
          match DecodeAll(b[size..])
          case None => None
          case Some(messages) => Some([m] + messages)
  }

  function NormalizedAll(messages: seq<Message>): seq<Message>
  {
    if messages == [] then [] else [Normalized(messages[0])] + NormalizedAll(messages[1..])
  }

  /** The stream of any list of messages is decoded into that list. */
  lemma {:induction false} StreamRoundTrip(messages: seq<Message>)
    ensures DecodeAll(SerializeAll(messages)) == Some(NormalizedAll(messages))
  {
    if messages != [] {
      var (m, rest) := (messages[0], SerializeAll(messages[1..]));
      RoundTrip(m, rest);
      SizeLimit(m);
      StreamRoundTrip(messages[1..]);
      assert (Serialize(m) + rest)[|Serialize(m)|..] == rest;
    }
  }

  /** Every serialization fits in MAX_SIZE, and a clipboard long enough reaches it exactly when
      its character boundaries allow. */
  lemma SizeLimit(m: Message)
    ensures 0 < |Serialize(m)| <= MAX_SIZE
    ensures |Serialize(m)| == MAX_SIZE <==>
            m.SetClipboard? && |m.text| >= CLIPBOARD_TEXT_MAX_LENGTH
            && (|m.text| == CLIPBOARD_TEXT_MAX_LENGTH || !IsContinuation(m.text[CLIPBOARD_TEXT_MAX_LENGTH]))
  {
  }
}
