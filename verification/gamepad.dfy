/** Gamepads as HID devices: the slots of hid_gamepad.c and the input reports made from them. */
module Gamepads {
  import opened Arithmetic
  import opened BigEndian
  import opened ControlMessages
  import opened Optional

  const MAX_GAMEPADS := 8
  const ID_INVALID: U32 := 0xFFFF_FFFF
  const HID_ID_FIRST := 3

  predicate IsGamepadId(hidId: int) { HID_ID_FIRST <= hidId < HID_ID_FIRST + MAX_GAMEPADS }

  datatype Slot = Slot(gamepadId: U32, buttons: bv32, leftX: U16, leftY: U16,
                       rightX: U16, rightY: U16, leftTrigger: U16, rightTrigger: U16)

  type Slots = s: seq<Slot> | |s| == MAX_GAMEPADS witness seq(MAX_GAMEPADS, _ => FreshSlot(ID_INVALID))

  type I16 = x: int | -0x8000 <= x < 0x8000

  datatype Event =
    | Added(id: U32)
    | Removed(id: U32)
    | Axis(id: U32, axis: int, value: I16)
    | Button(id: U32, button: int, down: bool)

  /** What an event asks to send to the device. */
  datatype Request =
    | Open(hidId: U16)
    | Close(hidId: U16)
    | Input(hidId: U16, data: Report)

  function Rescale(v: I16): U16 { v + 0x8000 }

  function FreshSlot(id: U32): Slot
  {
    Slot(id, 0, Rescale(0), Rescale(0), Rescale(0), Rescale(0), 0, 0)
  }

  /** The first slot of a gamepad (or the first free one for ID_INVALID), -1 if there is none. */
  function Find(slots: seq<Slot>, id: U32): (i: int)
    ensures -1 <= i < |slots|
    ensures i >= 0 ==> slots[i].gamepadId == id
    ensures forall j :: 0 <= j < (if i >= 0 then i else |slots|) ==> slots[j].gamepadId != id
  {
    if slots == [] then -1 else
      var n := |slots| - 1;
      var i := Find(slots[..n], id);
      if i >= 0 then i else if slots[n].gamepadId == id then n else -1
  }

  function ButtonMask(button: int): bv32
  {
    match button
    case 0 => 0x0001  // south
    case 1 => 0x0002  // east
    case 2 => 0x0008  // west
    case 3 => 0x0010  // north
    case 4 => 0x0400  // back
    case 5 => 0x1000  // guide
    case 6 => 0x0800  // start
    case 7 => 0x2000  // left stick
    case 8 => 0x4000  // right stick
    case 9 => 0x0040  // left shoulder
    case 10 => 0x0080 // right shoulder
    case 11 => UP
    case 12 => DOWN
    case 13 => LEFT
    case 14 => RIGHT
    case _ => 0
  }

  const UP: bv32 := 0x1_0000
  const DOWN: bv32 := 0x2_0000
  const LEFT: bv32 := 0x4_0000
  const RIGHT: bv32 := 0x8_0000

  /** The hat switch position: 1 is up, then clockwise to 8 (up and left); 0 is centered. */
  function DpadValue(buttons: bv32): Byte
  {
    if buttons & UP != 0 then
      if buttons & LEFT != 0 then 8 else if buttons & RIGHT != 0 then 2 else 1
    else if buttons & DOWN != 0 then
      if buttons & LEFT != 0 then 6 else if buttons & RIGHT != 0 then 4 else 5
    else if buttons & LEFT != 0 then 7
    else if buttons & RIGHT != 0 then 3
    else 0
  }

  /** Values are little-endian in a report. */
  function Le16(x: U16): seq<Byte> { [x % 0x100] + [x / 0x100] }

  function LowButtons(buttons: bv32): U16 { (buttons & 0xFFFF) as int }

  function ReportOf(s: Slot): Report
  {
    Le16(s.leftX) + Le16(s.leftY) + Le16(s.rightX) + Le16(s.rightY)
    + Le16(s.leftTrigger) + Le16(s.rightTrigger) + Le16(LowButtons(s.buttons)) + [DpadValue(s.buttons)]
  }

  function MoveAxis(s: Slot, axis: int, value: I16): Option<Slot>
  {
    match axis
    case 0 => Some(s.(leftX := Rescale(value)))
    case 1 => Some(s.(leftY := Rescale(value)))
    case 2 => Some(s.(rightX := Rescale(value)))
    case 3 => Some(s.(rightY := Rescale(value)))
    case 4 => Some(s.(leftTrigger := Max(0, value)))
    case 5 => Some(s.(rightTrigger := Max(0, value)))
    case _ => None
  }

  function SetBits(buttons: bv32, mask: bv32, on: bool): bv32
  {
    if on then buttons | mask else buttons & !mask
  }

  function PressButton(s: Slot, button: int, down: bool): Option<Slot>
  {
    var mask := ButtonMask(button);
    if mask == 0 then None
    else Some(s.(buttons := SetBits(s.buttons, mask, down)))
  }

  /** The slots after an event, and what to send. */
  function Handle(slots: Slots, e: Event): (Slots, Option<Request>)
  {
    match e
    case Added(id) =>
      var i := Find(slots, ID_INVALID);
      if i == -1 then (slots, None) else (slots[i := FreshSlot(id)], Some(Open(HID_ID_FIRST + i)))
    case Removed(id) =>
      var i := Find(slots, id);
      if i == -1 then (slots, None)
      else (slots[i := slots[i].(gamepadId := ID_INVALID)], Some(Close(HID_ID_FIRST + i)))
    case Axis(id, axis, value) =>
      var i := Find(slots, id);
      if i == -1 then (slots, None) else Updated(slots, i, MoveAxis(slots[i], axis, value))
    case Button(id, button, down) =>
      var i := Find(slots, id);
      if i == -1 then (slots, None) else Updated(slots, i, PressButton(slots[i], button, down))
  }

  function Updated(slots: Slots, i: nat, slot: Option<Slot>): (Slots, Option<Request>)
    requires i < MAX_GAMEPADS
  {
    match slot
    case None => (slots, None)
    case Some(s) => (slots[i := s], Some(Input(HID_ID_FIRST + i, ReportOf(s))))
  }

  class HidGamepad {
    const slots: array<Slot>

    ghost predicate Valid() { slots.Length == MAX_GAMEPADS }

    constructor ()
      ensures Valid() && fresh(slots)
      ensures forall i :: 0 <= i < MAX_GAMEPADS ==> slots[i].gamepadId == ID_INVALID
    {
      slots := new Slot[MAX_GAMEPADS](_ => FreshSlot(ID_INVALID));
    }

    method FindSlot(id: U32) returns (index: int)
      requires Valid()
      ensures index == Find(slots[..], id)
    {
      for i := 0 to MAX_GAMEPADS
        invariant Find(slots[..i], id) == -1
      {
        assert slots[..i + 1][..i] == slots[..i];
        if id == slots[i].gamepadId {
          FindPrefix(slots[..], i + 1, id);
          return i;
        }
      }
      assert slots[..MAX_GAMEPADS] == slots[..];
      return -1;
    }

    method GenerateOpen(id: U32) returns (r: Option<Request>)
      requires Valid() && id != ID_INVALID
      modifies slots
      ensures (slots[..], r) == Handle(old(slots[..]), Added(id))
    {
      var i := FindSlot(ID_INVALID);
      if i == -1 {
        return None;
      }
      slots[i] := FreshSlot(id);
      r := Some(Open(HID_ID_FIRST + i));
    }

    method GenerateClose(id: U32) returns (r: Option<Request>)
      requires Valid() && id != ID_INVALID
      modifies slots
      ensures (slots[..], r) == Handle(old(slots[..]), Removed(id))
    {
      var i := FindSlot(id);
      if i == -1 {
        return None;
      }
      slots[i] := slots[i].(gamepadId := ID_INVALID);
      r := Some(Close(HID_ID_FIRST + i));
    }

    method GenerateInputFromAxis(e: Event) returns (r: Option<Request>)
      requires Valid() && e.Axis?
      modifies slots
      ensures (slots[..], r) == Handle(old(slots[..]), e)
    {
      var i := FindSlot(e.id);
      if i == -1 {
        return None;
      }
      match e.axis {
        case 0 => slots[i] := slots[i].(leftX := Rescale(e.value));
        case 1 => slots[i] := slots[i].(leftY := Rescale(e.value));
        case 2 => slots[i] := slots[i].(rightX := Rescale(e.value));
        case 3 => slots[i] := slots[i].(rightY := Rescale(e.value));
        case 4 => slots[i] := slots[i].(leftTrigger := Max(0, e.value));
        case 5 => slots[i] := slots[i].(rightTrigger := Max(0, e.value));
        case _ => return None;
      }
      r := Some(Input(HID_ID_FIRST + i, ReportOf(slots[i])));
    }

    method GenerateInputFromButton(e: Event) returns (r: Option<Request>)
      requires Valid() && e.Button?
      modifies slots
      ensures (slots[..], r) == Handle(old(slots[..]), e)
    {
      if e.button < 0 || e.button > 15 {
        return None;
      }
      var i := FindSlot(e.id);
      if i == -1 {
        return None;
      }
      var pressed := PressButton(slots[i], e.button, e.down);
      if pressed.None? {
        return None;
      }
      slots[i] := pressed.value;
      r := Some(Input(HID_ID_FIRST + i, ReportOf(pressed.value)));
    }
  }

  lemma {:induction false} FindPrefix(slots: seq<Slot>, n: nat, id: U32)
    requires n <= |slots| && Find(slots[..n], id) >= 0
    ensures Find(slots, id) == Find(slots[..n], id)
    decreases |slots| - n
  {
    if n < |slots| {
      assert slots[..n + 1][..n] == slots[..n];
      FindPrefix(slots, n + 1, id);
    } else {
      assert slots[..n] == slots;
    }
  }

  // ---- what the slots and the reports mean

  predicate InUse(s: Slot) { s.gamepadId != ID_INVALID }

  predicate ValidId(e: Event) { e.id != ID_INVALID }

  ghost predicate Taken(slots: Slots, id: U32) { exists i :: 0 <= i < MAX_GAMEPADS && slots[i].gamepadId == id }

  /** The events that concern a gamepad and a control of it. */
  ghost predicate Concerned(slots: Slots, e: Event)
  {
    match e
    case Added(_) => Taken(slots, ID_INVALID)
    case Removed(id) => Taken(slots, id)
    case Axis(id, axis, _) => Taken(slots, id) && 0 <= axis < 6
    case Button(id, button, _) => Taken(slots, id) && 0 <= button < 15
  }

  /** Nothing happens without a slot for the event; otherwise it changes only the slot it sends
      something for: an open turns a free slot into a centered and released gamepad, an input and a
      close concern the gamepad's slot. */
  lemma HandleMeaning(slots: Slots, e: Event)
    requires ValidId(e)
    ensures var (after, r) := Handle(slots, e);
            && (r.None? ==> after == slots)
            && (r.Some? <==> Concerned(slots, e))
            && (r.Some? ==>
                  var i := r.value.hidId - HID_ID_FIRST;
                  && 0 <= i < MAX_GAMEPADS && after == slots[i := after[i]]
                  && (r.value.Open? <==> e.Added?) && (r.value.Close? <==> e.Removed?)
                  && (r.value.Open? ==> !InUse(slots[i])
                                        && after[i] == Slot(e.id, 0, 0x8000, 0x8000, 0x8000, 0x8000, 0, 0))
                  && (r.value.Close? ==> slots[i].gamepadId == e.id && !InUse(after[i]))
                  && (r.value.Input? ==> slots[i].gamepadId == e.id == after[i].gamepadId
                                         && r.value.data == ReportOf(after[i])))
  {
  }

  /** Two buttons never share a bit, so that (MaskBits) pressing or releasing one sets or clears
      its own bit and leaves the other's. */
  lemma MasksDisjoint(a: int, b: int)
    requires a != b
    ensures ButtonMask(a) & ButtonMask(b) == 0
  {
  }

  lemma OwnBits(held: bv32, mask: bv32)
    ensures SetBits(held, mask, true) & mask == mask
    ensures SetBits(held, mask, false) & mask == 0
  {
  }

  lemma OtherBits(held: bv32, mask: bv32, other: bv32, on: bool)
    requires mask & other == 0
    ensures SetBits(held, mask, on) & other == held & other
  {
  }

  lemma MaskBits(held: bv32, mask: bv32, other: bv32, on: bool)
    requires mask & other == 0 && mask != 0
    ensures (SetBits(held, mask, on) & mask != 0) == on
    ensures SetBits(held, mask, on) & other == held & other
  {
    OwnBits(held, mask);
    OtherBits(held, mask, other, on);
  }

  /** The direction a hat switch position stands for, right and down being positive. */
  function HatX(v: Byte): int { if v in {2, 3, 4} then 1 else if v in {6, 7, 8} then -1 else 0 }
  function HatY(v: Byte): int { if v in {4, 5, 6} then 1 else if v in {8, 1, 2} then -1 else 0 }

  /** The two axes of the hat switch are independent; up wins over down and left over right. */
  lemma HatDirection(buttons: bv32)
    ensures 0 <= DpadValue(buttons) <= 8
    ensures HatX(DpadValue(buttons)) == if buttons & LEFT != 0 then -1 else if buttons & RIGHT != 0 then 1 else 0
    ensures HatY(DpadValue(buttons)) == if buttons & UP != 0 then -1 else if buttons & DOWN != 0 then 1 else 0
  {
  }

  function ReadLe16(r: seq<Byte>, at: nat): int
    requires at + 2 <= |r|
  {
    var (low: int, high: int) := (r[at], r[at + 1]);
    low + 0x100 * high
  }

  lemma ReportBytes(x1: U16, x2: U16, x3: U16, x4: U16, x5: U16, x6: U16, x7: U16, x8: Byte)
    ensures var r := Le16(x1) + Le16(x2) + Le16(x3) + Le16(x4) + Le16(x5) + Le16(x6) + Le16(x7) + [x8];
            && |r| == HID_MAX_SIZE && r[14] == x8
            && ReadLe16(r, 0) == x1 && ReadLe16(r, 2) == x2 && ReadLe16(r, 4) == x3
            && ReadLe16(r, 6) == x4 && ReadLe16(r, 8) == x5 && ReadLe16(r, 10) == x6 && ReadLe16(r, 12) == x7
  {
  }

  /** The device can read back the whole slot state from a report. */
  lemma ReportLayout(s: Slot)
    ensures var r := ReportOf(s);
            && |r| == HID_MAX_SIZE
            && ReadLe16(r, 0) == s.leftX && ReadLe16(r, 2) == s.leftY
            && ReadLe16(r, 4) == s.rightX && ReadLe16(r, 6) == s.rightY
            && ReadLe16(r, 8) == s.leftTrigger && ReadLe16(r, 10) == s.rightTrigger
            && ReadLe16(r, 12) == (s.buttons & 0xFFFF) as int
            && r[14] == DpadValue(s.buttons)
  {
    ReportBytes(s.leftX, s.leftY, s.rightX, s.rightY, s.leftTrigger, s.rightTrigger,
                LowButtons(s.buttons), DpadValue(s.buttons));
  }

  /** An axis event moves its own axis in the report and no other: sticks are shifted to unsigned,
      triggers are clamped to nonnegative; there are six axes. */
  lemma AxesIndependent(s: Slot, axis: int, value: I16, other: nat)
    requires other < 6
    ensures MoveAxis(s, axis, value).Some? <==> 0 <= axis < 6
    ensures var r := MoveAxis(s, axis, value);
            r.Some? ==>
              && r.value.buttons == s.buttons && r.value.gamepadId == s.gamepadId
              && ReadLe16(ReportOf(r.value), 2 * other)
                 == if other != axis then ReadLe16(ReportOf(s), 2 * other)
                    else if axis < 4 then value + 0x8000 else Max(0, value)
  {
    ReportLayout(s);
    var r := MoveAxis(s, axis, value);
    if r.Some? {
      ReportLayout(r.value);
    }
    assert other in {0, 1, 2, 3, 4, 5};
  }

  /** The place of a button among the sixteen bits of the report. */
  function ReportBit(button: nat): bv5
    requires button < 11
  {
    var bits: seq<bv5> := [0, 1, 3, 4, 10, 12, 11, 13, 14, 6, 7];
    bits[button]
  }

  /** The sixteen bits of the buttons in a report. */
  function ReportButtons(r: Report): bv32
    requires |r| == 15
  {
    ReadLe16(r, 12) as bv32
  }

  lemma ReadButtons(s: Slot)
    ensures ReportButtons(ReportOf(s)) == s.buttons & 0xFFFF
  {
    ReportLayout(s);
    ThereAndBack(s.buttons & 0xFFFF);
  }

  lemma ThereAndBack(x: bv32)
    ensures (x as int) as bv32 == x
  {
  }

  lemma MaskOfBit(button: nat)
    requires button < 11
    ensures ButtonMask(button) == 1 << ReportBit(button) && ReportBit(button) < 16
  {
  }

  function BitMask(bit: bv5): bv32 { 1 << bit }

  predicate HasBit(r: Report, bit: bv5)
    requires |r| == 15
  {
    ReportButtons(r) & BitMask(bit) != 0
  }

  lemma BitsDisjoint(a: bv5, b: bv5)
    ensures a != b ==> BitMask(a) & BitMask(b) == 0
    ensures BitMask(a) != 0
    ensures a < 16 ==> BitMask(a) & 0xFFFF == BitMask(a) && BitMask(a) & (UP | DOWN | LEFT | RIGHT) == 0
  {
  }

  lemma SameDpad(a: bv32, b: bv32)
    requires a & UP == b & UP && a & DOWN == b & DOWN && a & LEFT == b & LEFT && a & RIGHT == b & RIGHT
    ensures DpadValue(a) == DpadValue(b)
  {
  }

  lemma LowKeepsDpad(buttons: bv32, bit: bv5, on: bool)
    requires bit < 16
    ensures DpadValue(SetBits(buttons, BitMask(bit), on)) == DpadValue(buttons)
  {
    BitsDisjoint(bit, bit);
    var mask := BitMask(bit);
    Within(mask);
    OtherBits(buttons, mask, UP, on);
    OtherBits(buttons, mask, DOWN, on);
    OtherBits(buttons, mask, LEFT, on);
    OtherBits(buttons, mask, RIGHT, on);
    SameDpad(SetBits(buttons, mask, on), buttons);
  }

  lemma Within(mask: bv32)
    requires mask & (UP | DOWN | LEFT | RIGHT) == 0
    ensures mask & UP == 0 && mask & DOWN == 0 && mask & LEFT == 0 && mask & RIGHT == 0
  {
  }

  function AxisBytes(s: Slot): (b: seq<Byte>)
    ensures |b| == 12
  {
    Le16(s.leftX) + Le16(s.leftY) + Le16(s.rightX) + Le16(s.rightY) + Le16(s.leftTrigger) + Le16(s.rightTrigger)
  }

  /** Only the last three bytes of a report depend on the buttons. */
  lemma ButtonBytes(s: Slot, buttons: bv32)
    ensures var (r, before) := (ReportOf(s.(buttons := buttons)), ReportOf(s));
            && |r| == |before| == 15 && r[..12] == before[..12] && r[14] == DpadValue(buttons)
            && (buttons & 0xFFFF == s.buttons & 0xFFFF ==> r[..14] == before[..14])
  {
    var (b, low, t) := (AxisBytes(s), Le16(LowButtons(buttons)), s.(buttons := buttons));
    assert ReportOf(t) == b + low + [DpadValue(buttons)];
    assert ReportOf(s) == b + Le16(LowButtons(s.buttons)) + [DpadValue(s.buttons)];
    Prefixes(b, low, DpadValue(buttons));
    Prefixes(b, Le16(LowButtons(s.buttons)), DpadValue(s.buttons));
  }

  lemma Prefixes(b: seq<Byte>, low: seq<Byte>, hat: Byte)
    requires |b| == 12 && |low| == 2
    ensures var r := b + low + [hat]; |r| == 15 && r[..12] == b && r[..14] == b + low && r[14] == hat
  {
  }

  lemma LowMask(buttons: bv32, mask: bv32)
    requires mask & 0xFFFF == mask
    ensures (buttons & 0xFFFF) & mask == buttons & mask
  {
  }

  lemma LowBitOwn(buttons: bv32, own: bv32, down: bool)
    requires own & 0xFFFF == own && own != 0
    ensures ((SetBits(buttons, own, down) & 0xFFFF) & own != 0) == down
  {
    LowMask(SetBits(buttons, own, down), own);
    OwnBits(buttons, own);
  }

  lemma LowBitOther(buttons: bv32, own: bv32, other: bv32, down: bool)
    requires other & 0xFFFF == other && own & other == 0
    ensures (SetBits(buttons, own, down) & 0xFFFF) & other == (buttons & 0xFFFF) & other
  {
    LowMask(SetBits(buttons, own, down), other);
    LowMask(buttons, other);
    OtherBits(buttons, own, other, down);
  }

  /** A button other than those of the directional pad sets or clears its own bit of the report, and
      changes nothing else in it. */
  lemma ButtonInReport(s: Slot, button: nat, down: bool, bit: bv5)
    requires button < 11 && bit < 16
    ensures PressButton(s, button, down).Some?
    ensures var (r, before) := (ReportOf(PressButton(s, button, down).value), ReportOf(s));
            && |r| == |before| == 15
            && HasBit(r, bit) == (if bit == ReportBit(button) then down else HasBit(before, bit))
            && r[..12] == before[..12] && r[14] == before[14]
  {
    var own := ReportBit(button);
    MaskOfBit(button);
    BitsDisjoint(own, bit);
    BitsDisjoint(bit, own);
    var buttons := SetBits(s.buttons, BitMask(own), down);
    var t := s.(buttons := buttons);
    assert PressButton(s, button, down) == Some(t);
    ButtonBytes(s, buttons);
    LowKeepsDpad(s.buttons, own, down);
    ReadButtons(s);
    ReadButtons(t);
    if bit == own {
      LowBitOwn(s.buttons, BitMask(own), down);
    } else {
      LowBitOther(s.buttons, BitMask(own), BitMask(bit), down);
    }
    ButtonBytes(s, s.buttons);
  }

  function Sign(negative: bool, positive: bool): int { if negative then -1 else if positive then 1 else 0 }

  predicate Held(buttons: bv32, mask: bv32) { buttons & mask != 0 }

  lemma HeldAfter(buttons: bv32, mask: bv32, pressed: bool, other: bv32)
    requires mask != 0 && mask & other == 0
    ensures Held(SetBits(buttons, mask, pressed), mask) == pressed
    ensures Held(SetBits(buttons, mask, pressed), other) == Held(buttons, other)
  {
    MaskBits(buttons, mask, other, pressed);
  }

  /** One of the four buttons is held or not, the three others as before. */
  predicate OnlyHeld(before: bv32, after: bv32, mask: bv32, pressed: bool, a: bv32, b: bv32, c: bv32)
  {
    Held(after, mask) == pressed && Held(after, a) == Held(before, a) && Held(after, b) == Held(before, b) && Held(after, c) == Held(before, c)
  }

  /** The hat switch follows the four buttons, and the rest of the report does not change. */
  predicate OnlyHat(s: Slot, t: Slot)
  {
    var (r, before) := (ReportOf(t), ReportOf(s));
    && |r| == |before| == 15 && r[..14] == before[..14]
    && HatX(r[14]) == Sign(Held(t.buttons, LEFT), Held(t.buttons, RIGHT))
    && HatY(r[14]) == Sign(Held(t.buttons, UP), Held(t.buttons, DOWN))
  }

  lemma HatOf(s: Slot, t: Slot)
    requires t == s.(buttons := t.buttons) && t.buttons & 0xFFFF == s.buttons & 0xFFFF
    ensures OnlyHat(s, t)
  {
    ButtonBytes(s, t.buttons);
    HatDirection(t.buttons);
  }

  lemma HeldAlone(buttons: bv32, mask: bv32, pressed: bool, a: bv32, b: bv32, c: bv32)
    requires mask != 0 && mask & a == 0 && mask & b == 0 && mask & c == 0
    ensures OnlyHeld(buttons, SetBits(buttons, mask, pressed), mask, pressed, a, b, c)
  {
    HeldAfter(buttons, mask, pressed, a);
    HeldAfter(buttons, mask, pressed, b);
    HeldAfter(buttons, mask, pressed, c);
  }

  lemma PressedTo(s: Slot, button: int, pressed: bool, mask: bv32) returns (t: Slot)
    requires mask == ButtonMask(button) && mask != 0 && mask & 0xFFFF == 0
    ensures PressButton(s, button, pressed) == Some(t) && t == s.(buttons := t.buttons)
    ensures t.buttons == SetBits(s.buttons, mask, pressed) && t.buttons & 0xFFFF == s.buttons & 0xFFFF
  {
    OtherBits(s.buttons, mask, 0xFFFF, pressed);
    t := s.(buttons := SetBits(s.buttons, mask, pressed));
  }

  /** A button of the directional pad: 11 is up, 12 down, 13 left, 14 right. */
  lemma DpadInReport(s: Slot, button: int, pressed: bool, mask: bv32, a: bv32, b: bv32, c: bv32)
    requires (button, mask, a, b, c) in {(11, UP, DOWN, LEFT, RIGHT), (12, DOWN, UP, LEFT, RIGHT),
                                         (13, LEFT, UP, DOWN, RIGHT), (14, RIGHT, UP, DOWN, LEFT)}
    ensures var t := PressButton(s, button, pressed);
            t.Some? && OnlyHeld(s.buttons, t.value.buttons, mask, pressed, a, b, c) && OnlyHat(s, t.value)
  {
    DpadMasks(button, mask, a, b, c);
    var t := PressedTo(s, button, pressed, mask);
    HeldAlone(s.buttons, mask, pressed, a, b, c);
    HatOf(s, t);
  }

  lemma DpadMasks(button: int, mask: bv32, a: bv32, b: bv32, c: bv32)
    requires (button, mask, a, b, c) in {(11, UP, DOWN, LEFT, RIGHT), (12, DOWN, UP, LEFT, RIGHT),
                                         (13, LEFT, UP, DOWN, RIGHT), (14, RIGHT, UP, DOWN, LEFT)}
    ensures ButtonMask(button) == mask != 0 && mask & 0xFFFF == 0 && mask & a == 0 && mask & b == 0 && mask & c == 0
  {
  }
}
