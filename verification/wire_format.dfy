/** The messages of test_control_msg_serialize.c and test_device_msg_deserialize.c: the places and the
    codes of the fields, which the round trip leaves open. */
module WireFormat {
  import opened BigEndian
  import opened ControlMessages
  import opened Optional
  import opened Utf8

  const HELLO: Text := [0x68, 0x65, 0x6C, 0x6C, 0x6F]
  const POSITION := Position(100, 200, 1080, 1920)

  lemma Keycode()
    ensures Serialize(InjectKeycode(1, 0x42, 5, 0x41)) == [0, 1] + [0, 0, 0, 0x42] + [0, 0, 0, 5] + [0, 0, 0, 0x41]
  {
  }

  lemma PositionFormat()
    ensures PositionBytes(POSITION) == [0, 0, 0, 0x64] + [0, 0, 0, 0xC8] + [0x04, 0x38] + [0x07, 0x80]
  {
  }

  lemma Divided(high: nat, low: nat)
    requires low < 0x1_0000_0000
    ensures (high * 0x1_0000_0000 + low) / 0x1_0000_0000 == high && (high * 0x1_0000_0000 + low) % 0x1_0000_0000 == low
  {
  }

  lemma Halves(high: U32, low: U32)
    ensures Be64(high * 0x1_0000_0000 + low) == Be32(high) + Be32(low)
  {
    Divided(high, low);
  }

  lemma PointerHalves()
    ensures Be32(0x12345678) == [0x12, 0x34, 0x56, 0x78] && Be32(0x87654321) == [0x87, 0x65, 0x43, 0x21]
  {
  }

  lemma PointerFormat()
    ensures Be64(0x1234567887654321) == [0x12, 0x34, 0x56, 0x78, 0x87, 0x65, 0x43, 0x21]
  {
    Halves(0x12345678, 0x87654321);
    PointerHalves();
  }

  lemma SequenceHalves()
    ensures Be32(0x01020304) == [1, 2, 3, 4] && Be32(0x05060708) == [5, 6, 7, 8]
  {
  }

  lemma SequenceFormat()
    ensures Be64(0x0102030405060708) == [1, 2, 3, 4, 5, 6, 7, 8]
  {
    Halves(0x01020304, 0x05060708);
    SequenceHalves();
  }

  lemma TouchFields()
    ensures Be16(0xFFFF) == [0xFF, 0xFF] && Be32(1) == [0, 0, 0, 1] && Be32(2) == [0, 0, 0, 2]
  {
  }

  lemma Touch()
    ensures Serialize(InjectTouch(0, 0x1234567887654321, POSITION, 0xFFFF, 1, 2))
         == [2] + [0] + [0x12, 0x34, 0x56, 0x78, 0x87, 0x65, 0x43, 0x21] + PositionBytes(POSITION)
            + [0xFF, 0xFF] + [0, 0, 0, 1] + [0, 0, 0, 2]
  {
    PointerFormat();
    TouchFields();
  }

  lemma Scroll()
    ensures Serialize(InjectScroll(POSITION, 0x7FFF, 0x8000, 1))
         == [3] + PositionBytes(POSITION) + [0x7F, 0xFF] + [0x80, 0] + [0, 0, 0, 1]
  {
  }

  lemma TextFormat()
    ensures StringBytes(HELLO, CLIPBOARD_TEXT_MAX_LENGTH) == [0, 0, 0, 5] + HELLO
  {
    assert HELLO[..5] == HELLO;
  }

  lemma Clipboard()
    ensures Serialize(SetClipboard(0x0102030405060708, true, HELLO))
         == [9] + [1, 2, 3, 4, 5, 6, 7, 8] + [1] + ([0, 0, 0, 5] + HELLO)
  {
    TextFormat();
    SequenceFormat();
  }

  lemma Uhid()
    ensures Serialize(UhidCreate(42, 0x1234, 0x5678, Some([65, 66, 67]), [1, 2, 3]))
         == [12] + [0, 42] + [0x12, 0x34] + [0x56, 0x78] + [3] + [65, 66, 67] + [0, 3] + [1, 2, 3]
    ensures Serialize(UhidInput(42, [1, 2, 3, 4, 5])) == [13] + [0, 42] + [0, 5] + [1, 2, 3, 4, 5]
    ensures Serialize(UhidDestroy(42)) == [14] + [0, 42]
  {
    assert ([65, 66, 67])[..3] == [65, 66, 67];
  }
}
