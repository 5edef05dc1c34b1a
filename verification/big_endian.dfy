/** Big-endian integers in byte buffers (util/binary.h). */
module BigEndian {

  type Byte = b: int | 0 <= b < 0x100
  type U16 = x: int | 0 <= x < 0x1_0000
  type U32 = x: int | 0 <= x < 0x1_0000_0000
  type U64 = x: int | 0 <= x < 0x1_0000_0000_0000_0000

  function Be16(x: U16): (b: seq<Byte>)
    ensures |b| == 2
  {
    [x / 0x100, x % 0x100]
  }

  function Be32(x: U32): (b: seq<Byte>)
    ensures |b| == 4
  {
    [x / 0x100_0000, x / 0x1_0000 % 0x100, x / 0x100 % 0x100, x % 0x100]
  }

  function Be64(x: U64): (b: seq<Byte>)
    ensures |b| == 8
  {
    Be32(x / 0x1_0000_0000) + Be32(x % 0x1_0000_0000)
  }

  function Read16(b: seq<Byte>, at: nat): U16
    requires at + 2 <= |b|
  {
    var (b0: int, b1: int) := (b[at], b[at + 1]);
    b0 * 0x100 + b1
  }

  function Read32(b: seq<Byte>, at: nat): U32
    requires at + 4 <= |b|
  {
    var (b0: int, b1: int, b2: int, b3: int) := (b[at], b[at + 1], b[at + 2], b[at + 3]);
    b0 * 0x100_0000 + b1 * 0x1_0000 + b2 * 0x100 + b3
  }

  function Read64(b: seq<Byte>, at: nat): U64
    requires at + 8 <= |b|
  {
    var (high: int, low: int) := (Read32(b, at), Read32(b, at + 4));
    high * 0x1_0000_0000 + low
  }

  /** What is written at an offset is read back, whatever surrounds it. */
  lemma RoundTrip16(b: seq<Byte>, at: nat, x: U16)
    requires at + 2 <= |b| && b[at..at + 2] == Be16(x)
    ensures Read16(b, at) == x
  {
    assert b[at] == Be16(x)[0] && b[at + 1] == Be16(x)[1];
  }

  lemma RoundTrip32(b: seq<Byte>, at: nat, x: U32)
    requires at + 4 <= |b| && b[at..at + 4] == Be32(x)
    ensures Read32(b, at) == x
  {
    var d := Be32(x);
    assert b[at] == d[0] && b[at + 1] == d[1] && b[at + 2] == d[2] && b[at + 3] == d[3];
    Digits(x);
  }

  lemma RoundTrip64(b: seq<Byte>, at: nat, x: U64)
    requires at + 8 <= |b| && b[at..at + 8] == Be64(x)
    ensures Read64(b, at) == x
  {
    assert b[at..at + 4] == b[at..at + 8][..4] && b[at + 4..at + 8] == b[at..at + 8][4..];
    RoundTrip32(b, at, x / 0x1_0000_0000);
    RoundTrip32(b, at + 4, x % 0x1_0000_0000);
  }

  lemma Digits(x: U32)
    ensures x == x / 0x100_0000 * 0x100_0000 + x / 0x1_0000 % 0x100 * 0x1_0000 + x / 0x100 % 0x100 * 0x100 + x % 0x100
  {
    var (a: int, b: int, c: int) := (x / 0x100, x / 0x1_0000, x / 0x100_0000);
    LowByte(x);
    LowByte(a);
    LowByte(b);
    assert a / 0x100 == b && b / 0x100 == c;
  }

  lemma LowByte(x: int)
    ensures x == x / 0x100 * 0x100 + x % 0x100
  {
  }

  /** Conversely every buffer is what is written for the value it reads as. */
  lemma WriteOfRead(b: seq<Byte>, at: nat)
    requires at + 4 <= |b|
    ensures Be16(Read16(b, at)) == b[at..at + 2]
    ensures Be32(Read32(b, at)) == b[at..at + 4]
  {
    var (b0: int, b1: int, b2: int, b3: int) := (b[at], b[at + 1], b[at + 2], b[at + 3]);
    var x := Read32(b, at);
    assert x == ((b0 * 0x100 + b1) * 0x100 + b2) * 0x100 + b3;
    assert x / 0x100 == (b0 * 0x100 + b1) * 0x100 + b2;
    assert x / 0x1_0000 == b0 * 0x100 + b1;
    assert x / 0x100_0000 == b0;
  }

  /** The number with these digits in base 256, the most significant first. */
  function Value(b: seq<Byte>): nat
  {
    if b == [] then 0 else Value(b[..|b| - 1]) * 0x100 + b[|b| - 1]
  }

  lemma ValueStep(b: seq<Byte>, x: Byte)
    ensures Value(b + [x]) == Value(b) * 0x100 + x
  {
    assert (b + [x])[..|b|] == b;
  }

  lemma ValueOfFour(b: seq<Byte>, c: seq<Byte>)
    requires |c| == 4
    ensures Value(b + c) == Value(b) * 0x1_0000_0000 + Read32(c, 0)
  {
    var (b1, b2, b3) := (b + [c[0]], b + [c[0]] + [c[1]], b + [c[0]] + [c[1]] + [c[2]]);
    assert b + c == b3 + [c[3]];
    ValueStep(b, c[0]);
    ValueStep(b1, c[1]);
    ValueStep(b2, c[2]);
    ValueStep(b3, c[3]);
  }

  /** Reading and writing use the most significant byte first. */
  lemma MostSignificantFirst(b: seq<Byte>)
    ensures |b| == 2 ==> Read16(b, 0) == Value(b)
    ensures |b| == 4 ==> Read32(b, 0) == Value(b)
    ensures |b| == 8 ==> Read64(b, 0) == Value(b)
  {
    if |b| == 2 {
      ValueStep([], b[0]);
      ValueStep([b[0]], b[1]);
      assert b == [b[0]] + [b[1]] && [] + [b[0]] == [b[0]];
    }
    if |b| == 4 {
      ValueOfFour([], b);
      assert [] + b == b;
    }
    if |b| == 8 {
      assert [] + b[..4] == b[..4];
      ValueOfFour([], b[..4]);
      ValueOfFour(b[..4], b[4..]);
      assert b[..4] + b[4..] == b;
    }
  }

  // ---- the in-place writers; each appends to a written prefix and leaves the rest alone

  method PutByte(buf: array<Byte>, at: nat, x: Byte)
    requires at < buf.Length
    modifies buf
    ensures buf[..at + 1] == old(buf[..at]) + [x]
    ensures buf[at + 1..] == old(buf[at + 1..])
  {
    buf[at] := x;
  }

  method Put16(buf: array<Byte>, at: nat, x: U16)
    requires at + 2 <= buf.Length
    modifies buf
    ensures buf[..at + 2] == old(buf[..at]) + Be16(x)
    ensures buf[at + 2..] == old(buf[at + 2..])
  {
    buf[at] := x / 0x100;
    buf[at + 1] := x % 0x100;
  }

  method Put32(buf: array<Byte>, at: nat, x: U32)
    requires at + 4 <= buf.Length
    modifies buf
    ensures buf[..at + 4] == old(buf[..at]) + Be32(x)
    ensures buf[at + 4..] == old(buf[at + 4..])
  {
    buf[at] := x / 0x100_0000;
    buf[at + 1] := x / 0x1_0000 % 0x100;
    buf[at + 2] := x / 0x100 % 0x100;
    buf[at + 3] := x % 0x100;
  }

  method Put64(buf: array<Byte>, at: nat, x: U64)
    requires at + 8 <= buf.Length
    modifies buf
    ensures buf[..at + 8] == old(buf[..at]) + Be64(x)
    ensures buf[at + 8..] == old(buf[at + 8..])
  {
    Put32(buf, at, x / 0x1_0000_0000);
    label high:
    Put32(buf, at + 4, x % 0x1_0000_0000);
    assert buf[at + 8..] == old@high(buf[at + 4..])[4..];
  }

  /** memcpy of `data` into the buffer. */
  method PutBytes(buf: array<Byte>, at: nat, data: seq<Byte>)
    requires at + |data| <= buf.Length
    modifies buf
    ensures buf[..at + |data|] == old(buf[..at]) + data
    ensures buf[at + |data|..] == old(buf[at + |data|..])
  {
    for k := 0 to |data|
      invariant buf[..at + k] == old(buf[..at]) + data[..k]
      invariant buf[at + k..] == old(buf[at + k..])
    {
      buf[at + k] := data[k];
    }
  }
}
