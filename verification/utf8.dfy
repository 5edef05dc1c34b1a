/** Truncation of UTF-8 text to a number of bytes (util/str.c). */
module Utf8 {
  import opened BigEndian

  /** A byte 10xxxxxx: not the start of a character. */
  predicate IsContinuation(b: Byte) { 0x80 <= b < 0xC0 }

  // ---- validity, after the syntax of section 4 of RFC 3629

  predicate Between(s: seq<Byte>, i: nat, lo: int, hi: int)
  {
    i < |s| && lo <= s[i] <= hi
  }

  predicate Tail(s: seq<Byte>, i: nat) { Between(s, i, 0x80, 0xBF) }

  /** The length of the well-formed character at the start of `s`, 0 if there is none. */
  function CharLength(s: seq<Byte>): (n: nat)
    ensures n <= |s| && n <= 4
  {
    if Between(s, 0, 0x00, 0x7F) then 1
    else if Between(s, 0, 0xC2, 0xDF) && Tail(s, 1) then 2
    else if Tail(s, 2) && ((Between(s, 0, 0xE0, 0xE0) && Between(s, 1, 0xA0, 0xBF))
                           || (Between(s, 0, 0xE1, 0xEC) && Tail(s, 1))
                           || (Between(s, 0, 0xED, 0xED) && Between(s, 1, 0x80, 0x9F))
                           || (Between(s, 0, 0xEE, 0xEF) && Tail(s, 1))) then 3
    else if Tail(s, 2) && Tail(s, 3) && ((Between(s, 0, 0xF0, 0xF0) && Between(s, 1, 0x90, 0xBF))
                                         || (Between(s, 0, 0xF1, 0xF3) && Tail(s, 1))
                                         || (Between(s, 0, 0xF4, 0xF4) && Between(s, 1, 0x80, 0x8F))) then 4
    else 0
  }

  predicate Valid(s: seq<Byte>)
  {
    s == [] || (0 < CharLength(s) && Valid(s[CharLength(s)..]))
  }

  // ---- the truncation

  /** The last index not above `len` whose byte starts a character. */
  function Backward(s: seq<Byte>, len: nat): (index: nat)
    requires len < |s| && !IsContinuation(s[0])
    ensures index <= len && !IsContinuation(s[index])
    ensures forall i | index < i <= len :: IsContinuation(s[i])
  {
    if IsContinuation(s[len]) then Backward(s, len - 1) else len
  }

  function TruncationIndex(s: seq<Byte>, maxLen: nat): (index: nat)
    requires |s| <= maxLen || !IsContinuation(s[0])
    ensures index <= |s| && index <= maxLen
  {
    if |s| <= maxLen then |s| else Backward(s, maxLen)
  }

  method ComputeTruncationIndex(utf8: seq<Byte>, maxLen: nat) returns (len: nat)
    requires |utf8| <= maxLen || !IsContinuation(utf8[0])
    ensures len == TruncationIndex(utf8, maxLen)
  {
    len := |utf8|;
    if len <= maxLen {
      return;
    }
    len := maxLen;
    while IsContinuation(utf8[len])
      invariant len <= maxLen
      invariant Backward(utf8, len) == Backward(utf8, maxLen)
      decreases len
    {
      len := len - 1;
    }
  }

  lemma CharLengthPrefix(s: seq<Byte>, i: nat)
    requires 0 < CharLength(s) && i <= |s|
    ensures CharLength(s[..i]) == if CharLength(s) <= i then CharLength(s) else 0
  {
  }

  lemma SliceOfSlice(s: seq<Byte>, n: nat, i: nat)
    requires n <= i <= |s|
    ensures s[..i][n..] == s[n..][..i - n]
  {
    forall k | 0 <= k < i - n
      ensures s[..i][n..][k] == s[n..][..i - n][k]
    {
      assert s[..i][n..][k] == s[n + k] == s[n..][k];
    }
  }

  /** Inside valid text, the valid prefixes are those followed by the start of a character. */
  lemma {:induction false} ValidPrefix(s: seq<Byte>, i: nat)
    requires Valid(s) && i < |s|
    ensures Valid(s[..i]) <==> !IsContinuation(s[i])
    decreases |s|
  {
    var n := CharLength(s);
    if i > 0 {
      CharLengthPrefix(s, i);
      if n <= i {
        SliceOfSlice(s, n, i);
        assert s[n..][i - n] == s[i];
        ValidPrefix(s[n..], i - n);
      }
    }
  }

  /** On valid text, the result is the longest prefix within the limit that is valid. */
  lemma LongestValidPrefix(s: seq<Byte>, maxLen: nat)
    requires Valid(s)
    ensures |s| <= maxLen || !IsContinuation(s[0])
    ensures Valid(s[..TruncationIndex(s, maxLen)])
    ensures forall i | TruncationIndex(s, maxLen) < i <= maxLen && i <= |s| :: !Valid(s[..i])
  {
    if |s| <= maxLen {
      assert s[..|s|] == s;
    } else {
      forall i | 0 <= i <= maxLen
        ensures Valid(s[..i]) <==> !IsContinuation(s[i])
      {
        ValidPrefix(s, i);
      }
    }
  }
}
