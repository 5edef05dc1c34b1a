/** The cursor arithmetic and the abstract contents of the audio ring (util/audiobuf.h,
    util/audiobuf.c). A ring of n slots holds at most n - 1 samples, so that equal cursors
    always mean "empty". */
module Ring {

  /** One sample (all channels); `Silence` is the all-zero pattern. */
  type Sample = int
  const Silence: Sample := 0

  /** The value of an integer computed in uint32_t arithmetic. */
  function U32(x: int): nat { x % 0x1_0000_0000 }

  // ---- the expressions of the source, in its own integer width

  function CanRead(n: nat, head: nat, tail: nat): (count: nat)
    requires n > 0
    ensures count < n
  {
    U32(U32(n + head) - tail) % n
  }

  function CanWrite(n: nat, head: nat, tail: nat): (count: nat)
    requires n > 0
    ensures count < n
  {
    U32(U32(U32(n + tail) - head) - 1) % n
  }

  function Advance(n: nat, cursor: nat, count: nat): (next: nat)
    requires n > 0
    ensures next < n
  {
    U32(cursor + count) % n
  }

  // ---- what they mean

  /** The number of slots from `tail` forward to `head`. */
  function Distance(n: nat, head: nat, tail: nat): nat
    requires head < n && tail < n
  {
    if tail <= head then head - tail else n - tail + head
  }

  /** The slot `i` positions after `cursor`: the right part first, then the left part. */
  function Slot(n: nat, cursor: nat, i: nat): (slot: nat)
    requires cursor < n && i <= n
    ensures slot < n
  {
    if cursor + i < n then cursor + i else cursor + i - n
  }

  /** The samples published and not yet released, oldest first. */
  function Contents(data: seq<Sample>, head: nat, tail: nat): (c: seq<Sample>)
    requires head < |data| && tail < |data|
  {
    seq(Distance(|data|, head, tail), i requires 0 <= i < Distance(|data|, head, tail) =>
      data[Slot(|data|, tail, i)])
  }

  lemma ModOnce(x: int, n: nat)
    requires 0 < n && 0 <= x < 2 * n
    ensures x % n == if x < n then x else x - n
  {
    if x >= n {
      assert x == 1 * n + (x - n);
    }
  }

  /** Adding then subtracting in uint32_t is exact when the final value fits. */
  lemma U32Exact(a: nat, b: nat, c: nat)
    requires 0 <= a - b - c < 0x1_0000_0000
    ensures U32(U32(U32(a) - b) - c) == a - b - c
    ensures c == 0 ==> U32(U32(a) - b) == a - b
  {
  }

  /** With at most 2^31 slots the wrapping expressions mean what they should. */
  lemma CanReadMeaning(n: nat, head: nat, tail: nat)
    requires 0 < n <= 0x8000_0000 && head < n && tail < n
    ensures CanRead(n, head, tail) == Distance(n, head, tail)
  {
    U32Exact(n + head, tail, 0);
    ModOnce(n + head - tail, n);
  }

  lemma CanWriteMeaning(n: nat, head: nat, tail: nat)
    requires 0 < n <= 0x8000_0000 && head < n && tail < n
    ensures CanWrite(n, head, tail) == n - 1 - Distance(n, head, tail)
  {
    U32Exact(n + tail, head, 1);
    ModOnce(n + tail - head - 1, n);
  }

  lemma AdvanceMeaning(n: nat, cursor: nat, count: nat)
    requires 0 < n <= 0x8000_0000 && cursor < n && count < n
    ensures Advance(n, cursor, count) == Slot(n, cursor, count)
  {
    U32Exact(cursor + count, 0, 0);
    ModOnce(cursor + count, n);
  }

  /** The width of the cursors is enough exactly up to 2^31 slots: beyond, a ring that is full
      with its tail at 0 is read as holding another amount. */
  lemma CursorWidthExact(n: nat)
    requires 0 < n < 0x1_0000_0000
    ensures (forall head, tail | 0 <= head < n && 0 <= tail < n ::
               CanRead(n, head, tail) == Distance(n, head, tail)) <==> n <= 0x8000_0000
  {
    if n <= 0x8000_0000 {
      forall head, tail | 0 <= head < n && 0 <= tail < n
        ensures CanRead(n, head, tail) == Distance(n, head, tail)
      {
        CanReadMeaning(n, head, tail);
      }
    } else {
      var wrapped := 2 * n - 1 - 0x1_0000_0000;
      assert U32(n + (n - 1)) == wrapped;
      ModOnce(wrapped, n);
      assert CanRead(n, n - 1, 0) == wrapped != Distance(n, n - 1, 0);
    }
  }

  // ---- how the contents change

  /** Distinct offsets from one cursor are distinct slots. */
  lemma SlotInjective(n: nat, cursor: nat, i: nat, j: nat)
    requires cursor < n && i < n && j < n && i != j
    ensures Slot(n, cursor, i) != Slot(n, cursor, j)
  {
  }

  /** The k-th free slot comes right after the live ones. */
  lemma FreeSlot(n: nat, head: nat, tail: nat, k: nat)
    requires head < n && tail < n && k < n - Distance(n, head, tail)
    ensures Slot(n, head, k) == Slot(n, tail, Distance(n, head, tail) + k)
  {
  }

  /** Storing into a free slot changes neither the contents nor what was stored in the others. */
  lemma StoreInFreeSlot(data: seq<Sample>, head: nat, tail: nat, k: nat, x: Sample)
    requires head < |data| && tail < |data| && k < |data| - 1 - Distance(|data|, head, tail)
    ensures var slot := Slot(|data|, head, k);
            && Contents(data[slot := x], head, tail) == Contents(data, head, tail)
            && forall i | 0 <= i < k :: data[slot := x][Slot(|data|, head, i)] == data[Slot(|data|, head, i)]
  {
  }

  /** Publishing `count` free slots appends what they hold. */
  lemma Publish(data: seq<Sample>, head: nat, tail: nat, count: nat, src: seq<Sample>)
    requires head < |data| && tail < |data| && |src| == count
    requires count <= |data| - 1 - Distance(|data|, head, tail)
    requires forall i | 0 <= i < count :: data[Slot(|data|, head, i)] == src[i]
    ensures Contents(data, Slot(|data|, head, count), tail) == Contents(data, head, tail) + src
  {
    var n := |data|;
    var d := Distance(n, head, tail);
    forall i | d <= i < d + count
      ensures data[Slot(n, tail, i)] == src[i - d]
    {
      FreeSlot(n, head, tail, i - d);
    }
  }

  /** Releasing `count` live slots drops the oldest. */
  lemma Release(data: seq<Sample>, head: nat, tail: nat, count: nat)
    requires head < |data| && tail < |data| && count <= Distance(|data|, head, tail)
    ensures Contents(data, head, Slot(|data|, tail, count)) == Contents(data, head, tail)[count..]
  {
  }
}
