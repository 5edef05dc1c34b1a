/** struct sc_audiobuf: the ring filled and emptied in place (util/audiobuf.c). Each method is
    one call without interference; the interleaved accesses are in audio_regulator.dfy. */
module AudioBuffer {
  import opened Arithmetic
  import opened Ring

  /** memcpy(dst + at, src + from, count). */
  method CopyRange(dst: array<Sample>, at: nat, src: array<Sample>, from: nat, count: nat)
    requires dst != src && at + count <= dst.Length && from + count <= src.Length
    modifies dst
    ensures forall i | 0 <= i < dst.Length ::
              dst[i] == if at <= i < at + count then src[from + i - at] else old(dst[i])
  {
    for k := 0 to count
      invariant forall i | 0 <= i < dst.Length ::
                  dst[i] == if at <= i < at + k then src[from + i - at] else old(dst[i])
    {
      dst[at + k] := src[from + k];
    }
  }

  /** memset(dst + at, 0, count). */
  method ClearRange(dst: array<Sample>, at: nat, count: nat)
    requires at + count <= dst.Length
    modifies dst
    ensures forall i | 0 <= i < dst.Length ::
              dst[i] == if at <= i < at + count then Silence else old(dst[i])
  {
    for k := 0 to count
      invariant forall i | 0 <= i < dst.Length ::
                  dst[i] == if at <= i < at + k then Silence else old(dst[i])
    {
      dst[at + k] := Silence;
    }
  }

  class AudioBuf {
    const data: array<Sample>
    var head: nat
    var tail: nat

    ghost predicate Valid()
      reads this
    {
      1 < data.Length <= 0x8000_0000 && head < data.Length && tail < data.Length
    }

    /** The samples that can still be read, oldest first. */
    ghost function Buffered(): seq<Sample>
      requires Valid()
      reads this, data
    {
      Contents(data[..], head, tail)
    }

    constructor (capacity: nat)
      requires 0 < capacity < 0x8000_0000
      ensures Valid() && fresh(data) && Capacity() == capacity && Buffered() == []
    {
      data := new Sample[capacity + 1];
      head, tail := 0, 0;
    }

    function Capacity(): nat
    {
      if data.Length == 0 then 0 else data.Length - 1
    }

    method CanReadSamples() returns (count: nat)
      requires Valid()
      ensures count == |Buffered()| <= Capacity()
    {
      CanReadMeaning(data.Length, head, tail);
      count := CanRead(data.Length, head, tail);
    }

    /** The two memcpy of a read: the right part of the ring, then the left part. */
    method CopyOldest(to: array<Sample>, samples: nat)
      requires Valid() && to != data && samples <= |Buffered()| && samples <= to.Length
      modifies to
      ensures forall i | 0 <= i < samples :: to[i] == Buffered()[i]
      ensures forall i | samples <= i < to.Length :: to[i] == old(to[i])
    {
      var right := data.Length - tail;
      if right > samples {
        right := samples;
      }
      CopyRange(to, 0, data, tail, right);
      if samples > right {
        CopyRange(to, right, data, 0, samples - right);
      }
    }

    /** Removes up to `count` of the oldest samples, storing them in `to` unless it is null. */
    method Read(to: array?<Sample>, count: nat) returns (read: nat)
      requires Valid() && 0 < count
      requires to != null ==> to != data && count <= to.Length
      modifies this`tail
      modifies if to != null then {to} else {}
      ensures Valid()
      ensures read == Min(count, |old(Buffered())|)
      ensures Buffered() == old(Buffered())[read..]
      ensures to != null ==> to[..read] == old(Buffered())[..read]
      ensures to != null ==> to[read..] == old(to[read..])
    {
      var n := data.Length;
      CanReadMeaning(n, head, tail);
      var canRead := CanRead(n, head, tail);
      if canRead == 0 {
        return 0;
      }
      var samples := if count > canRead then canRead else count;
      if to != null {
        CopyOldest(to, samples);
        assert to[..samples] == Buffered()[..samples];
      }
      AdvanceMeaning(n, tail, samples);
      Release(data[..], head, tail, samples);
      tail := Advance(n, tail, samples);
      return samples;
    }

    /** The two memcpy of a write into the free slots: the right part, then the left part. */
    method StoreFree(from: array<Sample>, start: nat, samples: nat)
      requires Valid() && samples < data.Length - |Buffered()| && from != data && start + samples <= from.Length
      modifies data
      ensures Buffered() == old(Buffered())
      ensures forall i | 0 <= i < samples :: data[Slot(data.Length, head, i)] == from[start + i]
    {
      ghost var before := data[..];
      var right := data.Length - head;
      if right > samples {
        right := samples;
      }
      CopyRange(data, head, from, start, right);
      if samples > right {
        CopyRange(data, 0, from, start + right, samples - right);
      }
      assert Contents(data[..], head, tail) == Contents(before, head, tail);
    }

    /** The two memset of a write into the free slots: the right part, then the left part. */
    method ClearFree(samples: nat)
      requires Valid() && samples < data.Length - |Buffered()|
      modifies data
      ensures Buffered() == old(Buffered())
      ensures forall i | 0 <= i < samples :: data[Slot(data.Length, head, i)] == Silence
    {
      ghost var before := data[..];
      var right := data.Length - head;
      if right > samples {
        right := samples;
      }
      ClearRange(data, head, right);
      if samples > right {
        ClearRange(data, 0, samples - right);
      }
      assert Contents(data[..], head, tail) == Contents(before, head, tail);
    }

    /** Appends the longest prefix of `from[start..start + count]` that fits. */
    method Write(from: array<Sample>, start: nat, count: nat) returns (written: nat)
      requires Valid() && from != data && start + count <= from.Length
      modifies this`head, data
      ensures Valid()
      ensures written == Min(count, Capacity() - |old(Buffered())|)
      ensures Buffered() == old(Buffered()) + from[start..start + written]
    {
      var n := data.Length;
      CanWriteMeaning(n, head, tail);
      var canWrite := CanWrite(n, head, tail);
      if canWrite == 0 {
        assert Buffered() + from[start..start] == Buffered();
        return 0;
      }
      var samples := if count > canWrite then canWrite else count;
      StoreFree(from, start, samples);
      AdvanceMeaning(n, head, samples);
      Publish(data[..], head, tail, samples, from[start..start + samples]);
      head := Advance(n, head, samples);
      return samples;
    }

    /** Appends as much silence as fits, up to `count` samples. */
    method WriteSilence(count: nat) returns (written: nat)
      requires Valid()
      modifies this`head, data
      ensures Valid()
      ensures written == Min(count, Capacity() - |old(Buffered())|)
      ensures Buffered() == old(Buffered()) + seq(written, _ => Silence)
    {
      var n := data.Length;
      CanWriteMeaning(n, head, tail);
      var canWrite := CanWrite(n, head, tail);
      if canWrite == 0 {
        assert Buffered() + seq(0, _ => Silence) == Buffered();
        return 0;
      }
      var samples := if count > canWrite then canWrite else count;
      ClearFree(samples);
      AdvanceMeaning(n, head, samples);
      Publish(data[..], head, tail, samples, seq(samples, _ => Silence));
      head := Advance(n, head, samples);
      return samples;
    }
  }
}
