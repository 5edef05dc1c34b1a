/** The two calls of the audio regulator (audio_regulator.c), each alone, over the ring in place.
    Module AudioRegulator has their interleaving. */
module RegulatorCalls {
  import opened Arithmetic
  import opened AudioBuffer
  import AudioRegulator
  import opened Ring

  /** After a discontinuity, `offered` extends what is buffered with silence only, so that with the
      input samples it reaches the target, unless it was already there. */
  predicate Bridged(before: seq<Sample>, offered: seq<Sample>, target: nat, input: nat)
  {
    && before <= offered && (forall i :: |before| <= i < |offered| ==> offered[i] == Silence)
    && |offered| + input == Max(target, |before| + input)
  }

  class Regulator {
    const config: AudioRegulator.Config
    const buf: AudioBuf
    var played: bool

    ghost predicate Valid()
      reads this, buf
    {
      && AudioRegulator.ValidConfig(config)
      && buf.Valid() && buf.Capacity() == AudioRegulator.Capacity(config)
    }

    constructor (config: AudioRegulator.Config)
      requires AudioRegulator.ValidConfig(config)
      ensures Valid() && this.config == config && !played
      ensures fresh(buf) && fresh(buf.data) && buf.Buffered() == []
    {
      this.config, played := config, false;
      buf := new AudioBuf(AudioRegulator.Capacity(config));
    }

    /** memset of the end of the output. */
    method FillSilence(out: array<Sample>, from: nat)
      requires from <= out.Length
      modifies out
      ensures out[..from] == old(out[..from])
      ensures forall i :: from <= i < out.Length ==> out[i] == Silence
    {
      ClearRange(out, from, out.Length - from);
    }

    /** The output gets the oldest samples then silence; only silence until the target buffering
        is reached for the first time. */
    method Pull(out: array<Sample>)
      requires Valid() && out.Length > 0 && out != buf.data
      modifies this`played, buf`tail, out
      ensures Valid()
      ensures var before := old(buf.Buffered());
              var read := if !old(played) && |before| < config.target then 0 else Min(out.Length, |before|);
              && out[..read] == before[..read] && buf.Buffered() == before[read..]
              && (forall i :: read <= i < out.Length ==> out[i] == Silence)
              && played == (old(played) || |before| >= config.target)
    {
      if !played {
        var buffered := buf.CanReadSamples();
        if buffered < config.target {
          FillSilence(out, 0);
          return;
        }
      }
      var read := buf.Read(out, out.Length);
      if read < out.Length {
        FillSilence(out, read);
      }
      played := true;
    }

    /** Writes `src`, which is in `swr` at `start`, as far as it fits. */
    method WriteFitting(swr: array<Sample>, start: nat, ghost src: seq<Sample>, count: nat) returns (written: nat)
      requires Valid() && swr != buf.data && |src| == count && start + count <= swr.Length && swr[start..start + count] == src
      modifies buf`head, buf.data
      ensures Valid() && written == Min(count, buf.Capacity() - |old(buf.Buffered())|)
      ensures buf.Buffered() == old(buf.Buffered()) + src[..written]
      ensures swr[start + written..start + count] == src[written..]
    {
      ghost var all := swr[..];
      CanReadMeaning(buf.data.Length, buf.head, buf.tail);
      written := buf.Write(swr, start, count);
      assert swr[..] == all;
      SliceOfSlice(all, start, start + count, written);
    }

    /** The last two stages of the write, with a full ring: again, then dropping and writing. */
    method WriteDropping(swr: array<Sample>, start: nat, ghost src: seq<Sample>, remaining: nat)
      requires Valid() && swr != buf.data && 0 < remaining == |src|
      requires start + remaining <= swr.Length && swr[start..start + remaining] == src
      requires |buf.Buffered()| == buf.Capacity() >= remaining
      modifies buf`head, buf`tail, buf.data
      ensures Valid() && buf.Buffered() == old(buf.Buffered())[remaining..] + src
    {
      var again := WriteFitting(swr, start, src, remaining);
      assert again == 0 && buf.Buffered() == old(buf.Buffered());
      var skipped := buf.Read(null, remaining);
      assert skipped == remaining;
      var w := WriteFitting(swr, start, src, remaining);
      assert w == remaining && src[..w] == src;
    }

    /** The three-stage write: without lock, again with the lock, then after dropping. */
    method WriteNewest(swr: array<Sample>, start: nat, ghost src: seq<Sample>, samples: nat)
      requires Valid() && swr != buf.data && |src| == samples <= buf.Capacity()
      requires start + samples <= swr.Length && swr[start..start + samples] == src
      modifies buf`head, buf`tail, buf.data
      ensures Valid()
      ensures buf.Buffered() == AudioRegulator.Newest(old(buf.Buffered()) + src, buf.Capacity())
    {
      ghost var before := buf.Buffered();
      CanReadMeaning(buf.data.Length, buf.head, buf.tail);
      var written := WriteFitting(swr, start, src, samples);
      if written < samples {
        WriteDropping(swr, start + written, src[written..], samples - written);
        NewestSplit(before, src, written, samples - written);
      } else {
        assert src[..written] == src;
      }
    }

    /** Keeps the newest samples below the level that depends on whether playback started. */
    method SkipOldest(max: nat)
      requires Valid()
      modifies buf`tail
      ensures Valid() && buf.Buffered() == AudioRegulator.Newest(old(buf.Buffered()), max)
    {
      var canRead := buf.CanReadSamples();
      if canRead > max {
        var skip := canRead - max;
        var r := buf.Read(null, skip);
        assert r == skip;
      }
    }

    /** The silence of a discontinuity. */
    method BridgeGap(input: nat)
      requires Valid()
      modifies buf`head, buf.data
      ensures Valid() && Bridged(old(buf.Buffered()), buf.Buffered(), config.target, input)
    {
      var canRead := buf.CanReadSamples();
      if input + canRead < config.target {
        var silence := config.target - canRead - input;
        var written := buf.WriteSilence(silence);
        assert written == silence;
      }
    }

    /** `swr` holds the resampled frame, if resampling succeeded. The ring keeps the newest of what
        is offered to it: what it held, the silence for a discontinuity and the frame. */
    method Push(swr: array<Sample>, produced: nat, resampled: bool, input: nat, discontinuity: bool)
      returns (ok: bool, ghost offered: seq<Sample>)
      requires Valid() && swr != buf.data && produced <= swr.Length
      modifies buf`head, buf`tail, buf.data
      ensures Valid() && ok == resampled
      ensures if discontinuity then Bridged(old(buf.Buffered()), offered, config.target, input)
              else offered == old(buf.Buffered())
      ensures !resampled ==> buf.Buffered() == offered
      ensures discontinuity && !resampled && |old(buf.Buffered())| + input < config.target ==>
                |buf.Buffered()| + input == config.target
      ensures resampled ==>
                buf.Buffered() == AudioRegulator.Newest(AudioRegulator.Newest(offered + swr[..produced], buf.Capacity()),
                                                        AudioRegulator.MaxBuffered(config, played))
    {
      if discontinuity {
        BridgeGap(input);
      }
      offered := buf.Buffered();
      if !resampled {
        return false, offered;
      }
      var (start, samples) := (0, produced);
      if samples > buf.Capacity() {
        start, samples := samples - buf.Capacity(), buf.Capacity();
      }
      ghost var frame := swr[..produced];
      assert swr[start..start + samples] == frame[start..];
      WriteNewest(swr, start, frame[start..], samples);
      NewestSuffix(offered, frame, start, buf.Capacity());
      SkipOldest(AudioRegulator.MaxBuffered(config, played));
      return true, offered;
    }
  }

  lemma SliceOfSlice(s: seq<Sample>, i: nat, j: nat, k: nat)
    requires i + k <= j <= |s|
    ensures s[i..i + k] == s[i..j][..k] && s[i + k..j] == s[i..j][k..]
  {
  }

  lemma NewestSplit(before: seq<Sample>, src: seq<Sample>, written: nat, dropped: nat)
    requires written + dropped == |src| && dropped <= |before| + written
    ensures (before + src[..written])[dropped..] + src[written..] == AudioRegulator.Newest(before + src, |before| + written)
  {
    assert before + src == (before + src[..written]) + src[written..];
  }

  /** Samples beyond a whole buffer cannot be among the newest ones kept. */
  lemma NewestSuffix(before: seq<Sample>, src: seq<Sample>, start: nat, limit: nat)
    requires start == if |src| > limit then |src| - limit else 0
    ensures AudioRegulator.Newest(before + src[start..], limit) == AudioRegulator.Newest(before + src, limit)
  {
    if |src| > limit {
      assert (before + src)[|before + src| - limit..] == src[start..];
      assert (before + src[start..])[|before|..] == src[start..];
    } else {
      assert src[0..] == src;
    }
  }
}
