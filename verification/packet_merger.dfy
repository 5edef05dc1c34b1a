/** Prepending each config packet to the media packet that follows it (packet_merger.c). */
module PacketMerger {
  import opened BigEndian
  import opened Optional

  datatype Packet = Packet(isConfig: bool, data: seq<Byte>)

  /** The config kept after a packet, and the packet as it is passed on. */
  function Merged(config: Option<seq<Byte>>, p: Packet): (Option<seq<Byte>>, Packet)
  {
    if p.isConfig then (Some(p.data), p)
    else if config.Some? then (None, Packet(false, config.value + p.data))
    else (None, p)
  }

  class Merger {
    var config: Option<seq<Byte>>

    constructor ()
      ensures config == None
    {
      config := None;
    }

    /** Media data is moved within the grown buffer to make room for the config. */
    method Merge(isConfig: bool, data: array<Byte>) returns (merged: array<Byte>)
      modifies this, data
      ensures merged == data || fresh(merged)
      ensures (config, Packet(isConfig, merged[..])) == Merged(old(config), Packet(isConfig, old(data[..])))
    {
      merged := data;
      if isConfig {
        config := Some(data[..]);
      } else if config.Some? {
        var configSize := |config.value|;
        merged := Grow(data, configSize);
        MoveUp(merged, data.Length, configSize);
        CopyIn(merged, config.value);
        assert merged[..] == merged[..configSize] + merged[configSize..];
        config := None;
      }
    }
  }

  method Grow(data: array<Byte>, shift: nat) returns (grown: array<Byte>)
    ensures fresh(grown) && grown.Length == data.Length + shift && grown[..data.Length] == data[..]
  {
    grown := new Byte[data.Length + shift](_ => 0);
    for i := 0 to data.Length
      invariant grown[..i] == data[..i]
    {
      grown[i] := data[i];
    }
    assert data[..data.Length] == data[..];
  }

  /** memmove of the first `size` bytes by `shift` bytes: the areas overlap. */
  method MoveUp(data: array<Byte>, size: nat, shift: nat)
    requires data.Length == size + shift
    modifies data
    ensures data[shift..] == old(data[..size])
  {
    for i := size downto 0
      invariant forall k :: 0 <= k < i ==> data[k] == old(data[k])
      invariant forall k :: i <= k < size ==> data[shift + k] == old(data[k])
    {
      data[shift + i] := data[i];
    }
    assert forall k :: 0 <= k < size ==> data[shift..][k] == data[shift + k];
  }

  method CopyIn(data: array<Byte>, src: seq<Byte>)
    requires |src| <= data.Length
    modifies data
    ensures data[..|src|] == src && data[|src|..] == old(data[|src|..])
  {
    for i := 0 to |src|
      invariant data[..i] == src[..i] && data[|src|..] == old(data[|src|..])
    {
      data[i] := src[i];
    }
  }

  /** The config kept, and the packets passed on, after a run. */
  function After(packets: seq<Packet>): (Option<seq<Byte>>, seq<Packet>)
  {
    if packets == [] then (None, []) else
      var (config, out) := After(packets[..|packets| - 1]);
      var (next, p) := Merged(config, packets[|packets| - 1]);
      (next, out + [p])
  }

  /** All the bytes of the media packets. */
  function MediaBytes(packets: seq<Packet>): seq<Byte>
  {
    if packets == [] then [] else
      var last := packets[|packets| - 1];
      MediaBytes(packets[..|packets| - 1]) + if last.isConfig then [] else last.data
  }

  /** The bytes before the last packet, but for the config packets directly replaced by another. */
  function SettledBytes(packets: seq<Packet>): seq<Byte>
  {
    if |packets| <= 1 then [] else
      (if packets[0].isConfig && packets[1].isConfig then [] else packets[0].data) + SettledBytes(packets[1..])
  }

  function LastBytes(packets: seq<Packet>): seq<Byte>
  {
    if packets == [] then [] else packets[|packets| - 1].data
  }

  /** With one more packet, the one before it is settled, or replaced. */
  lemma {:induction false} SettledPush(packets: seq<Packet>, p: Packet)
    requires packets != []
    ensures SettledBytes(packets + [p])
            == SettledBytes(packets) + if packets[|packets| - 1].isConfig && p.isConfig then [] else LastBytes(packets)
  {
    var (all, rest) := (packets + [p], packets[1..]);
    assert all[1..] == rest + [p] && all[0] == packets[0];
    if |packets| == 1 {
      assert SettledBytes(all[1..]) == [];
    } else {
      SettledPush(rest, p);
      assert all[1] == packets[1] && LastBytes(rest) == LastBytes(packets);
      var first := if packets[0].isConfig && packets[1].isConfig then [] else packets[0].data;
      assert SettledBytes(all) == first + SettledBytes(rest + [p]);
      assert SettledBytes(packets) == first + SettledBytes(rest);
    }
  }

  /** No media byte is lost or reordered, and each config packet that is not replaced comes just
      before the media packet that follows it; the one after the last media packet is kept. */
  lemma {:induction false} BytesConserved(packets: seq<Packet>)
    ensures var (config, out) := After(packets);
            && |out| == |packets|
            && config == (if packets != [] && packets[|packets| - 1].isConfig then Some(LastBytes(packets)) else None)
            && MediaBytes(out) == SettledBytes(packets) + if config.Some? then [] else LastBytes(packets)
  {
    if packets != [] {
      var (before, p) := (packets[..|packets| - 1], packets[|packets| - 1]);
      BytesConserved(before);
      var (config, out) := After(before);
      assert (out + [Merged(config, p).1])[..|out|] == out;
      if before != [] {
        assert packets == before + [p];
        SettledPush(before, p);
      }
    }
  }
}
