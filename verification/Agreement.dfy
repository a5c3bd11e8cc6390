/** The two implementations read and write the same language of frames. */
module Agreement {
  import opened Seqs
  import opened Wire
  import opened Crc
  import opened Frame
  import HostDecoder
  import Firmware

  /** A stretch of a link's byte stream: a frame, or a byte of noise between frames. */
  datatype Item = Noise(b: byte) | Sent(packet: Packet)

  /** Frames of any kind and noise of any kind. */
  predicate Encodable(items: seq<Item>) {
    forall i | 0 <= i < |items| :: items[i].Sent? ==> Sendable(items[i].packet)
  }

  /** No noise byte is a start byte. */
  predicate Spaced(items: seq<Item>) {
    Encodable(items) && forall i | 0 <= i < |items| :: items[i].Noise? ==> items[i].b != START_BYTE
  }

  /** And every frame is of a kind the host knows. */
  predicate Clean(items: seq<Item>) {
    Spaced(items) && forall i | 0 <= i < |items| :: items[i].Sent? ==> KnownKind(items[i].packet.kind)
  }

  function Bytes(items: seq<Item>): seq<byte>
    requires Encodable(items)
  {
    if items == [] then []
    else (match items[0] case Noise(b) => [b] case Sent(p) => Encode(p)) + Bytes(items[1..])
  }

  function SentPackets(items: seq<Item>): seq<Packet> {
    if items == [] then []
    else (match items[0] case Noise(_) => [] case Sent(p) => [p]) + SentPackets(items[1..])
  }

  /** How many items come before the first frame of unknown kind. */
  function KnownItems(items: seq<Item>): (k: nat)
    ensures k <= |items|
    ensures k < |items| ==> items[k].Sent? && !KnownKind(items[k].packet.kind)
    ensures forall i | 0 <= i < k :: items[i].Sent? ==> KnownKind(items[i].packet.kind)
  {
    if items == [] || (items[0].Sent? && !KnownKind(items[0].packet.kind)) then 0 else 1 + KnownItems(items[1..])
  }

  /** On frames of any kind with start-byte-free noise between them the host delivers the
      packets before the first of unknown kind, raises if and only if there is one, and
      then keeps everything from it on. */
  lemma {:induction false} HostDelivers(items: seq<Item>, at: nat)
    requires Spaced(items)
    ensures var o, k := HostDecoder.Scan(Bytes(items), at), KnownItems(items);
            && HostDecoder.Packets(o.hits) == SentPackets(items[..k]) && o.rest == Bytes(items[k..])
            && (o.raised <==> k < |items|)
    decreases |items|
  {
    hide HostDecoder.Scan, HostDecoder.Examine, HostDecoder.Packets, Encode, Bytes, SentPackets, KnownItems;
    var s := Bytes(items);
    HostDecoder.ScanUnfolds(s, at);
    ItemsUnfold(items);
    NoPackets();
    if items != [] {
      var later, k := Bytes(items[1..]), KnownItems(items);
      match items[0]
      case Noise(b) =>
        HostDelivers(items[1..], at + 1);
      case Sent(p) =>
        var n := |Encode(p)|;
        assert Encode(p) <= s && s[n..] == later;
        HostDecoder.FrameInFront(s, p);
        if k > 0 {
          HostDelivers(items[1..], at + n);
          FirstHit(HostDecoder.Hit(at, p), HostDecoder.Scan(later, at + n).hits);
        }
    }
  }

  lemma NoPackets()
    ensures HostDecoder.Packets([]) == []
  {
  }

  lemma FirstHit(h: HostDecoder.Hit, hits: seq<HostDecoder.Hit>)
    ensures HostDecoder.Packets([h] + hits) == [h.packet] + HostDecoder.Packets(hits)
  {
  }

  /** The first item, and the rest. */
  lemma ItemsUnfold(items: seq<Item>)
    requires Encodable(items)
    ensures items == [] ==> Bytes(items) == [] && SentPackets(items) == [] && KnownItems(items) == 0
    ensures items != [] ==>
            var k, first := KnownItems(items), if items[0].Sent? then [items[0].packet] else [];
            && Bytes(items) == (if items[0].Sent? then Encode(items[0].packet) else [items[0].b]) + Bytes(items[1..])
            && (k == 0 <==> items[0].Sent? && !KnownKind(items[0].packet.kind))
            && (k == 0 ==> SentPackets(items[..k]) == [] && items[k..] == items)
            && (k > 0 ==>
                  && k == 1 + KnownItems(items[1..])
                  && SentPackets(items[..k]) == first + SentPackets(items[1..][..k - 1])
                  && items[k..] == items[1..][k - 1..])
  {
    hide Encode;
    if items != [] {
      var k := KnownItems(items);
      if k > 0 {
        assert items[..k][0] == items[0] && items[..k][1..] == items[1..][..k - 1];
      } else {
        assert items[..k] == [];
      }
    }
  }

  /** The decoder raises on such a stream if and only if a frame in it is of unknown kind. */
  lemma RaisesExactly(items: seq<Item>, at: nat)
    requires Spaced(items)
    ensures HostDecoder.Scan(Bytes(items), at).raised <==>
            exists i :: 0 <= i < |items| && items[i].Sent? && !KnownKind(items[i].packet.kind)
  {
    hide HostDecoder.Scan, Bytes;
    HostDelivers(items, at);
    var k := KnownItems(items);
    assert k < |items| ==> items[k].Sent? && !KnownKind(items[k].packet.kind);
  }

  lemma {:induction false} FirmwareDelivers(items: seq<Item>)
    requires Spaced(items)
    ensures Firmware.PushAll([], Bytes(items)) == Firmware.Parse(SentPackets(items), [])
  {
    hide Firmware.PushAll, Firmware.Push, Encode;
    if items == [] {
      Firmware.PushNothing([]);
    } else {
      FirmwareDelivers(items[1..]);
      match items[0]
      case Noise(b) =>
        Firmware.NoiseIgnored([b]);
        Firmware.PushAllJoins([], [b], Bytes(items[1..]));
      case Sent(p) =>
        Firmware.FrameArrives(p);
        Firmware.PushAllJoins([], Encode(p), Bytes(items[1..]));
    }
  }

  /** On frames of known kinds with start-byte-free noise between them both receivers
      deliver exactly the packets sent, in order, and hold nothing back. */
  lemma ReceiversAgree(items: seq<Item>)
    requires Clean(items)
    ensures var host := HostDecoder.Scan(Bytes(items), 0);
            var firmware := Firmware.PushAll([], Bytes(items));
            && HostDecoder.Packets(host.hits) == firmware.packets == SentPackets(items)
            && host.rest == firmware.pending == [] && !host.raised
  {
    hide HostDecoder.Scan, HostDecoder.Packets, Firmware.PushAll, Bytes, SentPackets;
    HostDelivers(items, 0);
    FirmwareDelivers(items);
    assert items[..|items|] == items && items[|items|..] == [];
    NoBytes();
  }

  lemma NoBytes()
    ensures Bytes([]) == []
  {
  }

  /** Whatever noise there is, start bytes included: the last byte of a frame completes its
      packet at the firmware if and only if its parser was at Start when the frame began;
      and the host delivers the frame if and only if it begins neither inside a frame the
      host delivered nor in what it keeps. */
  lemma FrameTakenExactly(items: seq<Item>, i: nat)
    requires Encodable(items) && i < |items| && items[i].Sent?
    ensures var p, before := items[i].packet, Bytes(items[..i]);
            var f, rested := Encode(p), Firmware.PushAll([], before).pending == [];
            Firmware.Push(Firmware.PushAll([], before + f[..|f| - 1]).pending, f[|f| - 1]).packet == Some(p) <==> rested
    ensures var p, start, o := items[i].packet, |Bytes(items[..i])|, HostDecoder.Scan(Bytes(items), 0);
            HostDecoder.Hit(start, p) in o.hits <==>
            && !(exists k :: 0 <= k < |o.hits| && o.hits[k].at < start < HostDecoder.End(o.hits[k]))
            && start < |Bytes(items)| - |o.rest|
  {
    hide Firmware.PushAll, Firmware.Push, HostDecoder.Scan, Encode, Bytes;
    var p, before := items[i].packet, Bytes(items[..i]);
    var f := Encode(p);
    Firmware.PushAllJoins([], before, f[..|f| - 1]);
    Firmware.FrameTakenExactly(Firmware.PushAll([], before).pending, p);
    BytesAt(items, i);
    HostDecoder.DeliveredExactly(Bytes(items), 0, |before|, p);
  }

  lemma {:induction false} BytesAt(items: seq<Item>, i: nat)
    requires Encodable(items) && i < |items| && items[i].Sent?
    ensures |Bytes(items[..i])| <= |Bytes(items)| && Encode(items[i].packet) <= Bytes(items)[|Bytes(items[..i])|..]
    decreases i
  {
    hide Encode;
    var s := Bytes(items);
    if i == 0 {
      assert items[..0] == [] && s[0..] == s;
    } else {
      BytesAt(items[1..], i - 1);
      assert items[1..][..i - 1] == items[..i][1..] && items[..i][0] == items[0];
      var first := match items[0] case Noise(b) => [b] case Sent(p) => Encode(p);
      var n := |Bytes(items[1..][..i - 1])|;
      assert s == first + Bytes(items[1..]) && s[|first| + n..] == Bytes(items[1..])[n..];
    }
  }

  /** The writers agree: what the firmware writes is what the host encoder returns. */
  method WritersAgree(writer: Firmware.PacketWriter, p: Packet) returns (host: EncodeResult)
    requires Sendable(p)
    modifies writer
    ensures host.Encoded? && writer.stream == old(writer.stream) + host.frame
    ensures |host.frame| == Firmware.PacketWriter.EncodedSize(|p.payload|)
  {
    hide Crc16;
    host := EncodePacket(p);
    writer.Write(p.kind, p.seqNo, p.payload, |p.payload|);
    assert p.payload[..|p.payload|] == p.payload;
  }

  /** A stray start byte before a frame is where they part: the host rescans and delivers
      the packet, the firmware has given the frame's own start byte up as a bad version and
      does not complete it; if the frame has no other start byte it delivers nothing. */
  lemma StrayStartByte(p: Packet)
    requires Sendable(p) && KnownKind(p.kind)
    ensures HostDecoder.Packets(HostDecoder.Scan([START_BYTE] + Encode(p), 0).hits) == [p]
    ensures var f := Encode(p);
            Firmware.Push(Firmware.PushAll([], [START_BYTE] + f[..|f| - 1]).pending, f[|f| - 1]).packet != Some(p)
    ensures Firmware.Unambiguous(p) ==> Firmware.PushAll([], [START_BYTE] + Encode(p)) == Firmware.Parse([], [])
  {
    hide Crc16, HostDecoder.Scan, Firmware.PushAll, Firmware.Push, Encode, HostDecoder.Packets, Bytes, SentPackets;
    HostRescans(p);
    var f := Encode(p);
    StartByteStays();
    Firmware.PushAllJoins([], [START_BYTE], f[..|f| - 1]);
    Firmware.FrameTakenExactly([START_BYTE], p);
    if Firmware.Unambiguous(p) {
      EncodedFields(p);
      assert [START_BYTE] + f == [START_BYTE, START_BYTE] + f[1..];
      StrayThenFrame(f[1..]);
    }
  }

  lemma HostRescans(p: Packet)
    requires Sendable(p) && KnownKind(p.kind)
    ensures HostDecoder.Packets(HostDecoder.Scan([START_BYTE] + Encode(p), 0).hits) == [p]
  {
    hide Crc16, HostDecoder.Scan, Encode, HostDecoder.Packets, Bytes, SentPackets;
    EncodedFields(p);
    var f := Encode(p);
    var s := [START_BYTE] + f;
    HostDecoder.ScanUnfolds(s, 0);
    assert s[1] == f[0];
    assert s[1..] == f;
    HostDelivers([Sent(p)], 1);
    OneFrame(p);
  }

  lemma OneFrame(p: Packet)
    requires Sendable(p)
    ensures Bytes([Sent(p)]) == Encode(p) && SentPackets([Sent(p)]) == [p]
    ensures KnownKind(p.kind) ==> KnownItems([Sent(p)]) == 1
    ensures [Sent(p)][..1] == [Sent(p)]
  {
    hide Encode;
    assert Bytes([]) == [] && SentPackets([]) == [];
    assert [Sent(p)][1..] == [];
  }

  lemma StartByteStays()
    ensures Firmware.PushAll([], [START_BYTE]) == Firmware.Parse([], [START_BYTE])
  {
    hide Crc16;
    Firmware.PushNothing([START_BYTE]);
  }

  lemma StrayThenFrame(later: seq<byte>)
    requires START_BYTE !in later
    ensures Firmware.PushAll([], [START_BYTE, START_BYTE] + later) == Firmware.Parse([], [])
  {
    hide Crc16, Firmware.PushAll;
    assert [START_BYTE, START_BYTE] == [START_BYTE] + [START_BYTE];
    Firmware.PushAllJoins([], [START_BYTE, START_BYTE], later);
    Firmware.PushAllJoins([], [START_BYTE], [START_BYTE]);
    Firmware.PushOne([], START_BYTE);
    assert Firmware.Push([], START_BYTE) == Firmware.Pushed([START_BYTE], None);
    Firmware.PushOne([START_BYTE], START_BYTE);
    assert Firmware.Push([START_BYTE], START_BYTE) == Firmware.Pushed([], None);
    Firmware.NoiseIgnored(later);
  }
}
