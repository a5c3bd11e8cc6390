/** The firmware's byte-at-a-time parser and its frame writer. */
module Firmware {
  import opened Seqs
  import opened Wire
  import opened Crc
  import opened Frame

  // ---- the parser as a reader of the bytes since the last start byte ----

  datatype Pushed = Pushed(pending: seq<byte>, packet: Option<Packet>)

  /** The prefixes of a frame the parser can be holding. */
  predicate Pending(s: seq<byte>) {
    && (s != [] ==> s[0] == START_BYTE)
    && (|s| >= 2 ==> s[1] == PROTOCOL_VERSION)
    && (|s| >= 7 ==> LengthField(s) <= MAX_PAYLOAD_SIZE && |s| < 9 + LengthField(s))
  }

  /** One more byte after the pending ones: they are all given up as soon as they cannot
      begin a frame, and a whole frame is reported if its checksum holds. */
  function Push(pending: seq<byte>, b: byte): (r: Pushed)
    requires Pending(pending)
    ensures Pending(r.pending)
  {
    var s := pending + [b];
    if s[0] != START_BYTE || (|s| == 2 && b != PROTOCOL_VERSION) then Pushed([], None)
    else if |s| < 7 then Pushed(s, None)
    else if LengthField(s) > MAX_PAYLOAD_SIZE then Pushed([], None)
    else if |s| < 9 + LengthField(s) then Pushed(s, None)
    else if ChecksumHolds(s) then Pushed([], Some(PacketIn(s)))
    else Pushed([], None)
  }

  datatype Parse = Parse(packets: seq<Packet>, pending: seq<byte>)

  /** Pushing a whole stream. */
  function PushAll(pending: seq<byte>, stream: seq<byte>): (r: Parse)
    requires Pending(pending)
    ensures Pending(r.pending)
    decreases |stream|
  {
    if stream == [] then Parse([], pending)
    else
      var r := Push(pending, stream[0]);
      var o := PushAll(r.pending, stream[1..]);
      o.(packets := (if r.packet.Some? then [r.packet.value] else []) + o.packets)
  }

  lemma {:induction false} PushAllJoins(pending: seq<byte>, a: seq<byte>, b: seq<byte>)
    requires Pending(pending)
    ensures var r := PushAll(pending, a);
            var o := PushAll(r.pending, b);
            PushAll(pending, a + b) == Parse(r.packets + o.packets, o.pending)
    decreases |a|
  {
    hide Push, Pending;
    if a == [] {
      assert a + b == b;
    } else {
      assert (a + b)[1..] == a[1..] + b;
      PushAllJoins(Push(pending, a[0]).pending, a[1..], b);
    }
  }

  /** Push, by how much is pending. */
  lemma PushCases(pending: seq<byte>, b: byte)
    requires Pending(pending)
    ensures var s := pending + [b];
            && (|pending| == 0 ==> Push(pending, b) == Pushed(if b == START_BYTE then s else [], None))
            && (|pending| == 1 ==> Push(pending, b) == Pushed(if b == PROTOCOL_VERSION then s else [], None))
            && (2 <= |pending| < 6 ==> Push(pending, b) == Pushed(s, None))
            && (|pending| == 6 ==>
                Push(pending, b) == Pushed(if U16(pending[5], b) > MAX_PAYLOAD_SIZE then [] else s, None))
            && (|pending| >= 7 && |pending| < 8 + LengthField(pending) ==> Push(pending, b) == Pushed(s, None))
            && (|pending| >= 7 ==> |pending| <= 8 + LengthField(pending) && LengthField(s) == LengthField(pending) <= MAX_PAYLOAD_SIZE)
  {
    hide Crc16, ChecksumHolds, PacketIn, U16;
  }

  // ---- the parser ----

  datatype State = Start | Version | Type | SeqLo | SeqHi | LengthLo | LengthHi | Payload | CrcLo | CrcHi

  class PacketParser {
    var state: State
    // The fields of the packet being assembled.
    var kind: byte
    var seqNo: u16
    var payload: array<byte>
    var length: u16
    var payloadIndex: u16
    var crcLo: byte
    /** The bytes since the start byte, which the fields above encode. */
    ghost var pending: seq<byte>

    ghost predicate Valid()
      reads this, payload
    {
      && payload.Length == MAX_PAYLOAD_SIZE
      && Pending(pending)
      && (1 <= |pending| < 7 ==> payloadIndex == 0)
      && (match state
          case Start => pending == []
          case Version => |pending| == 1
          case Type => |pending| == 2
          case SeqLo => |pending| == 3 && kind == pending[2]
          case SeqHi => |pending| == 4 && kind == pending[2] && seqNo == pending[3]
          case LengthLo => |pending| == 5 && HeaderRead()
          case LengthHi => |pending| == 6 && HeaderRead() && length == pending[5]
          case Payload =>
            && |pending| == 7 + payloadIndex && payloadIndex < length
            && HeaderRead() && length == LengthField(pending)
            && payload[..payloadIndex] == pending[7..]
          case CrcLo =>
            && |pending| == 7 + length
            && HeaderRead() && length == LengthField(pending)
            && payload[..length] == pending[7..]
          case CrcHi =>
            && |pending| == 8 + length
            && HeaderRead() && length == LengthField(pending)
            && payload[..length] == pending[7..7 + length] && crcLo == pending[7 + length])
    }

    ghost predicate HeaderRead()
      reads this
    {
      |pending| >= 5 && kind == pending[2] && seqNo == U16(pending[3], pending[4])
    }

    constructor ()
      ensures Valid() && pending == [] && fresh(payload)
    {
      state, kind, seqNo, length, payloadIndex, crcLo := Start, COMMAND, 0, 0, 0, 0;
      payload := new byte[128](_ => 0);
      pending := [];
    }

    lemma PendingKept()
      requires Valid()
      ensures Pending(pending)
    {
    }

    /** current_ = Packet{} */
    method ClearCurrent()
      modifies `kind, `seqNo, `length, payload
      ensures kind == COMMAND && seqNo == 0 && length == 0
    {
      kind, seqNo, length := COMMAND, 0, 0;
      forall i | 0 <= i < payload.Length {
        payload[i] := 0;
      }
    }

    method Reset()
      requires payload.Length == MAX_PAYLOAD_SIZE
      modifies this, payload
      ensures Valid() && pending == [] && payload == old(payload)
    {
      state := Start;
      ClearCurrent();
      payloadIndex := 0;
      crcLo := 0;
      pending := [];
    }

    /** One received byte; returns the packet it completes, if any. */
    method PushByte(b: byte) returns (packet: Option<Packet>)
      requires Valid()
      modifies this, payload
      ensures Valid() && payload == old(payload)
      ensures Push(old(pending), b) == Pushed(pending, packet)
    {
      hide Crc16, Push, Pending, U16;
      PushCases(pending, b);
      packet := None;
      ghost var s := pending + [b];
      match state
      case Start =>
        if b == START_BYTE {
          ClearCurrent();
          payloadIndex := 0;
          state := Version;
          pending := s;
        }
      case Version =>
        if b == PROTOCOL_VERSION {
          state := Type;
          pending := s;
        } else {
          state := Start;
          pending := [];
        }
      case Type =>
        kind := b;
        state := SeqLo;
        pending := s;
      case SeqLo =>
        seqNo := b;
        state := SeqHi;
        pending := s;
      case SeqHi =>
        seqNo := U16(seqNo, b);
        state := LengthLo;
        pending := s;
      case LengthLo =>
        length := b;
        state := LengthHi;
        pending := s;
      case LengthHi =>
        length := U16(length, b);
        if length > MAX_PAYLOAD_SIZE {
          Reset();
        } else {
          state := if length == 0 then CrcLo else Payload;
          pending := s;
        }
      case Payload =>
        payload[payloadIndex] := b;
        payloadIndex := payloadIndex + 1;
        if payloadIndex >= length {
          state := CrcLo;
        }
        pending := s;
      case CrcLo =>
        crcLo := b;
        state := CrcHi;
        pending := s;
      case CrcHi =>
        packet := Finish(b);
    }

    /** The last byte of a frame: compares checksums. */
    method Finish(b: byte) returns (packet: Option<Packet>)
      requires Valid() && state == CrcHi
      modifies this, payload
      ensures Valid() && payload == old(payload) && pending == []
      ensures Push(old(pending), b) == Pushed([], packet)
    {
      hide Crc16, Pending, Push, Lo, Hi;
      WholeOf(pending, b);
      PartsOfU16(pending[3], pending[4]);
      PartsOfU16(pending[5], pending[6]);
      packet := None;
      var expected := U16(crcLo, b);
      var buffer := FillBuffer(kind, seqNo, length, payload[..]);
      var actual := ComputeCrc16(buffer[..6 + length]);
      ghost var body := [PROTOCOL_VERSION, pending[2], pending[3], pending[4], pending[5], pending[6]]
                        + pending[7..7 + length];
      assert payload[..][..length] == payload[..length];
      assert buffer[..6 + length] == body;
      if actual == expected {
        packet := Some(Packet(kind, seqNo, payload[..length]));
      }
      assert Push(pending, b) == Pushed([], packet);
      Reset();
    }
  }

  /** What the last byte completes, field by field. */
  lemma WholeOf(pending: seq<byte>, b: byte)
    requires Pending(pending) && |pending| >= 7 && |pending| == 8 + LengthField(pending)
    ensures LengthField(pending) <= MAX_PAYLOAD_SIZE
    ensures var n := LengthField(pending);
            var body := [PROTOCOL_VERSION, pending[2], pending[3], pending[4], pending[5], pending[6]] + pending[7..7 + n];
            Push(pending, b) == Pushed([], if Crc16(body) == U16(pending[7 + n], b)
                                           then Some(Packet(pending[2], U16(pending[3], pending[4]), pending[7..7 + n]))
                                           else None)
  {
    hide Crc16;
    var s, n := pending + [b], LengthField(pending);
    assert s[1..|s| - 2] == [PROTOCOL_VERSION, pending[2], pending[3], pending[4], pending[5], pending[6]] + pending[7..7 + n];
    assert s[7..7 + n] == pending[7..7 + n];
  }

  // ---- the writer ----

  /** The checksummed part of a frame, laid out in a fixed buffer. */
  method FillBuffer(kind: byte, seqNo: u16, length: u16, payload: seq<byte>) returns (buffer: array<byte>)
    requires length <= MAX_PAYLOAD_SIZE && length <= |payload|
    ensures fresh(buffer) && buffer.Length == 6 + MAX_PAYLOAD_SIZE
    ensures buffer[..6 + length] ==
            [PROTOCOL_VERSION, kind, Lo(seqNo), Hi(seqNo), Lo(length), Hi(length)] + payload[..length]
  {
    buffer := new byte[6 + MAX_PAYLOAD_SIZE](_ => 0);
    buffer[0], buffer[1] := PROTOCOL_VERSION, kind;
    buffer[2], buffer[3] := Lo(seqNo), Hi(seqNo);
    buffer[4], buffer[5] := Lo(length), Hi(length);
    for i := 0 to length
      invariant buffer[..6 + i] ==
                [PROTOCOL_VERSION, kind, Lo(seqNo), Hi(seqNo), Lo(length), Hi(length)] + payload[..i]
    {
      buffer[6 + i] := payload[i];
      assert buffer[..7 + i] == buffer[..6 + i] + [payload[i]];
    }
  }

  class PacketWriter {
    /** Everything written to the serial stream. */
    var stream: seq<byte>

    constructor ()
      ensures stream == []
    {
      stream := [];
    }

    static function EncodedSize(payloadLength: nat): nat {
      1 + 6 + payloadLength + 2
    }

    method Write(kind: byte, seqNo: u16, payload: seq<byte>, length: u16)
      requires length <= MAX_PAYLOAD_SIZE && length <= |payload|
      modifies this
      ensures stream == old(stream) + Encode(Packet(kind, seqNo, payload[..length]))
    {
      hide Crc16;
      var crcBuffer := FillBuffer(kind, seqNo, length, payload);
      ghost var body := Body(Packet(kind, seqNo, payload[..length]));
      assert crcBuffer[..6 + length] == body;
      var crc := ComputeCrc16(crcBuffer[..6 + length]);
      stream := stream + [START_BYTE];
      stream := stream + [PROTOCOL_VERSION, kind, Lo(seqNo), Hi(seqNo), Lo(length), Hi(length)];
      if length > 0 {
        stream := stream + payload[..length];
      }
      stream := stream + [Lo(crc)];
      stream := stream + [Hi(crc)];
      assert stream == old(stream) + ([START_BYTE] + body + [Lo(crc), Hi(crc)]);
    }
  }

  // ---- frames arrive ----

  predicate AllSendable(packets: seq<Packet>) {
    forall i | 0 <= i < |packets| :: Sendable(packets[i])
  }

  function Frames(packets: seq<Packet>): seq<byte>
    requires AllSendable(packets)
  {
    if packets == [] then [] else Encode(packets[0]) + Frames(packets[1..])
  }

  lemma {:induction false} FramesJoin(a: seq<Packet>, b: seq<Packet>)
    requires AllSendable(a) && AllSendable(b)
    ensures AllSendable(a + b) && Frames(a + b) == Frames(a) + Frames(b)
  {
    hide Encode, Frames, Sendable;
    if a == [] {
      assert a + b == b;
      NoFrames();
      assert [] + Frames(b) == Frames(b);
    } else {
      assert (a + b)[1..] == a[1..] + b && (a + b)[0] == a[0];
      FramesJoin(a[1..], b);
      assert AllSendable(a + b);
      FramesUnfold(a);
      FramesUnfold(a + b);
      Associates(Encode(a[0]), Frames(a[1..]), Frames(b));
    }
  }

  lemma NoFrames()
    ensures Frames([]) == []
  {
  }

  lemma FramesUnfold(packets: seq<Packet>)
    requires AllSendable(packets) && packets != []
    ensures Frames(packets) == Encode(packets[0]) + Frames(packets[1..])
  {
    hide Encode;
  }

  lemma FramesOfOne(p: Packet)
    requires Sendable(p)
    ensures AllSendable([p]) && Frames([p]) == Encode(p)
  {
    hide Encode;
    assert Frames([]) == [];
  }

  lemma {:induction false} FrameBuildsUp(f: seq<byte>, k: nat)
    requires WholeFrame(f) && k < |f|
    ensures PushAll([], f[..k]) == Parse([], f[..k])
  {
    hide Crc16, PushAll;
    if k == 0 {
      PushNothing([]);
    } else {
      FrameBuildsUp(f, k - 1);
      assert f[..k] == f[..k - 1] + [f[k - 1]];
      PushAllJoins([], f[..k - 1], [f[k - 1]]);
      PushOne(f[..k - 1], f[k - 1]);
    }
  }

  lemma PushNothing(pending: seq<byte>)
    requires Pending(pending)
    ensures PushAll(pending, []) == Parse([], pending)
  {
  }

  lemma PushOne(pending: seq<byte>, b: byte)
    requires Pending(pending)
    ensures var r := Push(pending, b);
            PushAll(pending, [b]) == Parse(if r.packet.Some? then [r.packet.value] else [], r.pending)
  {
    hide Push, Pending;
    PushNothing(Push(pending, b).pending);
  }

  /** The parser, at rest, delivers a frame as soon as its last byte arrives. */
  lemma FrameArrives(p: Packet)
    requires Sendable(p)
    ensures PushAll([], Encode(p)) == Parse([p], [])
  {
    hide Crc16, PushAll, Encode, ChecksumHolds;
    EncodedFields(p);
    var f := Encode(p);
    var k := |f| - 1;
    FrameBuildsUp(f, k);
    assert f == f[..k] + [f[k]];
    PushAllJoins([], f[..k], [f[k]]);
    PushOne(f[..k], f[k]);
  }

  /** Frames sent back to back are delivered exactly. */
  lemma {:induction false} FramesArrive(packets: seq<Packet>)
    requires AllSendable(packets)
    ensures PushAll([], Frames(packets)) == Parse(packets, [])
  {
    hide PushAll, Push, Encode;
    if packets == [] {
      PushNothing([]);
    } else {
      FrameArrives(packets[0]);
      FramesArrive(packets[1..]);
      PushAllJoins([], Encode(packets[0]), Frames(packets[1..]));
      assert packets == [packets[0]] + packets[1..];
    }
  }

  /** Pushing bytes onto something pending adds them all to it, or leaves fewer than were
      pushed. */
  lemma {:induction false} PendingLength(pending: seq<byte>, s: seq<byte>)
    requires Pending(pending)
    ensures var n := |PushAll(pending, s).pending|;
            if pending == [] then n <= |s| else n == |pending| + |s| || n < |s|
    decreases |s|
  {
    hide Push, Pending;
    if s != [] {
      PushLength(pending, s[0]);
      PendingLength(Push(pending, s[0]).pending, s[1..]);
    }
  }

  lemma PushLength(pending: seq<byte>, b: byte)
    requires Pending(pending)
    ensures var r := Push(pending, b); r.pending == pending + [b] || r.pending == []
    ensures var r := Push(pending, b); r.packet.Some? ==> |pending| + 1 == 9 + |r.packet.value.payload|
  {
    hide Crc16;
  }

  /** The last byte of a frame completes its packet if and only if the parser was at Start
      when the frame began. */
  lemma FrameTakenExactly(pending: seq<byte>, p: Packet)
    requires Pending(pending) && Sendable(p)
    ensures var f := Encode(p);
            Push(PushAll(pending, f[..|f| - 1]).pending, f[|f| - 1]).packet == Some(p) <==> pending == []
  {
    hide Crc16, PushAll, Push, Pending, Encode, ChecksumHolds;
    var f := Encode(p);
    var k := |f| - 1;
    if pending == [] {
      LastByteCompletes(p);
    } else {
      PendingLength(pending, f[..k]);
      PushLength(PushAll(pending, f[..k]).pending, f[k]);
    }
  }

  lemma LastByteCompletes(p: Packet)
    requires Sendable(p)
    ensures var f := Encode(p);
            Push(PushAll([], f[..|f| - 1]).pending, f[|f| - 1]).packet == Some(p)
  {
    hide Crc16, PushAll, Push, Encode, ChecksumHolds;
    EncodedFields(p);
    var f := Encode(p);
    var k := |f| - 1;
    FrameBuildsUp(f, k);
    assert f[..k] + [f[k]] == f;
    FrameArrives(p);
    PushAllJoins([], f[..k], [f[k]]);
    PushOne(f[..k], f[k]);
    OnePacket(Push(f[..k], f[k]).packet, p);
  }

  lemma OnePacket(found: Option<Packet>, p: Packet)
    requires [] + (if found.Some? then [found.value] else []) == [p]
    ensures found == Some(p)
  {
    assert |[p]| == 1;
    if found.Some? { assert [p][0] == found.value; }
  }

  // ---- recovery ----

  lemma {:induction false} NoiseIgnored(noise: seq<byte>)
    requires START_BYTE !in noise
    ensures PushAll([], noise) == Parse([], [])
  {
    if noise != [] {
      assert noise[0] != START_BYTE;
      NoiseIgnored(noise[1..]);
    }
  }

  /** How many more bytes the parser can take before it is back at Start. */
  function AtMostLeft(pending: seq<byte>): (n: nat)
    requires Pending(pending)
    ensures n <= 136 && (n == 0 <==> pending == [])
  {
    if pending == [] then 0
    else if |pending| < 7 then 137 - |pending|
    else 9 + LengthField(pending) - |pending|
  }

  /** Whatever the parser holds, a byte either extends it, with less left to take, or
      sends the parser back to Start. */
  lemma PushProgress(pending: seq<byte>, b: byte)
    requires Pending(pending) && pending != []
    ensures var r := Push(pending, b);
            || r.pending == []
            || (r == Pushed(pending + [b], None) && AtMostLeft(r.pending) < AtMostLeft(pending))
  {
    hide Crc16;
  }

  /** Any 136 bytes bring the parser back to Start. */
  lemma {:induction false} BackToStart(pending: seq<byte>, stream: seq<byte>) returns (k: nat)
    requires Pending(pending) && AtMostLeft(pending) <= |stream|
    ensures k <= AtMostLeft(pending) && k <= |stream|
    ensures PushAll(pending, stream[..k]).pending == [] && |PushAll(pending, stream[..k]).packets| <= 1
    decreases AtMostLeft(pending)
  {
    hide Push, Pending, AtMostLeft;
    if pending == [] {
      k := 0;
      assert stream[..0] == [];
    } else {
      PushProgress(pending, stream[0]);
      var r := Push(pending, stream[0]);
      if r.pending == [] {
        k := 1;
        assert stream[..1] == [stream[0]];
        PushOne(pending, stream[0]);
      } else {
        var j := BackToStart(r.pending, stream[1..]);
        k := j + 1;
        assert stream[..k][1..] == stream[1..][..j];
      }
    }
  }

  /** What a stretch of bytes with no start byte after its first does to a parser that is
      in the middle of something: it finishes it, delivering at most one packet, or is
      swallowed whole. */
  lemma {:induction false} StretchEffect(pending: seq<byte>, s: seq<byte>)
    requires Pending(pending) && pending != [] && (s != [] ==> START_BYTE !in s[1..])
    ensures var r := PushAll(pending, s);
            || (r.pending == [] && |r.packets| <= 1)
            || (r.packets == [] && r.pending != [] && AtMostLeft(r.pending) + |s| <= AtMostLeft(pending))
    decreases |s|
  {
    hide Push, Pending, AtMostLeft;
    if s != [] {
      PushProgress(pending, s[0]);
      var r := Push(pending, s[0]);
      if r.pending == [] {
        NoiseIgnored(s[1..]);
      } else {
        StretchEffect(r.pending, s[1..]);
      }
    }
  }

  function Offset(packets: seq<Packet>, m: nat): nat
    requires m <= |packets| && AllSendable(packets)
  {
    if m == 0 then 0 else |Encode(packets[0])| + Offset(packets[1..], m - 1)
  }

  /** A packet whose frame contains no start byte but its first. */
  predicate Unambiguous(p: Packet) {
    Sendable(p) && START_BYTE !in Encode(p)[1..]
  }

  /** From any parser state, on clean frames: after at most one spurious packet the
      parser delivers every frame that begins 136 or more bytes on, and all after it. */
  lemma {:induction false} Recovers(pending: seq<byte>, packets: seq<Packet>) returns (m: nat, spurious: seq<Packet>)
    requires Pending(pending) && AllSendable(packets)
    requires forall i | 0 <= i < |packets| :: Unambiguous(packets[i])
    ensures m <= |packets| && |spurious| <= 1
    ensures PushAll(pending, Frames(packets)).packets == spurious + packets[m..]
    ensures m > 0 ==> Offset(packets, m - 1) < AtMostLeft(pending) <= 136
    decreases |packets|
  {
    hide PushAll, Push, Pending, AtMostLeft, Encode;
    if pending == [] {
      m, spurious := 0, [];
      FramesArrive(packets);
    } else if packets == [] {
      m, spurious := 0, [];
      PushNothing(pending);
    } else {
      var f := Encode(packets[0]);
      var later := packets[1..];
      assert Unambiguous(packets[0]);
      StretchEffect(pending, f);
      PushAllJoins(pending, f, Frames(later));
      var r := PushAll(pending, f);
      if r.pending == [] {
        m, spurious := 1, r.packets;
        FramesArrive(later);
      } else {
        var n, lead := Recovers(r.pending, later);
        m, spurious := n + 1, lead;
        assert packets[m..] == later[n..];
      }
    }
  }
}
