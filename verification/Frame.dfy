/** The frame layout both ends share, and which byte strings are frames. */
module Frame {
  import opened Bits
  import opened Wire
  import opened Crc

  datatype Packet = Packet(kind: byte, seqNo: u16, payload: seq<byte>)

  const COMMAND: byte := 1
  const ACK: byte := 2
  const NACK: byte := 3
  const DATA: byte := 4
  const EVENT: byte := 5
  const TELEMETRY: byte := 6
  const ERROR: byte := 7

  /** The host's PacketType has the members 1 to 7. */
  predicate KnownKind(kind: byte) {
    COMMAND <= kind <= ERROR
  }

  /** What the firmware answers a packet with. */
  predicate IsReply(p: Packet) {
    p.kind == ACK || p.kind == NACK || p.kind == DATA
  }

  predicate Sendable(p: Packet) {
    |p.payload| <= MAX_PAYLOAD_SIZE
  }

  /** What both ends checksum: version, kind, sequence number, length, payload. */
  function Body(p: Packet): (body: seq<byte>)
    requires Sendable(p)
    ensures |body| == 6 + |p.payload|
  {
    [PROTOCOL_VERSION, p.kind, Lo(p.seqNo), Hi(p.seqNo), Lo(|p.payload|), Hi(|p.payload|)] + p.payload
  }

  function Seal(body: seq<byte>): (frame: seq<byte>)
    ensures |frame| == |body| + 3
  {
    [START_BYTE] + body + [Lo(Crc16(body)), Hi(Crc16(body))]
  }

  function Encode(p: Packet): (frame: seq<byte>)
    requires Sendable(p)
    ensures |frame| == 9 + |p.payload|
  {
    Seal(Body(p))
  }

  datatype EncodeResult = Encoded(frame: seq<byte>) | PayloadTooLarge

  /** The host encoder refuses oversized payloads. */
  function EncodePacket(p: Packet): EncodeResult {
    if |p.payload| > MAX_PAYLOAD_SIZE then PayloadTooLarge else Encoded(Encode(p))
  }

  // ---- reading a frame ----

  function LengthField(s: seq<byte>): u16
    requires |s| >= 7
  {
    U16(s[5], s[6])
  }

  /** The packet whose frame s would be, going by its length field. */
  function PacketIn(s: seq<byte>): Packet
    requires |s| >= 7 && |s| >= 9 + LengthField(s)
  {
    Packet(s[2], U16(s[3], s[4]), s[7..7 + LengthField(s)])
  }

  predicate ChecksumHolds(s: seq<byte>)
    requires |s| >= 9
  {
    Crc16(s[1..|s| - 2]) == U16(s[|s| - 2], s[|s| - 1])
  }

  /** s is one whole frame. */
  predicate WholeFrame(s: seq<byte>) {
    && |s| >= 9 && s[0] == START_BYTE && s[1] == PROTOCOL_VERSION
    && LengthField(s) <= MAX_PAYLOAD_SIZE && |s| == 9 + LengthField(s)
    && ChecksumHolds(s)
  }

  lemma EncodedFields(p: Packet)
    requires Sendable(p)
    ensures var f := Encode(p);
            && WholeFrame(f) && LengthField(f) == |p.payload| && PacketIn(f) == p
            && f[0] == 0xA5 && f[1] == 1 && f[2] == p.kind && f[3] == p.seqNo % 0x100 && f[4] == p.seqNo / 0x100
            && f[5] == |p.payload| && f[6] == 0 && f[7..7 + |p.payload|] == p.payload
            && f[|f| - 2] == Crc16(Body(p)) % 0x100 && f[|f| - 1] == Crc16(Body(p)) / 0x100
            && f[1..|f| - 2] == Body(p)
  {
    hide Crc16;
    var f := Encode(p);
    assert f[1..|f| - 2] == Body(p);
    assert f[7..7 + |p.payload|] == p.payload;
  }

  /** Exactly the encodings are whole frames. */
  lemma WholeFrameIsEncoding(s: seq<byte>)
    requires WholeFrame(s)
    ensures Sendable(PacketIn(s)) && s == Encode(PacketIn(s))
  {
    hide Crc16, Body, PacketIn;
    BodyOfWhole(s);
    Unseal(s);
  }

  lemma BodyOfWhole(s: seq<byte>)
    requires |s| >= 9 && s[1] == PROTOCOL_VERSION
    requires LengthField(s) <= MAX_PAYLOAD_SIZE && |s| == 9 + LengthField(s)
    ensures Sendable(PacketIn(s)) && Body(PacketIn(s)) == s[1..|s| - 2]
  {
    hide Lo, Hi;
    PartsOfU16(s[3], s[4]);
    PartsOfU16(s[5], s[6]);
    assert s[1..|s| - 2] == s[1..7] + s[7..|s| - 2];
    assert s[1..7] == [s[1], s[2], s[3], s[4], s[5], s[6]];
  }

  lemma Unseal(s: seq<byte>)
    requires |s| >= 3 && s[0] == START_BYTE
    requires Crc16(s[1..|s| - 2]) == U16(s[|s| - 2], s[|s| - 1])
    ensures Seal(s[1..|s| - 2]) == s
  {
    hide Crc16, Lo, Hi;
    var lo, hi := s[|s| - 2], s[|s| - 1];
    PartsOfU16(lo, hi);
    assert s == [s[0]] + s[1..|s| - 2] + [lo, hi];
  }

  /** s begins with the frame of a packet. */
  ghost predicate StartsWithFrame(s: seq<byte>) {
    exists p :: Sendable(p) && Encode(p) <= s
  }

  /** Two frames that begin the same string are the same frame. */
  lemma FrameUnique(s: seq<byte>, p: Packet, q: Packet)
    requires Sendable(p) && Sendable(q) && Encode(p) <= s && Encode(q) <= s
    ensures p == q
  {
    hide Crc16;
    EncodedFields(p);
    EncodedFields(q);
    assert s[5] == Encode(p)[5] && s[5] == Encode(q)[5];
    assert Encode(p) == s[..|Encode(p)|] && Encode(q) == s[..|Encode(q)|];
  }

  // ---- what the checksum catches ----

  /** The body of a frame, damaged by a burst of at most sixteen bits that spares the
      length field, no longer begins a frame. */
  lemma BurstInBodyRejected(p: Packet, damaged: seq<byte>, start: nat, rest: seq<byte>)
    requires Sendable(p)
    requires |damaged| == |Body(p)| && damaged != Body(p) && damaged[4..6] == Body(p)[4..6]
    requires forall i | 0 <= i < 8 * |damaged| && BitsOf(Body(p))[i] != BitsOf(damaged)[i] :: start <= i < start + 16
    ensures var crc := Crc16(Body(p));
            !StartsWithFrame([START_BYTE] + damaged + [Lo(crc), Hi(crc)] + rest)
  {
    hide Crc16, BitsOf;
    var crc := Crc16(Body(p));
    var f := [START_BYTE] + damaged + [Lo(crc), Hi(crc)];
    forall q | Sendable(q) && Encode(q) <= f + rest ensures false {
      EncodedFields(p);
      EncodedFields(q);
      assert damaged[4] == damaged[4..6][0] && damaged[5] == damaged[4..6][1];
      assert (f + rest)[5] == damaged[4] == Body(p)[4] && Encode(q)[5] == (f + rest)[5];
      assert Encode(q) == (f + rest)[..|Encode(q)|] == f;
      assert Body(q) == f[1..|f| - 2] == damaged;
      BurstDetected(Body(p), damaged, start);
    }
  }

  /** How many bits two strings of equal length differ in. */
  function FlippedBits(a: seq<byte>, b: seq<byte>): nat
    requires |a| == |b|
  {
    if a == [] then 0 else Ones(Xor(a[0], b[0])) + FlippedBits(a[1..], b[1..])
  }

  lemma {:induction false} OnesInJoins(a: seq<byte>, b: seq<byte>)
    ensures OnesIn(a + b) == OnesIn(a) + OnesIn(b)
  {
    hide Ones;
    if a == [] {
      assert a + b == b;
    } else {
      assert (a + b)[1..] == a[1..] + b;
      OnesInJoins(a[1..], b);
    }
  }

  lemma {:induction false} FlipsChangeParity(a: seq<byte>, b: seq<byte>)
    requires |a| == |b|
    ensures FlippedBits(a, b) % 2 == (OnesIn(a) + OnesIn(b)) % 2
  {
    hide Ones, Xor;
    if a != [] {
      OnesXor(a[0], b[0]);
      FlipsChangeParity(a[1..], b[1..]);
    }
  }

  /** After its start byte every frame has an even number of one bits. */
  lemma FrameParityEven(p: Packet)
    requires Sendable(p)
    ensures OnesIn(Encode(p)[1..]) % 2 == 0
  {
    hide Crc16, Ones;
    var crc := Crc16(Body(p));
    CrcParity(Body(p));
    assert Encode(p)[1..] == Body(p) + [Lo(crc), Hi(crc)];
    OnesInJoins(Body(p), [Lo(crc), Hi(crc)]);
    assert OnesIn([Lo(crc), Hi(crc)]) == Ones(Lo(crc)) + OnesIn([Hi(crc)]);
    assert OnesIn([Hi(crc)]) == Ones(Hi(crc)) + OnesIn([]);
  }

  lemma OddFlipsOddParity(p: Packet, damaged: seq<byte>)
    requires Sendable(p)
    requires |damaged| == |Encode(p)| && damaged[0] == START_BYTE
    requires FlippedBits(Encode(p), damaged) % 2 == 1
    ensures OnesIn(damaged[1..]) % 2 == 1
  {
    hide Crc16, Ones, Xor, OnesIn;
    FrameParityEven(p);
    FlipsChangeParity(Encode(p)[1..], damaged[1..]);
    XorSame(START_BYTE);
    OnesOfZero();
  }

  /** A frame in which an odd number of bits flipped, none of them in the length field,
      no longer begins a frame. */
  lemma OddFlipsRejected(p: Packet, damaged: seq<byte>, rest: seq<byte>)
    requires Sendable(p)
    requires |damaged| == |Encode(p)| && damaged[5..7] == Encode(p)[5..7]
    requires FlippedBits(Encode(p), damaged) % 2 == 1
    ensures !StartsWithFrame(damaged + rest)
  {
    hide Crc16, Ones, Xor, OnesIn;
    if damaged[0] == START_BYTE {
      OddFlipsOddParity(p, damaged);
    }
    forall q | Sendable(q) && Encode(q) <= damaged + rest ensures false {
      EncodedFields(p);
      EncodedFields(q);
      assert damaged[5] == damaged[5..7][0] == Encode(p)[5..7][0] == Encode(p)[5];
      assert Encode(q)[5] == (damaged + rest)[5];
      assert Encode(q) == (damaged + rest)[..|damaged|] == damaged;
      FrameParityEven(q);
    }
  }
}
