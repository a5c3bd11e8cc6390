/** Bytes, little-endian fields and the packet both ends of the link exchange. */
module Wire {
  type byte = x: int | 0 <= x < 0x100
  type u16 = x: int | 0 <= x < 0x1_0000

  const START_BYTE: byte := 0xA5
  const PROTOCOL_VERSION: byte := 0x01
  const MAX_PAYLOAD_SIZE: nat := 128

  function Lo(x: u16): byte { x % 0x100 }
  function Hi(x: u16): byte { x / 0x100 }
  function U16(lo: byte, hi: byte): u16 { lo + 0x100 * hi }

  lemma PartsOfU16(lo: byte, hi: byte)
    ensures Lo(U16(lo, hi)) == lo && Hi(U16(lo, hi)) == hi
  {
  }

  type u32 = x: int | 0 <= x < 0x1_0000_0000
  type i32 = x: int | -0x8000_0000 <= x < 0x8000_0000

  /** What arithmetic leaves of x in an unsigned 32-bit variable. */
  function Cut32(x: int): u32 {
    x % 0x1_0000_0000
  }

  /** What arithmetic leaves of x in a signed 32-bit variable. */
  function Wrap32(x: int): i32 {
    (x + 0x8000_0000) % 0x1_0000_0000 - 0x8000_0000
  }

  /** The four bytes of a 32-bit value, signed or not, as shifts and masks give them. */
  function Bytes32(v: int): (bytes: seq<byte>)
    ensures |bytes| == 4
  {
    [v % 0x100, v / 0x100 % 0x100, v / 0x1_0000 % 0x100, v / 0x100_0000 % 0x100]
  }

  function U32Of(s: seq<byte>): u32
    requires |s| == 4
  {
    var b0: int, b1: int, b2: int, b3: int := s[0], s[1], s[2], s[3];
    b0 + 0x100 * b1 + 0x1_0000 * b2 + 0x100_0000 * b3
  }

  /** struct.unpack("<i") */
  function I32Of(s: seq<byte>): i32
    requires |s| == 4
  {
    if U32Of(s) >= 0x8000_0000 then U32Of(s) - 0x1_0000_0000 else U32Of(s)
  }

  lemma Bytes32RoundTrip(v: int)
    ensures U32Of(Bytes32(v)) == Cut32(v)
    ensures -0x8000_0000 <= v < 0x8000_0000 ==> I32Of(Bytes32(v)) == v
    ensures 0 <= v < 0x1_0000_0000 ==> U32Of(Bytes32(v)) == v
  {
    hide Cut32;
    BytesAddUp(v);
    CutIs(v, v / 0x100_0000 / 0x100);
  }

  /** The least significant byte comes first. */
  lemma LittleEndian(v: u32)
    ensures var s := Bytes32(v); s[0] + 0x100 * (s[1] as int) + 0x1_0000 * (s[2] as int) + 0x100_0000 * (s[3] as int) == v
  {
    Bytes32RoundTrip(v);
  }

  lemma BytesAddUp(v: int)
    ensures v == U32Of(Bytes32(v)) + 0x1_0000_0000 * (v / 0x100_0000 / 0x100)
  {
    var q1, q2, q3 := v / 0x100, v / 0x1_0000, v / 0x100_0000;
    assert q1 / 0x100 == q2 && q2 / 0x100 == q3;
    assert v == v % 0x100 + 0x100 * q1 && q1 == q1 % 0x100 + 0x100 * q2 && q2 == q2 % 0x100 + 0x100 * q3;
  }

  lemma CutIs(v: int, turns: int)
    requires 0 <= v - 0x1_0000_0000 * turns < 0x1_0000_0000
    ensures Cut32(v) == v - 0x1_0000_0000 * turns
  {
  }
}
