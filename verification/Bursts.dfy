/** Exactly which burst errors the checksum of a frame misses. */
module Bursts {
  import opened Bits
  import opened Wire
  import opened Crc
  import opened Polynomial
  import opened Frame

  // ---- damage, as the exclusive or of what was sent and what arrives ----

  function Xor8(a: byte, b: byte): byte {
    Pow2Values();
    XorBound(a, b, 8);
    Xor(a, b)
  }

  function Damage(a: seq<byte>, b: seq<byte>): (d: seq<byte>)
    requires |a| == |b|
    ensures |d| == |a| && forall i | 0 <= i < |a| :: d[i] == Xor8(a[i], b[i])
  {
    if a == [] then [] else [Xor8(a[0], b[0])] + Damage(a[1..], b[1..])
  }

  function ByteBits(b: byte): (bits: seq<bool>)
    ensures |bits| == 8
  {
    Pow2Values();
    Digits(b, 8)
  }

  lemma BitsUnfold(data: seq<byte>)
    requires data != []
    ensures BitsOf(data) == ByteBits(data[0]) + BitsOf(data[1..])
  {
    hide Digits, Pow2;
  }

  lemma {:induction false} BitsJoin(a: seq<byte>, b: seq<byte>)
    ensures BitsOf(a + b) == BitsOf(a) + BitsOf(b)
  {
    hide ByteBits, BitsOf;
    if a == [] {
      assert a + b == b;
      NoBits();
    } else {
      assert (a + b)[1..] == a[1..] + b && (a + b)[0] == a[0];
      BitsUnfold(a);
      BitsUnfold(a + b);
      BitsJoin(a[1..], b);
      assert ByteBits(a[0]) + (BitsOf(a[1..]) + BitsOf(b)) == ByteBits(a[0]) + BitsOf(a[1..]) + BitsOf(b);
    }
  }

  lemma NoBits()
    ensures BitsOf([]) == []
  {
  }

  lemma XorBits(a: byte, b: byte)
    ensures ByteBits(Xor8(a, b)) == Differences(ByteBits(a), ByteBits(b))
  {
    hide Digits, Xor, Differences;
    Pow2Values();
    DigitsXor(a, b, 8);
  }

  /** The bits of the damage are those that differ. */
  lemma {:induction false} DamagedBits(a: seq<byte>, b: seq<byte>)
    requires |a| == |b|
    ensures BitsOf(Damage(a, b)) == Differences(BitsOf(a), BitsOf(b))
  {
    hide ByteBits, BitsOf, Differences, Xor8;
    if a == [] {
      NoBits();
    } else {
      BitsUnfold(a);
      BitsUnfold(b);
      BitsUnfold(Damage(a, b));
      XorBits(a[0], b[0]);
      assert Damage(a, b)[1..] == Damage(a[1..], b[1..]);
      DamagedBits(a[1..], b[1..]);
      DifferencesJoin(ByteBits(a[0]), ByteBits(b[0]), BitsOf(a[1..]), BitsOf(b[1..]));
    }
  }

  /** What damage does to the checksum depends on the damage alone. */
  lemma CrcDamaged(a: seq<byte>, b: seq<byte>)
    requires |a| == |b|
    ensures Xor16(Crc16(a), Crc16(b)) == Feed(0, BitsOf(Damage(a, b)))
  {
    hide Xor, Pow2, Step, Feed, BitsOf, CrcFrom, Differences;
    DamagedBits(a, b);
    XorSame(PRESET);
    FeedLinear(PRESET, PRESET, BitsOf(a), BitsOf(b));
    CrcAsBits(PRESET, a);
    CrcAsBits(PRESET, b);
  }

  lemma WordBits(lo: byte, hi: byte)
    ensures Coefficients(U16(lo, hi)) == ByteBits(hi) + ByteBits(lo)
  {
    hide Digits, Pow2;
    Pow2Values();
    DigitsSplit(hi, lo, 8, 8);
  }

  lemma {:induction false} DigitsSplit(high: nat, low: nat, m: nat, n: nat)
    requires high < Pow2(m) && low < Pow2(n)
    ensures Pow2(n) * high + low < Pow2(m + n)
    ensures Digits(Pow2(n) * high + low, m + n) == Digits(high, m) + Digits(low, n)
  {
    hide Digits, Pow2;
    if m == 0 {
      ZerothPower();
      DigitsOfNothing(high);
    } else {
      var rest := DigitsTop(high, m);
      DigitsSplit(rest, low, m - 1, n);
      TopOfSplit(high, rest, low, m, n);
      assert [high >= Pow2(m - 1)] + (Digits(rest, m - 1) + Digits(low, n))
          == [high >= Pow2(m - 1)] + Digits(rest, m - 1) + Digits(low, n);
    }
  }

  /** The top digit of a split number. */
  lemma TopOfSplit(high: nat, rest: nat, low: nat, m: nat, n: nat)
    requires m > 0 && high < Pow2(m) && high == (if high >= Pow2(m - 1) then Pow2(m - 1) + rest else rest)
    requires Pow2(n) * rest + low < Pow2(m - 1 + n)
    ensures Pow2(n) * high + low < Pow2(m + n)
    ensures Digits(Pow2(n) * high + low, m + n) == [high >= Pow2(m - 1)] + Digits(Pow2(n) * rest + low, m - 1 + n)
  {
    hide Digits, Pow2;
    var half, tail := Pow2(m - 1 + n), Pow2(n) * rest + low;
    Pow2Splits(n, m - 1);
    Pow2Doubles(m - 1 + n);
    if high >= Pow2(m - 1) {
      Distribute(Pow2(m - 1), rest, Pow2(n));
      assert Pow2(n) * high + low == half + tail;
    }
    var later := DigitsTop(Pow2(n) * high + low, m + n);
    assert later == tail;
  }

  lemma DigitsOfNothing(v: nat)
    requires v < Pow2(0)
    ensures v == 0 && Digits(v, 0) == []
  {
  }

  lemma XorWords(a: u16, b: u16)
    ensures Xor16(a, b) == U16(Xor8(Lo(a), Lo(b)), Xor8(Hi(a), Hi(b)))
  {
    hide Digits, Pow2, Xor, Coefficients, ByteBits, Differences;
    WordBits(Lo(a), Hi(a));
    WordBits(Lo(b), Hi(b));
    WordBits(Xor8(Lo(a), Lo(b)), Xor8(Hi(a), Hi(b)));
    XorBits(Lo(a), Lo(b));
    XorBits(Hi(a), Hi(b));
    DifferencesJoin(ByteBits(Hi(a)), ByteBits(Hi(b)), ByteBits(Lo(a)), ByteBits(Lo(b)));
    XorCoefficients(a, b);
    SameCoefficients(Xor16(a, b), U16(Xor8(Lo(a), Lo(b)), Xor8(Hi(a), Hi(b))));
  }

  lemma XorCoefficients(a: u16, b: u16)
    ensures Coefficients(Xor16(a, b)) == Differences(Coefficients(a), Coefficients(b))
  {
    hide Digits, Xor, Differences;
    Pow2Values();
    DigitsXor(a, b, 16);
  }

  // ---- which damage is accepted ----

  /** A frame damaged after its start byte, with the length field spared, still begins a
      frame if and only if its version byte is right and the damage to the checksum is what
      the register makes, from zero, of the damage to the body. */
  lemma DamageAcceptedExactly(p: Packet, damaged: seq<byte>, rest: seq<byte>)
    requires Sendable(p) && |damaged| == |Encode(p)| && damaged[0] == START_BYTE && damaged[5..7] == Encode(p)[5..7]
    ensures var f, n := Encode(p), |damaged|;
            var d := Damage(f[1..n - 2], damaged[1..n - 2]);
            StartsWithFrame(damaged + rest) <==>
            && damaged[1] == PROTOCOL_VERSION
            && Feed(0, BitsOf(d)) == U16(Xor8(f[n - 2], damaged[n - 2]), Xor8(f[n - 1], damaged[n - 1]))
  {
    hide Crc16, BitsOf, Feed, Damage, Xor8, Xor, Encode, ChecksumHolds, Lo, Hi;
    var f, n := Encode(p), |damaged|;
    EncodedFields(p);
    LengthSpared(f, damaged);
    WholeInFront(damaged, rest);
    FrameChecksum(f);
    var was, found := Crc16(f[1..n - 2]), Crc16(damaged[1..n - 2]);
    var came := U16(damaged[n - 2], damaged[n - 1]);
    CrcDamaged(f[1..n - 2], damaged[1..n - 2]);
    PartsOfU16(damaged[n - 2], damaged[n - 1]);
    PartsOfU16(f[n - 2], f[n - 1]);
    XorWords(was, came);
    SameDifference(was, found, came);
    WholeByChecksum(damaged);
  }

  lemma LengthSpared(f: seq<byte>, damaged: seq<byte>)
    requires |f| == |damaged| >= 9 && damaged[5..7] == f[5..7]
    ensures LengthField(damaged) == LengthField(f)
  {
    assert damaged[5] == damaged[5..7][0] && damaged[6] == damaged[5..7][1];
    assert f[5] == f[5..7][0] && f[6] == f[5..7][1];
  }

  lemma FrameChecksum(f: seq<byte>)
    requires WholeFrame(f)
    ensures Crc16(f[1..|f| - 2]) == U16(f[|f| - 2], f[|f| - 1])
  {
    hide Crc16;
  }

  lemma WholeByChecksum(s: seq<byte>)
    requires |s| >= 9 && s[0] == START_BYTE && LengthField(s) <= MAX_PAYLOAD_SIZE && |s| == 9 + LengthField(s)
    ensures WholeFrame(s) <==> s[1] == PROTOCOL_VERSION && Crc16(s[1..|s| - 2]) == U16(s[|s| - 2], s[|s| - 1])
  {
    hide Crc16;
  }

  /** Where the length field gives a string's own length, a frame in front is all of it. */
  lemma WholeInFront(s: seq<byte>, rest: seq<byte>)
    requires |s| >= 9 && |s| == 9 + LengthField(s)
    ensures StartsWithFrame(s + rest) <==> WholeFrame(s)
  {
    hide Crc16, Encode, ChecksumHolds;
    if WholeFrame(s) {
      WholeFrameIsEncoding(s);
      assert Encode(PacketIn(s)) <= s + rest;
    }
    forall q | Sendable(q) && Encode(q) <= s + rest ensures WholeFrame(s) {
      EncodedFields(q);
      assert (s + rest)[5] == Encode(q)[5] && (s + rest)[6] == Encode(q)[6];
      assert Encode(q) == (s + rest)[..|s|] == s;
    }
  }

  lemma SameDifference(a: u16, x: u16, y: u16)
    ensures Xor16(a, x) == Xor16(a, y) <==> x == y
  {
    hide Xor, Pow2;
    if Xor16(a, x) == Xor16(a, y) {
      XorAssociates(a, a, x);
      XorAssociates(a, a, y);
      XorSame(a);
      XorNothing(x);
      XorNothing(y);
    }
  }

  // ---- products with the generator, coefficient by coefficient ----

  predicate At(q: seq<bool>, k: int) {
    0 <= k < |q| && q[k]
  }

  /** Coefficient i, from the top, of q times x^16 + x^12 + x^5 + 1. */
  predicate Coef(q: seq<bool>, i: int) {
    ((At(q, i) != At(q, i - 4)) != At(q, i - 11)) != At(q, i - 16)
  }

  lemma GeneratorIs()
    ensures forall k | 0 <= k < 17 :: Generator()[k] == (k == 0 || k == 4 || k == 11 || k == 16)
  {
    hide Digits, Pow2;
    Powers();
    Pow2Values();
    Nibbles();
    DigitsSplit(1, 0, 4, 4);
    DigitsSplit(2, 1, 4, 4);
    DigitsSplit(0x10, 0x21, 8, 8);
  }

  lemma Nibbles()
    ensures 2 < Pow2(4)
    ensures Digits(0, 4) == [false, false, false, false] && Digits(1, 4) == [false, false, false, true]
    ensures Digits(2, 4) == [false, false, true, false]
  {
    Powers();
  }

  lemma {:induction false} ProductAt(q: seq<bool>, i: nat)
    requires i < |q| + 16
    ensures Product(q, Generator())[i] == Coef(q, i)
  {
    hide Differences, Generator, GeneratorTail;
    if q != [] {
      GeneratorIs();
      var later := q[1..];
      if i > 0 { ProductAt(later, i - 1); }
      assert forall k: int :: At(q, k) == if k == 0 then q[0] else At(later, k - 1);
    }
  }

  // ---- what the register makes of up to fifteen bits ----

  /** The register's value is the one that completes the bits to a multiple of the generator. */
  lemma FifteenBits(t: seq<bool>) returns (q: seq<bool>)
    requires |t| == 15
    ensures |q| == 15
    ensures forall i | 0 <= i < 15 :: t[i] == Coef(q, i)
    ensures forall i | 0 <= i < 16 :: Coefficients(Feed(0, t))[i] == Coef(q, 15 + i)
  {
    hide Feed, Step, Differences, Generator, Digits, Pow2, Product, Coef, Remainder;
    var r := Coefficients(Feed(0, t));
    FeedDivides(0, t);
    FromZero(t + SHIFT);
    q := Divides(t + SHIFT);
    var p := Product(q, Generator());
    forall i | 0 <= i < 31 ensures (t + r)[i] == Coef(q, i) {
      ProductAt(q, i);
      assert (t + SHIFT)[i] == (p[i] != (Zeros(15) + r)[i]);
    }
    assert forall i | 0 <= i < 15 :: (t + r)[i] == t[i];
    assert forall i | 0 <= i < 16 :: (t + r)[15 + i] == r[i];
  }

  lemma FromZero(p: seq<bool>)
    requires |p| >= 16
    ensures AddOnTop(0, p) == p
  {
    hide Differences, Pow2;
    Pow2Values();
    ZeroDigits(16);
    assert Differences(Digits(0, 16), p[..16]) == p[..16];
  }

  // ---- the bursts that fit into sixteen bits ----

  /** Damage to the last two bytes of the body and to the two bytes of the checksum. */
  datatype Burst = Burst(x1: int, x0: int, lo: int, hi: int)

  /** All the bursts of at most sixteen bits that go unnoticed. */
  predicate Unnoticed(burst: Burst) {
    burst in {
      Burst(0, 0x01, 0x21, 0x10), Burst(0, 0x02, 0x42, 0x20), Burst(0, 0x03, 0x63, 0x30), Burst(0, 0x04, 0x84, 0x40),
      Burst(0, 0x05, 0xA5, 0x50), Burst(0, 0x06, 0xC6, 0x60), Burst(0, 0x07, 0xE7, 0x70), Burst(0, 0x89, 0xA1, 0),
      Burst(2, 0x35, 0x94, 0), Burst(8, 0xC5, 0x40, 0), Burst(0x11, 0x8A, 0x80, 0), Burst(0x19, 0x4F, 0xC0, 0) }
  }

  function Weight(b: bool, w: nat): nat {
    if b then w else 0
  }

  /** The number eight bits stand for. */
  function Number(b7: bool, b6: bool, b5: bool, b4: bool, b3: bool, b2: bool, b1: bool, b0: bool): nat {
    Weight(b7, 128) + Weight(b6, 64) + Weight(b5, 32) + Weight(b4, 16) + Weight(b3, 8) + Weight(b2, 4) + Weight(b1, 2) + Weight(b0, 1)
  }

  lemma NumberOfByte(b: byte)
    ensures var d := ByteBits(b); b == Number(d[0], d[1], d[2], d[3], d[4], d[5], d[6], d[7])
  {
    hide Digits, Pow2;
    assert Pow2(4) == 16 && Pow2(8) == 256 by { Powers(); }
    NumberOfNibble(b / 16);
    NumberOfNibble(b % 16);
    DigitsSplit(b / 16, b % 16, 4, 4);
  }

  lemma Powers()
    ensures Pow2(0) == 1 && Pow2(1) == 2 && Pow2(2) == 4 && Pow2(3) == 8 && Pow2(4) == 16 && Pow2(8) == 256
  {
    assert Pow2(4) == 16;
  }

  lemma NumberOfNibble(v: nat)
    requires v < 16
    ensures v < Pow2(4) && var d := Digits(v, 4); v == Weight(d[0], 8) + Weight(d[1], 4) + Weight(d[2], 2) + Weight(d[3], 1)
  {
    hide Digits, Pow2;
    Powers();
    var r3 := DigitsTop(v, 4);
    var r2 := DigitsTop(r3, 3);
    var r1 := DigitsTop(r2, 2);
    var r0 := DigitsTop(r1, 1);
  }

  /** The four bytes a multiple of the generator with fifteen quotient bits makes of the
      end of the body and the checksum. */
  function BurstOf(q: seq<bool>): Burst {
    Burst(Number(false, Coef(q, 0), Coef(q, 1), Coef(q, 2), Coef(q, 3), Coef(q, 4), Coef(q, 5), Coef(q, 6)),
          Number(Coef(q, 7), Coef(q, 8), Coef(q, 9), Coef(q, 10), Coef(q, 11), Coef(q, 12), Coef(q, 13), Coef(q, 14)),
          Number(Coef(q, 23), Coef(q, 24), Coef(q, 25), Coef(q, 26), Coef(q, 27), Coef(q, 28), Coef(q, 29), Coef(q, 30)),
          Number(Coef(q, 15), Coef(q, 16), Coef(q, 17), Coef(q, 18), Coef(q, 19), Coef(q, 20), Coef(q, 21), Coef(q, 22)))
  }

  /** Where a checksum bit stands on the wire, where the low byte comes first. */
  function Place(m: int): int {
    if m >= 23 then m - 23 else m - 7
  }

  /** The damage begins at the f-th bit and ends fewer than sixteen places on, in the checksum. */
  predicate Short(q: seq<bool>, f: int) {
    && 0 <= f < 15 && At(q, f) && (forall i | 0 <= i < f :: !At(q, i))
    && (forall m | 15 <= m < 31 && Coef(q, m) :: Place(m) <= f)
    && (exists m :: 15 <= m < 31 && Coef(q, m))
  }

  lemma ShortIsListed(q: seq<bool>, f: int)
    requires |q| == 15 && Short(q, f)
    ensures Unnoticed(BurstOf(q))
  {
    hide Number, BurstOf, Unnoticed;
    var burst := QuotientIs(q, f);
    QuotientGives(burst, q);
  }

  /** The quotients of short damage, by where it begins. */
  lemma QuotientIs(q: seq<bool>, f: int) returns (burst: Burst)
    requires |q| == 15 && Short(q, f)
    ensures Unnoticed(burst) && QuotientOf(burst, q)
  {
    burst := if f >= 12 then
               Burst(0, Weight(q[12], 4) + Weight(q[13], 2) + Weight(q[14], 1),
                     Weight(q[12], 0x84) + Weight(q[13], 0x42) + Weight(q[14], 0x21),
                     Weight(q[12], 0x40) + Weight(q[13], 0x20) + Weight(q[14], 0x10))
             else if f == 7 then Burst(0, 0x89, 0xA1, 0)
             else if f == 5 then Burst(2, 0x35, 0x94, 0)
             else if f == 3 then Burst(8, 0xC5, 0x40, 0)
             else if q[3] then Burst(0x19, 0x4F, 0xC0, 0)
             else Burst(0x11, 0x8A, 0x80, 0);
    FewBegin(q, f);
  }

  lemma FewBegin(q: seq<bool>, f: int)
    requires |q| == 15 && Short(q, f)
    ensures f == 2 || f == 3 || f == 5 || f == 7 || f >= 12
    ensures f >= 12 ==> forall k | 0 <= k < 12 :: !q[k]
    ensures f == 7 ==> forall k | 0 <= k < 15 :: q[k] == (k == 7 || k == 14)
    ensures f == 5 ==> forall k | 0 <= k < 15 :: q[k] == (k == 5 || k == 10 || k == 12)
    ensures f == 3 ==> forall k | 0 <= k < 15 :: q[k] == (k == 3 || k == 8)
    ensures f == 2 && q[3] ==> forall k | 0 <= k < 15 :: q[k] == (k == 2 || k == 3 || k == 7 || k == 8)
    ensures f == 2 && !q[3] ==> forall k | 0 <= k < 15 :: q[k] == (k == 2 || k == 7)
  {
    assert forall k | 0 <= k < 15 :: At(q, k) == q[k];
    assert Coef(q, 15) ==> 8 <= f;
    assert Coef(q, 16) ==> 9 <= f;
    assert Coef(q, 17) ==> 10 <= f;
    assert Coef(q, 18) ==> 11 <= f;
    assert Coef(q, 19) ==> 12 <= f;
    assert Coef(q, 20) ==> 13 <= f;
    assert Coef(q, 21) ==> 14 <= f;
    assert Coef(q, 22) ==> 15 <= f;
    assert Coef(q, 23) ==> 0 <= f;
    assert Coef(q, 24) ==> 1 <= f;
    assert Coef(q, 25) ==> 2 <= f;
    assert Coef(q, 26) ==> 3 <= f;
    assert Coef(q, 27) ==> 4 <= f;
    assert Coef(q, 28) ==> 5 <= f;
    assert Coef(q, 29) ==> 6 <= f;
    assert Coef(q, 30) ==> 7 <= f;
    if f == 0 {
    } else if f == 1 {
    } else if f == 2 {
    } else if f == 3 {
    } else if f == 4 {
    } else if f == 5 {
    } else if f == 6 {
    } else if f == 7 {
    } else if f == 8 {
    } else if f == 9 {
    } else if f == 10 {
    } else if f == 11 {
    } else if f == 12 {
    } else if f == 13 {
    } else if f == 14 {
    }
  }

  /** The quotient of a burst that goes unnoticed. */
  predicate QuotientOf(burst: Burst, q: seq<bool>)
    requires |q| == 15
  {
    forall k | 0 <= k < 15 ::
      q[k] == if burst.x1 == 0 && burst.x0 < 8 then
                (k == 12 && burst.x0 / 4 == 1) || (k == 13 && burst.x0 / 2 % 2 == 1) || (k == 14 && burst.x0 % 2 == 1)
              else if burst.x1 == 0 then k == 7 || k == 14
              else if burst.x1 == 2 then k == 5 || k == 10 || k == 12
              else if burst.x1 == 8 then k == 3 || k == 8
              else if burst.x1 == 0x11 then k == 2 || k == 7
              else k == 2 || k == 3 || k == 7 || k == 8
  }

  lemma QuotientExists(burst: Burst) returns (q: seq<bool>)
    ensures |q| == 15 && QuotientOf(burst, q)
  {
    q := seq(15, k =>
      if burst.x1 == 0 && burst.x0 < 8 then
        (k == 12 && burst.x0 / 4 == 1) || (k == 13 && burst.x0 / 2 % 2 == 1) || (k == 14 && burst.x0 % 2 == 1)
      else if burst.x1 == 0 then k == 7 || k == 14
      else if burst.x1 == 2 then k == 5 || k == 10 || k == 12
      else if burst.x1 == 8 then k == 3 || k == 8
      else if burst.x1 == 0x11 then k == 2 || k == 7
      else k == 2 || k == 3 || k == 7 || k == 8);
  }

  lemma QuotientGives(burst: Burst, q: seq<bool>)
    requires Unnoticed(burst) && |q| == 15 && QuotientOf(burst, q)
    ensures BurstOf(q) == burst
  {
    if burst.x1 == 0 && burst.x0 < 8 {
      SmallGives(burst, q);
    } else if burst.x1 == 0 {
      assert !q[0] && !q[1] && !q[2] && !q[3] && !q[4] && !q[5] && !q[6] && !q[8] && !q[9] && !q[10] && !q[11] && !q[12] && !q[13];
      assert q[7] && q[14];
    } else if burst.x1 == 2 {
      assert !q[0] && !q[1] && !q[2] && !q[3] && !q[4] && !q[6] && !q[7] && !q[8] && !q[9] && !q[11] && !q[13] && !q[14];
      assert q[5] && q[10] && q[12];
    } else if burst.x1 == 8 {
      assert !q[0] && !q[1] && !q[2] && !q[4] && !q[5] && !q[6] && !q[7] && !q[9] && !q[10] && !q[11] && !q[12] && !q[13] && !q[14];
      assert q[3] && q[8];
    } else if burst.x1 == 0x11 {
      assert !q[0] && !q[1] && !q[3] && !q[4] && !q[5] && !q[6] && !q[8] && !q[9] && !q[10] && !q[11] && !q[12] && !q[13] && !q[14];
      assert q[2] && q[7];
    } else {
      assert !q[0] && !q[1] && !q[4] && !q[5] && !q[6] && !q[9] && !q[10] && !q[11] && !q[12] && !q[13] && !q[14];
      assert q[2] && q[3] && q[7] && q[8];
    }
  }

  lemma SmallGives(burst: Burst, q: seq<bool>)
    requires Unnoticed(burst) && |q| == 15 && QuotientOf(burst, q) && burst.x1 == 0 && burst.x0 < 8
    ensures BurstOf(q) == burst
  {
    assert forall k | 0 <= k < 12 :: !q[k];
    assert q[12] == (burst.x0 / 4 == 1) && q[13] == (burst.x0 / 2 % 2 == 1) && q[14] == (burst.x0 % 2 == 1);
  }

  lemma NumberInjective(a: seq<bool>, b: seq<bool>)
    requires |a| == |b| == 8
    requires Number(a[0], a[1], a[2], a[3], a[4], a[5], a[6], a[7]) == Number(b[0], b[1], b[2], b[3], b[4], b[5], b[6], b[7])
    ensures a == b
  {
  }

  /** The coefficients at the top determine the quotient. */
  lemma {:induction false} SameTop(q: seq<bool>, r: seq<bool>, n: nat)
    requires |q| == |r| == 15 && n <= 15 && forall i | 0 <= i < 15 :: Coef(q, i) == Coef(r, i)
    ensures q[..n] == r[..n]
  {
    if n > 0 {
      SameTop(q, r, n - 1);
      assert forall k | 0 <= k < n - 1 :: q[k] == q[..n - 1][k] == r[..n - 1][k] == r[k];
      assert Coef(q, n - 1) == Coef(r, n - 1);
    }
  }

  lemma ListedByBody(q: seq<bool>, burst: Burst)
    requires |q| == 15 && Unnoticed(burst) && BurstOf(q).x1 == burst.x1 && BurstOf(q).x0 == burst.x0
    ensures BurstOf(q) == burst
  {
    hide Coef, Number, QuotientOf;
    var r := QuotientExists(burst);
    QuotientGives(burst, r);
    NumberInjective([false] + seq(7, i => Coef(q, i)), [false] + seq(7, i => Coef(r, i)));
    NumberInjective(seq(8, i => Coef(q, 7 + i)), seq(8, i => Coef(r, 7 + i)));
    forall i | 0 <= i < 15 ensures Coef(q, i) == Coef(r, i) {
      assert i < 7 ==> ([false] + seq(7, i => Coef(q, i)))[i + 1] == ([false] + seq(7, i => Coef(r, i)))[i + 1];
      assert i >= 7 ==> seq(8, i => Coef(q, 7 + i))[i - 7] == seq(8, i => Coef(r, 7 + i))[i - 7];
    }
    SameTop(q, r, 15);
    assert q == q[..15] == r[..15] == r;
  }

  // ---- bursts over a frame ----

  /** All damaged bits lie within sixteen consecutive ones. */
  predicate Within16(d: seq<byte>, start: nat) {
    forall i | 0 <= i < 8 * |d| && BitsOf(d)[i] :: start <= i < start + 16
  }

  lemma ZeroByte(b: byte)
    ensures b == 0 <==> forall i | 0 <= i < 8 :: !ByteBits(b)[i]
  {
    hide ByteBits;
    NumberOfByte(b);
  }

  /** The bits of the body's damage, then those of the checksum's as they are sent. */
  lemma WireBits(db: seq<byte>, lo: byte, hi: byte)
    ensures BitsOf(db + [lo, hi]) == BitsOf(db) + (ByteBits(lo) + ByteBits(hi))
  {
    hide BitsOf, ByteBits;
    BitsJoin(db, [lo, hi]);
    BitsUnfold([lo, hi]);
    BitsUnfold([hi]);
    NoBits();
    assert [lo, hi][1..] == [hi] && [hi][1..] == [];
  }

  lemma LastTwo(db: seq<byte>)
    requires |db| >= 2
    ensures var n, x1, x0 := 8 * |db|, db[|db| - 2], db[|db| - 1];
            BitsOf(db)[n - 16..] == ByteBits(x1) + ByteBits(x0)
  {
    hide BitsOf, ByteBits;
    var m := |db| - 2;
    assert db == db[..m] + db[m..];
    BitsJoin(db[..m], db[m..]);
    BitsUnfold(db[m..]);
    BitsUnfold(db[m..][1..]);
    NoBits();
    assert db[m..][1..][1..] == [];
  }

  /** If the checksum is damaged too, only the last fifteen bits of the body can be. */
  lemma QuietStart(db: seq<byte>, lo: byte, hi: byte, start: nat)
    requires |db| >= 2 && Within16(db + [lo, hi], start) && (lo != 0 || hi != 0)
    ensures Confined(BitsOf(db), ByteBits(lo) + ByteBits(hi))
    ensures Feed(0, BitsOf(db)) == Feed(0, BitsOf(db)[8 * |db| - 15..])
  {
    hide BitsOf, ByteBits, Feed;
    WireBits(db, lo, hi);
    ZeroByte(lo);
    ZeroByte(hi);
    var k := DamagedBit(ByteBits(lo), ByteBits(hi));
    Close(BitsOf(db), ByteBits(lo) + ByteBits(hi), start, k);
    QuietPrefix(BitsOf(db), 8 * |db| - 15);
  }

  /** Only the last fifteen bits are damaged, and none too far from damage on the wire. */
  predicate Confined(bits: seq<bool>, wire: seq<bool>)
    requires |bits| >= 15 && |wire| == 16
  {
    && (forall i | 0 <= i < |bits| - 15 :: !bits[i])
    && (forall i, j | |bits| - 15 <= i < |bits| && 0 <= j < 16 && bits[i] && wire[j] :: j <= i - (|bits| - 15))
  }

  lemma Close(bits: seq<bool>, wire: seq<bool>, start: nat, k: nat)
    requires |bits| >= 15 && |wire| == 16 && k < 16 && wire[k]
    requires forall i | 0 <= i < |bits + wire| && (bits + wire)[i] :: start <= i < start + 16
    ensures Confined(bits, wire)
  {
    var all := bits + wire;
    assert forall i | 0 <= i < |bits| :: all[i] == bits[i];
    assert forall j | 0 <= j < 16 :: wire[j] == all[|bits| + j];
    assert all[|bits| + k];
  }

  lemma QuietPrefix(bits: seq<bool>, m: nat)
    requires m <= |bits| && forall i | 0 <= i < m :: !bits[i]
    ensures Feed(0, bits) == Feed(0, bits[m..])
  {
    hide Feed;
    assert bits == bits[..m] + bits[m..];
    FeedJoins(0, bits[..m], bits[m..]);
    QuietBits(0, bits[..m]);
  }

  lemma DamagedBit(a: seq<bool>, b: seq<bool>) returns (k: nat)
    requires |a| == |b| == 8 && ((exists i | 0 <= i < 8 :: a[i]) || (exists i | 0 <= i < 8 :: b[i]))
    ensures k < 16 && (a + b)[k]
  {
    if i :| 0 <= i < 8 && a[i] {
      k := i;
    } else {
      var j :| 0 <= j < 8 && b[j];
      k := 8 + j;
    }
  }

  /** The burst the register completes the end of the body to. */
  lemma Completed(t: seq<bool>, x1: byte, x0: byte) returns (q: seq<bool>)
    requires |t| == 15 && ByteBits(x1) + ByteBits(x0) == [false] + t
    ensures |q| == 15 && BurstOf(q) == Burst(x1, x0, Lo(Feed(0, t)), Hi(Feed(0, t)))
    ensures forall i | 0 <= i < 15 :: t[i] == Coef(q, i)
    ensures forall i | 0 <= i < 16 :: Coefficients(Feed(0, t))[i] == Coef(q, 15 + i)
  {
    hide Feed, ByteBits, Coef, Number, Coefficients;
    q := FifteenBits(t);
    var r := Feed(0, t);
    WordBits(Lo(r), Hi(r));
    NumbersOfBits(q, [false] + t, x1, x0);
    LastBits(q, Coefficients(r), Lo(r), Hi(r));
  }

  lemma NumbersOfBits(q: seq<bool>, bits: seq<bool>, x1: byte, x0: byte)
    requires |bits| == 16 && bits == ByteBits(x1) + ByteBits(x0) && !bits[0]
    requires forall i | 0 <= i < 15 :: bits[i + 1] == Coef(q, i)
    ensures BurstOf(q).x1 == x1 && BurstOf(q).x0 == x0
  {
    hide ByteBits, Coef, Number;
    NumberOfByte(x1);
    NumberOfByte(x0);
    var b1, b0 := ByteBits(x1), ByteBits(x0);
    assert forall i | 0 <= i < 8 :: b1[i] == bits[i];
    assert forall i | 0 <= i < 8 :: b0[i] == bits[8 + i] == bits[(7 + i) + 1];
  }

  lemma LastBits(q: seq<bool>, bits: seq<bool>, lo: byte, hi: byte)
    requires |bits| == 16 && bits == ByteBits(hi) + ByteBits(lo)
    requires forall i | 0 <= i < 16 :: bits[i] == Coef(q, 15 + i)
    ensures BurstOf(q).lo == lo && BurstOf(q).hi == hi
  {
    hide ByteBits, Coef, Number;
    NumberOfByte(lo);
    NumberOfByte(hi);
    var h, l := ByteBits(hi), ByteBits(lo);
    assert forall i | 0 <= i < 8 :: h[i] == bits[i] == Coef(q, 15 + i);
    assert forall i | 0 <= i < 8 :: l[i] == bits[8 + i] == Coef(q, 15 + (8 + i));
  }

  /** A burst that damages the checksum goes unnoticed if and only if it is one of the twelve. */
  lemma TailDecides(db: seq<byte>, lo: byte, hi: byte, start: nat)
    requires |db| >= 2 && Within16(db + [lo, hi], start) && (lo != 0 || hi != 0)
    ensures Feed(0, BitsOf(db)) == U16(lo, hi) <==> Unnoticed(Burst(db[|db| - 2], db[|db| - 1], lo, hi))
  {
    hide BitsOf, ByteBits, Feed, Coef, Number, Coefficients, BurstOf, Within16, Lo, Hi, Unnoticed;
    var n, x1, x0 := 8 * |db|, db[|db| - 2], db[|db| - 1];
    var t := BitsOf(db)[n - 15..];
    QuietStart(db, lo, hi, start);
    LastTwo(db);
    assert BitsOf(db)[n - 16..] == [false] + t;
    var q := Completed(t, x1, x0);
    var r := Feed(0, t);
    PartsOfU16(lo, hi);
    assert forall i | 0 <= i < 15 :: t[i] == BitsOf(db)[n - 15 + i];
    if r == U16(lo, hi) {
      var f := IsShort(q, t, lo, hi);
      ShortIsListed(q, f);
    }
    if Unnoticed(Burst(x1, x0, lo, hi)) {
      ListedByBody(q, Burst(x1, x0, lo, hi));
      WholeWord(r);
    }
  }

  lemma WholeWord(r: u16)
    ensures U16(Lo(r), Hi(r)) == r
  {
  }

  lemma IsShort(q: seq<bool>, t: seq<bool>, lo: byte, hi: byte) returns (f: nat)
    requires |q| == |t| == 15 && (lo != 0 || hi != 0)
    requires forall i | 0 <= i < 15 :: t[i] == Coef(q, i)
    requires forall i | 0 <= i < 16 :: Coefficients(U16(lo, hi))[i] == Coef(q, 15 + i)
    requires var wire := ByteBits(lo) + ByteBits(hi); forall i, k | 0 <= i < 15 && 0 <= k < 16 && t[i] && wire[k] :: k <= i
    ensures Short(q, f)
  {
    hide ByteBits, Coef, Coefficients;
    WordBits(lo, hi);
    var l, h := ByteBits(lo), ByteBits(hi);
    var wire := l + h;
    forall m | 15 <= m < 31 ensures Coef(q, m) == wire[Place(m)] {
      assert (h + l)[m - 15] == Coef(q, 15 + (m - 15));
    }
    ZeroByte(lo);
    ZeroByte(hi);
    var k := DamagedBit(l, h);
    var m := if k < 8 then k + 23 else k + 7;
    assert Coef(q, m);
    f := FirstCoef(q, m);
    assert t[f];
  }

  /** The first one of a quotient is the first one of the product. */
  lemma FirstCoef(q: seq<bool>, m: int) returns (f: nat)
    requires |q| == 15 && Coef(q, m)
    ensures f < 15 && At(q, f) && Coef(q, f) && forall i | 0 <= i < f :: !At(q, i)
  {
    var i :| At(q, i);
    f := FirstError(q);
  }

  /** Damage to a frame within sixteen consecutive bits, length field and start byte
      spared, goes unnoticed, whatever follows, if and only if it is one of twelve bursts
      across the end of the body and the checksum. */
  lemma BurstNoticedExactly(p: Packet, damaged: seq<byte>, start: nat, rest: seq<byte>)
    requires Sendable(p) && |damaged| == |Encode(p)| && damaged != Encode(p)
    requires damaged[0] == START_BYTE && damaged[5..7] == Encode(p)[5..7]
    requires Within16(Damage(Encode(p)[1..], damaged[1..]), start)
    ensures var f, n := Encode(p), |damaged|;
            StartsWithFrame(damaged + rest) <==>
            Unnoticed(Burst(Xor8(f[n - 4], damaged[n - 4]), Xor8(f[n - 3], damaged[n - 3]),
                            Xor8(f[n - 2], damaged[n - 2]), Xor8(f[n - 1], damaged[n - 1])))
  {
    hide BitsOf, Feed, Xor8, Encode, Within16, StartsWithFrame, Damage, Unnoticed;
    var f, n := Encode(p), |damaged|;
    DamageParts(f, damaged);
    DamageAcceptedExactly(p, damaged, rest);
    EncodedFields(p);
    DamageDecides(f, damaged, start);
  }

  lemma DamageDecides(f: seq<byte>, damaged: seq<byte>, start: nat)
    requires |f| == |damaged| >= 9 && damaged != f && damaged[0] == f[0] && Within16(Damage(f[1..], damaged[1..]), start)
    ensures var n := |f|;
            var db := Damage(f[1..n - 2], damaged[1..n - 2]);
            var lo, hi := Xor8(f[n - 2], damaged[n - 2]), Xor8(f[n - 1], damaged[n - 1]);
            var burst := Burst(Xor8(f[n - 4], damaged[n - 4]), Xor8(f[n - 3], damaged[n - 3]), lo, hi);
            && (Feed(0, BitsOf(db)) == U16(lo, hi) <==> Unnoticed(burst))
            && (Unnoticed(burst) ==> damaged[1] == f[1])
  {
    hide BitsOf, Feed, Xor8, Within16, Damage, Unnoticed;
    var n := |f|;
    var db := Damage(f[1..n - 2], damaged[1..n - 2]);
    var lo, hi := Xor8(f[n - 2], damaged[n - 2]), Xor8(f[n - 1], damaged[n - 1]);
    DamageParts(f, damaged);
    if lo == 0 && hi == 0 {
      BodyDamageNoticed(f, damaged, db, start);
      ListedDamageChecksum(Burst(db[|db| - 2], db[|db| - 1], lo, hi));
    } else {
      TailDecides(db, lo, hi, start);
      VersionSpared(f, damaged, db, lo, hi, start);
    }
  }

  lemma ListedDamageChecksum(burst: Burst)
    ensures Unnoticed(burst) ==> burst.lo != 0
  {
  }

  lemma DamageParts(f: seq<byte>, damaged: seq<byte>)
    requires |f| == |damaged| >= 9
    ensures var n := |f|;
            var db := Damage(f[1..n - 2], damaged[1..n - 2]);
            && Damage(f[1..], damaged[1..]) == db + [Xor8(f[n - 2], damaged[n - 2]), Xor8(f[n - 1], damaged[n - 1])]
            && db[|db| - 2] == Xor8(f[n - 4], damaged[n - 4]) && db[|db| - 1] == Xor8(f[n - 3], damaged[n - 3])
            && db[0] == Xor8(f[1], damaged[1])
  {
    hide Xor8, Damage;
  }

  lemma SameByXor(a: byte, b: byte)
    ensures Xor8(a, b) == 0 <==> a == b
  {
    hide Xor, Pow2;
    XorSame(a);
    if Xor8(a, b) == 0 { XorZeroOnlyIfSame(a, b); }
  }

  /** A burst that spares the checksum is always noticed. */
  lemma BodyDamageNoticed(f: seq<byte>, damaged: seq<byte>, db: seq<byte>, start: nat)
    requires |f| == |damaged| >= 9 && damaged != f && damaged[0] == f[0]
    requires db == Damage(f[1..|f| - 2], damaged[1..|f| - 2]) && Within16(db + [0, 0], start)
    requires Xor8(f[|f| - 2], damaged[|f| - 2]) == 0 == Xor8(f[|f| - 1], damaged[|f| - 1])
    ensures Feed(0, BitsOf(db)) != 0
  {
    hide BitsOf, Feed, Xor8, Damage;
    var n := |f|;
    SameByXor(f[n - 2], damaged[n - 2]);
    SameByXor(f[n - 1], damaged[n - 1]);
    var a, b := f[1..n - 2], damaged[1..n - 2];
    assert f == [f[0]] + a + [f[n - 2], f[n - 1]] && damaged == [damaged[0]] + b + [damaged[n - 2], damaged[n - 1]];
    WireBits(db, 0, 0);
    DamagedBits(a, b);
    if BitsOf(a) == BitsOf(b) { BitsInjective(a, b); }
    var i :| 0 <= i < |BitsOf(a)| && BitsOf(a)[i] != BitsOf(b)[i];
    assert BitsOf(db)[i];
    assert forall k | 0 <= k < 8 * |db| :: BitsOf(db + [0, 0])[k] == BitsOf(db)[k];
    BurstLeavesError(BitsOf(db), start);
  }

  /** A burst that reaches the checksum spares the version byte. */
  lemma VersionSpared(f: seq<byte>, damaged: seq<byte>, db: seq<byte>, lo: byte, hi: byte, start: nat)
    requires |f| == |damaged| >= 9 && db == Damage(f[1..|f| - 2], damaged[1..|f| - 2])
    requires Within16(db + [lo, hi], start) && (lo != 0 || hi != 0)
    ensures damaged[1] == f[1]
  {
    hide BitsOf, Feed, Xor8, Within16, Damage;
    QuietStart(db, lo, hi, start);
    BitsUnfold(db);
    assert forall i | 0 <= i < 8 :: BitsOf(db)[i] == ByteBits(db[0])[i];
    ZeroByte(db[0]);
    assert db[0] == Xor8(f[1], damaged[1]);
    SameByXor(f[1], damaged[1]);
  }
}
