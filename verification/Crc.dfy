/** The bit-serial 16-bit checksum both ends compute, and what it detects. */
module Crc {
  import opened Bits
  import opened Wire

  const PRESET: u16 := 0xFFFF
  const GENERATOR: u16 := 0x1021

  // ---- the register ----

  function Xor16(a: u16, b: u16): u16 {
    Pow2Values();
    XorBound(a, b, 16);
    Xor(a, b)
  }

  /** One shift of the register: the bit that leaves selects the feedback. */
  function Step(r: u16): u16 {
    if r < 0x8000 then 2 * r else Xor16(2 * r - 0x1_0000, GENERATOR)
  }

  /** The shift as both implementations write it, on integers cut to sixteen bits. */
  lemma StepInWords(r: u16)
    ensures Step(r) == if r / 0x8000 % 2 == 1 then Xor(2 * r, GENERATOR) % 0x1_0000 else 2 * r % 0x1_0000
  {
    hide Xor, Pow2;
    Pow2Values();
    if r >= 0x8000 {
      XorAbove(2 * r - 0x1_0000, GENERATOR, 16);
    }
  }

  function Steps(r: u16, n: nat): u16
    decreases n
  {
    if n == 0 then r else Steps(Step(r), n - 1)
  }

  function Absorb(r: u16, b: byte): u16 {
    Steps(Xor16(r, U16(0, b)), 8)
  }

  /** The register after absorbing `data` from register value `r`. */
  function CrcFrom(r: u16, data: seq<byte>): u16
    decreases |data|
  {
    if data == [] then r else CrcFrom(Absorb(r, data[0]), data[1..])
  }

  function Crc16(data: seq<byte>): u16 {
    CrcFrom(PRESET, data)
  }

  /** The nested loops of both implementations. */
  method ComputeCrc16(data: seq<byte>) returns (crc: u16)
    ensures crc == Crc16(data)
  {
    hide Xor, Pow2, Absorb, CrcFrom, Step;
    crc := PRESET;
    assert data[0..] == data;
    assert CrcFrom(crc, data[0..]) == Crc16(data);
    for i := 0 to |data|
      invariant CrcFrom(crc, data[i..]) == Crc16(data)
    {
      ghost var next := Absorb(crc, data[i]);
      CrcFromUnfolds(crc, data, i);
      crc := Xor16(crc, U16(0, data[i]));
      for bit := 0 to 8
        invariant Steps(crc, 8 - bit) == next
      {
        StepInWords(crc);
        if crc / 0x8000 % 2 == 1 {
          crc := Xor(2 * crc, GENERATOR) % 0x1_0000;
        } else {
          crc := 2 * crc % 0x1_0000;
        }
      }
    }
    assert data[|data|..] == [];
    CrcFromUnfolds(crc, data, |data|);
  }

  lemma CrcFromUnfolds(r: u16, data: seq<byte>, i: nat)
    requires i <= |data|
    ensures if i == |data| then CrcFrom(r, data[i..]) == r
            else Absorb(r, data[i]) == Steps(Xor16(r, U16(0, data[i])), 8)
                 && CrcFrom(r, data[i..]) == CrcFrom(Absorb(r, data[i]), data[i + 1..])
  {
    hide Xor, Pow2, Steps;
    if i < |data| {
      assert data[i..][1..] == data[i + 1..];
    }
  }

  // ---- linearity and invertibility ----

  lemma StepLinear(a: u16, b: u16)
    ensures Step(Xor16(a, b)) == Xor16(Step(a), Step(b))
  {
    hide Xor; hide Pow2;
    Pow2Values();
    var a0, b0 := a % 0x8000, b % 0x8000;
    XorDoubles(a0, b0);
    XorBound(a0, b0, 15);
    if a < 0x8000 && b < 0x8000 {
    } else if b < 0x8000 {
      StepLinearHigh(a0, b);
    } else if a < 0x8000 {
      StepLinearHigh(b0, a);
      XorCommutes(a, b);
      XorCommutes(Step(a), Step(b));
    } else {
      XorAboveBoth(a0, b0, 15);
      XorSwap(2 * a0, 2 * b0, GENERATOR, GENERATOR);
      XorSame(GENERATOR);
      XorNothing(Xor(2 * a0, 2 * b0));
    }
  }

  lemma StepLinearHigh(a0: nat, b: nat)
    requires a0 < 0x8000 && b < 0x8000
    ensures Step(Xor16(0x8000 + a0, b)) == Xor16(Step(0x8000 + a0), Step(b))
  {
    hide Xor; hide Pow2;
    Pow2Values();
    XorDoubles(a0, b);
    XorBound(a0, b, 15);
    XorAbove(a0, b, 15);
    XorAssociates(2 * a0, 2 * b, GENERATOR);
    XorCommutes(2 * b, GENERATOR);
    XorAssociates(2 * a0, GENERATOR, 2 * b);
  }

  lemma StepZeroOnlyFromZero(r: u16)
    requires Step(r) == 0
    ensures r == 0
  {
    hide Xor;
    if r >= 0x8000 {
      FeedbackIsOdd(2 * r - 0x1_0000);
    }
  }

  lemma FeedbackIsOdd(x: nat)
    requires x % 2 == 0
    ensures Xor(x, GENERATOR) % 2 == 1
  {
    hide Xor;
    XorHalves(x, GENERATOR);
  }

  lemma StepInjective(a: u16, b: u16)
    requires Step(a) == Step(b)
    ensures a == b
  {
    StepLinear(a, b);
    XorSame(Step(a));
    StepZeroOnlyFromZero(Xor16(a, b));
    XorZeroOnlyIfSame(a, b);
  }

  // ---- the same register, fed bit by bit ----

  /** Register `r` after the bits are added to its top one at a time. */
  function Feed(r: u16, bits: seq<bool>): u16
    decreases |bits|
  {
    if bits == [] then r else Feed(Step(Xor16(r, if bits[0] then 0x8000 else 0)), bits[1..])
  }

  /** The n leading bits of the 16-bit word w. */
  function Leading(w: u16, n: nat): (bits: seq<bool>)
    ensures |bits| == n
    decreases n
  {
    if n == 0 then [] else [w >= 0x8000] + Leading(2 * w % 0x1_0000, n - 1)
  }

  function Shifted(w: u16, n: nat): u16
    decreases n
  {
    if n == 0 then w else Shifted(2 * w % 0x1_0000, n - 1)
  }

  /** A word is its top bit and the rest, of which a shift makes twice the rest. */
  lemma TopAndRest(r: u16, w: u16)
    ensures var top: u16 := if w >= 0x8000 then 0x8000 else 0;
            Step(Xor16(r, w)) == Xor16(Step(Xor16(r, top)), 2 * w % 0x1_0000)
  {
    hide Xor, Pow2;
    var top: u16 := if w >= 0x8000 then 0x8000 else 0;
    var low: u16 := w % 0x8000;
    Pow2Values();
    XorNothing(low);
    XorAbove(0, low, 15);
    XorCommutes(0x8000, low);
    XorCommutes(0, low);
    assert Xor16(top, low) == w;
    XorAssociates(r, top, low);
    StepLinear(Xor16(r, top), low);
  }

  /** A word xored in at once does what its bits do one at a time. */
  lemma {:induction false} WordAsBits(r: u16, w: u16, n: nat)
    ensures Steps(Xor16(r, w), n) == Xor16(Feed(r, Leading(w, n)), Shifted(w, n))
    decreases n
  {
    hide Xor, Pow2, Step, Xor16;
    if n > 0 {
      var top: u16 := if w >= 0x8000 then 0x8000 else 0;
      TopAndRest(r, w);
      WordAsBits(Step(Xor16(r, top)), 2 * w % 0x1_0000, n - 1);
      assert Leading(w, n)[0] == (w >= 0x8000);
      assert Leading(w, n)[1..] == Leading(2 * w % 0x1_0000, n - 1);
    }
  }

  /** An n-bit number, moved to the top of the word, leaves it digit by digit. */
  lemma {:induction false} LeadingIsDigits(w: u16, v: nat, n: nat, unit: nat)
    requires v < Pow2(n) && Pow2(n) * unit == 0x1_0000 && w == v * unit
    ensures Leading(w, n) == Digits(v, n)
    ensures Shifted(w, n) == 0
    decreases n
  {
    hide Pow2;
    Pow2Values();
    if n == 0 {
      assert Pow2(0) == 1 by { ZerothPower(); }
    } else {
      Pow2Doubles(n - 1);
      var half := Pow2(n - 1);
      var rest := if v >= half then v - half else v;
      HalveUnit(v, half, unit);
      LeadingIsDigits(2 * w % 0x1_0000, rest, n - 1, 2 * unit);
    }
  }

  lemma ZerothPower()
    ensures Pow2(0) == 1
  {
  }

  lemma HalveUnit(v: nat, half: nat, unit: nat)
    requires v < 2 * half && 2 * half * unit == 0x1_0000
    ensures v < half ==> v * unit < 0x8000 && 2 * (v * unit) == v * (2 * unit)
    ensures v >= half ==> 0x8000 <= v * unit < 0x1_0000 && 2 * (v * unit) - 0x1_0000 == (v - half) * (2 * unit)
    ensures half * (2 * unit) == 0x1_0000
  {
    TwiceProduct(half, unit);
    if v < half {
      TwiceProduct(v, unit);
      SmallerProduct(v, half, unit);
    } else {
      TwiceProduct(v - half, unit);
      Distribute(v - half, half, unit);
      SmallerProduct(v - half, half, unit);
    }
  }

  lemma TwiceProduct(a: nat, unit: nat)
    ensures a * (2 * unit) == 2 * (a * unit) == 2 * a * unit
  {
  }

  lemma SmallerProduct(a: nat, b: nat, unit: nat)
    requires a < b && b * unit > 0
    ensures a * unit < b * unit
  {
  }

  lemma Distribute(a: nat, b: nat, unit: nat)
    ensures (a + b) * unit == a * unit + b * unit
  {
  }

  // ---- bytes as bits, most significant first ----

  function BitsOf(data: seq<byte>): (bits: seq<bool>)
    ensures |bits| == 8 * |data|
  {
    Pow2Values();
    if data == [] then [] else Digits(data[0], 8) + BitsOf(data[1..])
  }

  lemma ByteAsBits(r: u16, b: byte)
    requires b < Pow2(8)
    ensures Absorb(r, b) == Feed(r, Digits(b, 8))
  {
    hide Xor, Pow2, Step, Feed;
    Pow2Values();
    LeadingIsDigits(U16(0, b), b, 8, 0x100);
    WordAsBits(r, U16(0, b), 8);
    XorNothing(Feed(r, Digits(b, 8)));
  }

  lemma {:induction false} FeedJoins(r: u16, a: seq<bool>, b: seq<bool>)
    ensures Feed(r, a + b) == Feed(Feed(r, a), b)
    decreases |a|
  {
    hide Xor, Pow2, Step;
    if a == [] {
      assert a + b == b;
    } else {
      assert (a + b)[1..] == a[1..] + b;
      FeedJoins(Step(Xor16(r, if a[0] then 0x8000 else 0)), a[1..], b);
    }
  }

  lemma {:induction false} CrcAsBits(r: u16, data: seq<byte>)
    ensures CrcFrom(r, data) == Feed(r, BitsOf(data))
    decreases |data|
  {
    hide Xor, Pow2, Step, Absorb;
    if data != [] {
      Pow2Values();
      ByteAsBits(r, data[0]);
      CrcAsBits(Absorb(r, data[0]), data[1..]);
      FeedJoins(r, Digits(data[0], 8), BitsOf(data[1..]));
    }
  }

  // ---- burst errors ----

  lemma {:induction false} FeedLinear(r: u16, s: u16, a: seq<bool>, b: seq<bool>)
    requires |a| == |b|
    ensures Feed(Xor16(r, s), Differences(a, b)) == Xor16(Feed(r, a), Feed(s, b))
    decreases |a|
  {
    hide Xor, Pow2, Step;
    if a != [] {
      var x: u16 := if a[0] then 0x8000 else 0;
      var y: u16 := if b[0] then 0x8000 else 0;
      var d: u16 := if a[0] != b[0] then 0x8000 else 0;
      assert Xor16(x, y) == d by { XorSame(0x8000); XorNothing(0); XorNothing(0x8000); }
      XorSwap(r, s, x, y);
      assert Xor16(Xor16(r, s), d) == Xor16(Xor16(r, x), Xor16(s, y));
      StepLinear(Xor16(r, x), Xor16(s, y));
      FeedLinear(Step(Xor16(r, x)), Step(Xor16(s, y)), a[1..], b[1..]);
      assert Differences(a, b)[1..] == Differences(a[1..], b[1..]);
    }
  }

  /** Error-free bits neither create an error nor hide one. */
  lemma {:induction false} QuietBits(r: u16, bits: seq<bool>)
    requires forall i | 0 <= i < |bits| :: !bits[i]
    ensures Feed(r, bits) == 0 <==> r == 0
    decreases |bits|
  {
    hide Xor, Pow2, Step;
    if bits != [] {
      XorNothing(r);
      QuietBits(Step(r), bits[1..]);
      StepZero(r);
    }
  }

  lemma StepZero(r: u16)
    ensures Step(r) == 0 <==> r == 0
  {
    if Step(r) == 0 { StepZeroOnlyFromZero(r); }
  }

  lemma {:induction false} StepsKeepErrors(r: u16, n: nat)
    requires r != 0
    ensures Steps(r, n) != 0
    decreases n
  {
    if n > 0 {
      StepZero(r);
      StepsKeepErrors(Step(r), n - 1);
    }
  }

  /** At most sixteen bits starting with a one leave a nonzero register. */
  lemma ShortBurst(bits: seq<bool>)
    requires 0 < |bits| <= 16 && bits[0]
    ensures Feed(0, bits) != 0
  {
    hide Xor, Feed, Step, Leading, Shifted;
    var n, v := |bits|, Value(bits);
    var unit := Pow2(16 - n);
    Pow2Values();
    Pow2Splits(n, 16 - n);
    assert v > 0;
    assert v * unit < 0x1_0000 by { SmallerProduct(v, Pow2(n), unit); }
    assert v * unit > 0;
    var w: u16 := v * unit;
    DigitsOfValue(bits);
    LeadingIsDigits(w, v, n, unit);
    WordAsBits(0, w, n);
    XorNothing(w);
    XorNothing(Feed(0, bits));
    StepsKeepErrors(w, n);
  }

  lemma {:induction false} FirstError(e: seq<bool>) returns (k: nat)
    requires exists i | 0 <= i < |e| :: e[i]
    ensures k < |e| && e[k] && forall i | 0 <= i < k :: !e[i]
  {
    k := 0;
    while !e[k]
      invariant k < |e| && forall i | 0 <= i < k :: !e[i]
      invariant exists i | k <= i < |e| :: e[i]
      decreases |e| - k
    {
      k := k + 1;
    }
  }

  lemma BurstLeavesError(e: seq<bool>, start: nat)
    requires exists i | 0 <= i < |e| :: e[i]
    requires forall i | 0 <= i < |e| && e[i] :: start <= i < start + 16
    ensures Feed(0, e) != 0
  {
    hide Xor, Pow2, Step, Feed;
    var k := FirstError(e);
    var end := if k + 16 < |e| then k + 16 else |e|;
    var before, burst, after := e[..k], e[k..end], e[end..];
    assert e == before + (burst + after);
    FeedJoins(0, before, burst + after);
    FeedJoins(0, burst, after);
    QuietBits(0, before);
    assert burst[0] == e[k];
    ShortBurst(burst);
    forall i | 0 <= i < |after| ensures !after[i] {
      assert after[i] == e[end + i];
    }
    QuietBits(Feed(0, burst), after);
  }

  /** Different strings of equal length that differ only inside sixteen consecutive bits
      have different checksums. */
  lemma BurstDetected(a: seq<byte>, b: seq<byte>, start: nat)
    requires |a| == |b| && a != b
    requires forall i | 0 <= i < 8 * |a| && BitsOf(a)[i] != BitsOf(b)[i] :: start <= i < start + 16
    ensures Crc16(a) != Crc16(b)
  {
    hide Xor, Pow2, Step, Feed, BitsOf, CrcFrom;
    var x, y := BitsOf(a), BitsOf(b);
    var e := Differences(x, y);
    if x == y { BitsInjective(a, b); }
    var i :| 0 <= i < |x| && x[i] != y[i];
    assert e[i];
    BurstLeavesError(e, start);
    XorSame(PRESET);
    FeedLinear(PRESET, PRESET, x, y);
    CrcAsBits(PRESET, a);
    CrcAsBits(PRESET, b);
    XorSame(Crc16(a));
  }

  lemma {:induction false} BitsInjective(a: seq<byte>, b: seq<byte>)
    requires |a| == |b| && BitsOf(a) == BitsOf(b)
    ensures a == b
  {
    hide Pow2, Digits, Value;
    if a != [] {
      Pow2Values();
      ValueOfDigits(a[0], 8);
      ValueOfDigits(b[0], 8);
      assert BitsOf(a)[..8] == Digits(a[0], 8) && BitsOf(a)[8..] == BitsOf(a[1..]);
      assert BitsOf(b)[..8] == Digits(b[0], 8) && BitsOf(b)[8..] == BitsOf(b[1..]);
      BitsInjective(a[1..], b[1..]);
      assert a == [a[0]] + a[1..] && b == [b[0]] + b[1..];
    }
  }

  // ---- parity ----

  function OnesIn(data: seq<byte>): nat {
    if data == [] then 0 else Ones(data[0]) + OnesIn(data[1..])
  }

  lemma OnesOfGenerator()
    ensures Ones(GENERATOR) == 3
  {
    hide Pow2;
    assert Ones(0x10) == 1 && Ones(0x21) == 2;
    Pow2Values();
    OnesSplit(0x10, 0x21, 8);
  }

  lemma StepKeepsParity(r: u16)
    ensures Ones(Step(r)) % 2 == Ones(r) % 2
  {
    hide Xor, Pow2, Ones;
    Pow2Values();
    if r < 0x8000 {
      OnesDouble(r);
    } else {
      var low := r - 0x8000;
      OnesAbove(low, 15);
      OnesDouble(low);
      OnesXor(2 * low, GENERATOR);
      OnesOfGenerator();
    }
  }

  lemma {:induction false} StepsKeepParity(r: u16, n: nat)
    ensures Ones(Steps(r, n)) % 2 == Ones(r) % 2
    decreases n
  {
    hide Ones, Step;
    if n > 0 {
      StepKeepsParity(r);
      StepsKeepParity(Step(r), n - 1);
    }
  }

  lemma {:induction false} CrcParityFrom(r: u16, data: seq<byte>)
    ensures Ones(CrcFrom(r, data)) % 2 == (Ones(r) + OnesIn(data)) % 2
    decreases |data|
  {
    hide Ones, Step, Steps, Xor, Pow2;
    if data != [] {
      var b := data[0];
      CrcParityFrom(Absorb(r, b), data[1..]);
      StepsKeepParity(Xor16(r, U16(0, b)), 8);
      OnesXor(r, U16(0, b));
      OnesShifted(b, 8);
      assert Pow2(8) * b == U16(0, b) by { Pow2Values(); }
    }
  }

  lemma {:induction false} OnesShifted(v: nat, n: nat)
    ensures Ones(Pow2(n) * v) == Ones(v)
  {
    hide Ones, Pow2;
    OnesOfZero();
    OnesSplit(v, 0, n);
  }

  lemma OnesOfPreset()
    ensures Ones(PRESET) == 16
  {
    assert Pow2(4) == 16 && Ones(0xF) == 4;
    OnesSplit(0xF, 0xF, 4);
    Pow2Values();
    OnesSplit(0xFF, 0xFF, 8);
  }

  lemma OnesOfHalves(x: u16)
    ensures Ones(x) == Ones(Lo(x)) + Ones(Hi(x))
  {
    hide Ones;
    Pow2Values();
    OnesSplit(Hi(x), Lo(x), 8);
  }

  lemma {:induction false} OnesSplit(high: nat, low: nat, n: nat)
    requires low < Pow2(n)
    ensures Ones(Pow2(n) * high + low) == Ones(high) + Ones(low)
    decreases n
  {
    hide Ones, Pow2;
    if n == 0 {
      ZerothPower();
      OnesOfZero();
      assert Pow2(0) * high == high;
    } else {
      Pow2Doubles(n - 1);
      OnesSplit(high, low / 2, n - 1);
      var shifted := Pow2(n - 1) * high;
      TwiceProduct(Pow2(n - 1), high);
      OnesHalve(2 * shifted + low);
      OnesHalve(low);
      assert (2 * shifted + low) / 2 == shifted + low / 2;
    }
  }

  /** The checksum has an even number of ones exactly when the data has. */
  lemma CrcParity(data: seq<byte>)
    ensures (Ones(Lo(Crc16(data))) + Ones(Hi(Crc16(data)))) % 2 == OnesIn(data) % 2
  {
    hide Xor, Step, Absorb, CrcFrom, Ones;
    CrcParityFrom(PRESET, data);
    assert Ones(PRESET) == 16 by { OnesOfPreset(); }
    OnesOfHalves(Crc16(data));
  }
}
