/** Naturals read as bit strings: exclusive or, bit counts and powers of two. */
module Bits {

  function Pow2(n: nat): (p: nat)
    ensures p > 0
  {
    if n == 0 then 1 else 2 * Pow2(n - 1)
  }

  lemma Pow2Doubles(n: nat)
    ensures Pow2(n + 1) == 2 * Pow2(n)
  {
  }

  lemma {:induction false} Pow2Splits(m: nat, n: nat)
    ensures Pow2(m) * Pow2(n) == Pow2(m + n)
  {
    hide Pow2;
    if m == 0 {
      Pow2OfZero();
    } else {
      var a, b := Pow2(m - 1), Pow2(n);
      Pow2Splits(m - 1, n);
      Pow2Doubles(m - 1);
      Pow2Doubles(m - 1 + n);
      TwiceTimes(a, b);
    }
  }

  lemma Pow2OfZero()
    ensures Pow2(0) == 1
  {
  }

  lemma TwiceTimes(a: nat, b: nat)
    ensures (2 * a) * b == 2 * (a * b)
  {
  }

  /** The bitwise exclusive or of two naturals. */
  function Xor(a: nat, b: nat): nat {
    if a == 0 then b
    else if b == 0 then a
    else 2 * Xor(a / 2, b / 2) + (if a % 2 == b % 2 then 0 else 1)
  }

  /** The number of one bits in the binary notation of n. */
  function Ones(n: nat): nat {
    if n == 0 then 0 else n % 2 + Ones(n / 2)
  }

  lemma {:induction false} XorHalves(a: nat, b: nat)
    ensures Xor(a, b) / 2 == Xor(a / 2, b / 2)
    ensures Xor(a, b) % 2 == (if a % 2 == b % 2 then 0 else 1)
  {
  }

  lemma XorNothing(a: nat)
    ensures Xor(a, 0) == a == Xor(0, a)
  {
  }

  lemma {:induction false} XorSame(a: nat)
    ensures Xor(a, a) == 0
  {
    if a != 0 { XorSame(a / 2); }
  }

  lemma {:induction false} XorZeroOnlyIfSame(a: nat, b: nat)
    requires Xor(a, b) == 0
    ensures a == b
  {
    if a != 0 && b != 0 { XorZeroOnlyIfSame(a / 2, b / 2); }
  }

  lemma {:induction false} XorCommutes(a: nat, b: nat)
    ensures Xor(a, b) == Xor(b, a)
  {
    if a != 0 && b != 0 { XorCommutes(a / 2, b / 2); }
  }

  lemma {:induction false} XorAssociates(a: nat, b: nat, c: nat)
    ensures Xor(Xor(a, b), c) == Xor(a, Xor(b, c))
    decreases a
  {
    if a != 0 && b != 0 && c != 0 {
      XorAssociates(a / 2, b / 2, c / 2);
      XorHalves(a, b);
      XorHalves(b, c);
      XorHalves(Xor(a, b), c);
      XorHalves(a, Xor(b, c));
    }
  }

  /** (a xor c) xor (b xor d) regroups as (a xor b) xor (c xor d). */
  lemma XorSwap(a: nat, b: nat, c: nat, d: nat)
    ensures Xor(Xor(a, c), Xor(b, d)) == Xor(Xor(a, b), Xor(c, d))
  {
    XorAssociates(a, c, Xor(b, d));
    XorAssociates(c, b, d);
    XorCommutes(c, b);
    XorAssociates(b, c, d);
    XorAssociates(a, b, Xor(c, d));
  }

  lemma XorDoubles(a: nat, b: nat)
    ensures Xor(2 * a, 2 * b) == 2 * Xor(a, b)
  {
    if a != 0 && b != 0 { assert 2 * a / 2 == a && 2 * b / 2 == b; }
  }

  lemma {:induction false} XorBound(a: nat, b: nat, n: nat)
    requires a < Pow2(n) && b < Pow2(n)
    ensures Xor(a, b) < Pow2(n)
  {
    if a != 0 && b != 0 { XorBound(a / 2, b / 2, n - 1); }
  }

  /** A one bit above both operands passes through. */
  lemma {:induction false} XorAbove(a: nat, b: nat, n: nat)
    requires a < Pow2(n) && b < Pow2(n)
    ensures Xor(Pow2(n) + a, b) == Pow2(n) + Xor(a, b)
  {
    if b != 0 {
      assert n > 0;
      XorAbove(a / 2, b / 2, n - 1);
      assert (Pow2(n) + a) / 2 == Pow2(n - 1) + a / 2;
      XorHalves(Pow2(n) + a, b);
      XorHalves(a, b);
    }
  }

  /** A one bit above both operands cancels. */
  lemma XorAboveBoth(a: nat, b: nat, n: nat)
    requires a < Pow2(n) && b < Pow2(n)
    ensures Xor(Pow2(n) + a, Pow2(n) + b) == Xor(a, b)
  {
    hide Xor, Pow2;
    var p := Pow2(n);
    XorAbove(0, a, n);
    XorAbove(0, b, n);
    XorNothing(a);
    XorNothing(b);
    XorSwap(p, p, a, b);
    XorSame(p);
    XorNothing(Xor(a, b));
  }

  lemma OnesDouble(a: nat)
    ensures Ones(2 * a) == Ones(a)
  {
    if a != 0 { assert 2 * a / 2 == a; }
  }

  lemma {:induction false} OnesAbove(a: nat, n: nat)
    requires a < Pow2(n)
    ensures Ones(Pow2(n) + a) == 1 + Ones(a)
  {
    if n > 0 {
      OnesAbove(a / 2, n - 1);
      assert (Pow2(n) + a) / 2 == Pow2(n - 1) + a / 2;
      assert Ones(a) == a % 2 + Ones(a / 2);
    }
  }

  lemma OnesHalve(n: nat)
    ensures Ones(n) == n % 2 + Ones(n / 2)
  {
  }

  lemma OnesOfZero()
    ensures Ones(0) == 0
  {
  }

  lemma {:induction false} OnesXor(a: nat, b: nat)
    ensures Ones(Xor(a, b)) % 2 == (Ones(a) + Ones(b)) % 2
  {
    hide Ones, Xor;
    OnesOfZero();
    XorNothing(a);
    XorNothing(b);
    if a != 0 && b != 0 {
      OnesXor(a / 2, b / 2);
      XorHalves(a, b);
      OnesHalve(a);
      OnesHalve(b);
      OnesHalve(Xor(a, b));
    }
  }

  lemma Pow2Values()
    ensures Pow2(8) == 0x100 && Pow2(15) == 0x8000 && Pow2(16) == 0x1_0000 && Pow2(17) == 0x2_0000
  {
    assert Pow2(4) == 16;
    assert Pow2(8) == 0x100;
    assert Pow2(12) == 0x1000;
    assert Pow2(15) == 0x8000;
  }

  // ---- numbers as bit strings, most significant bit first ----

  /** The n-bit notation of v. */
  function Digits(v: nat, n: nat): (bits: seq<bool>)
    requires v < Pow2(n)
    ensures |bits| == n
  {
    if n == 0 then []
    else if v >= Pow2(n - 1) then [true] + Digits(v - Pow2(n - 1), n - 1)
    else [false] + Digits(v, n - 1)
  }

  /** The number a bit string denotes. */
  function Value(bits: seq<bool>): (v: nat)
    ensures v < Pow2(|bits|)
  {
    if bits == [] then 0
    else (if bits[0] then Pow2(|bits| - 1) else 0) + Value(bits[1..])
  }

  lemma {:induction false} DigitsOfValue(bits: seq<bool>)
    ensures Digits(Value(bits), |bits|) == bits
  {
    if bits != [] {
      DigitsOfValue(bits[1..]);
      assert bits == [bits[0]] + bits[1..];
    }
  }

  lemma {:induction false} ValueOfDigits(v: nat, n: nat)
    requires v < Pow2(n)
    ensures Value(Digits(v, n)) == v
  {
    if n > 0 {
      var rest := if v >= Pow2(n - 1) then v - Pow2(n - 1) else v;
      ValueOfDigits(rest, n - 1);
      assert Digits(v, n)[1..] == Digits(rest, n - 1);
    }
  }

  /** Where two bit strings of equal length differ. */
  function Differences(a: seq<bool>, b: seq<bool>): (e: seq<bool>)
    requires |a| == |b|
    ensures |e| == |a| && forall i | 0 <= i < |a| :: e[i] == (a[i] != b[i])
  {
    if a == [] then [] else [a[0] != b[0]] + Differences(a[1..], b[1..])
  }

  /** Splits off the top of n digits. */
  lemma DigitsTop(v: nat, n: nat) returns (rest: nat)
    requires n > 0 && v < Pow2(n)
    ensures rest < Pow2(n - 1) && v == if v >= Pow2(n - 1) then Pow2(n - 1) + rest else rest
    ensures Digits(v, n) == [v >= Pow2(n - 1)] + Digits(rest, n - 1)
  {
    rest := if v >= Pow2(n - 1) then v - Pow2(n - 1) else v;
  }

  lemma {:induction false} DigitsXor(a: nat, b: nat, n: nat)
    requires a < Pow2(n) && b < Pow2(n)
    ensures Xor(a, b) < Pow2(n)
    ensures Digits(Xor(a, b), n) == Differences(Digits(a, n), Digits(b, n))
  {
    hide Xor, Pow2, Digits, Differences;
    XorBound(a, b, n);
    if n > 0 {
      var a0 := DigitsTop(a, n);
      var b0 := DigitsTop(b, n);
      var x0 := DigitsTop(Xor(a, b), n);
      DigitsXor(a0, b0, n - 1);
      XorAboveBoth(a0, b0, n - 1);
      XorAbove(a0, b0, n - 1);
      XorAbove(b0, a0, n - 1);
      XorCommutes(a, b);
      XorCommutes(a0, b0);
      assert x0 == Xor(a0, b0);
    }
  }

  lemma {:induction false} DigitsDouble(v: nat, n: nat)
    requires v < Pow2(n)
    ensures Digits(2 * v, n + 1) == Digits(v, n) + [false]
  {
    if n > 0 {
      var v0 := if v >= Pow2(n - 1) then v - Pow2(n - 1) else v;
      DigitsDouble(v0, n - 1);
    }
  }
}
