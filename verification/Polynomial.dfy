/** The checksum as a remainder of polynomials over the two-element field. */
module Polynomial {
  import opened Bits
  import opened Wire
  import opened Crc

  /** Sixteen zero coefficients: multiplication by x^16. */
  const SHIFT: seq<bool> := seq(16, _ => false)

  /** The generator x^16 + x^12 + x^5 + 1 without its leading term. */
  function GeneratorTail(): (g: seq<bool>)
    ensures |g| == 16
  {
    Pow2Values();
    Digits(GENERATOR, 16)
  }

  /** Long division: the remainder of a polynomial, given by its coefficients with the
      highest first, modulo the generator. */
  function Remainder(p: seq<bool>): (r: seq<bool>)
    requires |p| >= 16
    ensures |r| == 16
    decreases |p|
  {
    if |p| == 16 then p
    else if p[0] then Remainder(Differences(p[1..17], GeneratorTail()) + p[17..])
    else Remainder(p[1..])
  }

  /** The polynomial a register value stands for. */
  function Coefficients(r: u16): (c: seq<bool>)
    ensures |c| == 16
  {
    Pow2Values();
    Digits(r, 16)
  }

  /** p with r added to its sixteen leading coefficients. */
  function AddOnTop(r: u16, p: seq<bool>): (s: seq<bool>)
    requires |p| >= 16
    ensures |s| == |p|
  {
    Differences(Coefficients(r), p[..16]) + p[16..]
  }

  lemma DigitsOfStep(x: u16)
    ensures var d := Coefficients(x);
            Coefficients(Step(x)) == if d[0] then Differences(d[1..] + [false], GeneratorTail()) else d[1..] + [false]
  {
    hide Xor, Pow2;
    Pow2Values();
    var low := if x >= 0x8000 then x - 0x8000 else x;
    assert Digits(x, 16) == [x >= 0x8000] + Digits(low, 15);
    assert Digits(x, 16)[1..] == Digits(low, 15);
    DigitsDouble(low, 15);
    if x >= 0x8000 { DigitsXor(2 * low, GENERATOR, 16); }
  }

  lemma TopBitAdded(r: u16, b: bool)
    ensures Coefficients(Xor16(r, if b then 0x8000 else 0)) == [Coefficients(r)[0] != b] + Coefficients(r)[1..]
  {
    hide Xor, Pow2;
    Pow2Values();
    var top: u16 := if b then 0x8000 else 0;
    DigitsXor(r, top, 16);
    assert Digits(top, 16) == [b] + Digits(0, 15);
    ZeroDigits(15);
    var d := Digits(r, 16);
    assert d == [d[0]] + d[1..];
  }

  lemma {:induction false} ZeroDigits(n: nat)
    ensures Pow2(n) > 0
    ensures Digits(0, n) == seq(n, _ => false)
  {
    if n > 0 { ZeroDigits(n - 1); }
  }

  /** Feeding bits to the register divides: what is left in it is the remainder of those
      bits, times x^16, with the register's first value added on top. */
  lemma {:induction false} FeedDivides(r: u16, bits: seq<bool>)
    ensures Coefficients(Feed(r, bits)) == Remainder(AddOnTop(r, bits + SHIFT))
    decreases |bits|
  {
    hide Xor, Pow2, Step, Differences, Digits;
    Pow2Values();
    var p := bits + SHIFT;
    if bits == [] {
      assert Differences(Digits(r, 16), p[..16]) == Digits(r, 16);
    } else {
      var b, later := bits[0], bits[1..];
      var x := Xor16(r, if b then 0x8000 else 0);
      TopBitAdded(r, b);
      DigitsOfStep(x);
      FeedDivides(Step(x), later);
      var d, s, q := Digits(r, 16), AddOnTop(r, p), later + SHIFT;
      assert p == [b] + q;
      DropLeading(d, b, q);
      Regroup(d[1..] + [false], q[..16], GeneratorTail());
    }
  }

  /** The leading coefficient of a sum, and the sum without it. */
  lemma DropLeading(d: seq<bool>, b: bool, q: seq<bool>)
    requires |d| == 16 && |q| >= 16
    ensures var s := Differences(d, ([b] + q)[..16]) + ([b] + q)[16..];
            && s[0] == (d[0] != b)
            && s[1..17] == Differences(d[1..] + [false], q[..16])
            && s[17..] == q[16..]
            && s[1..] == Differences(d[1..] + [false], q[..16]) + q[16..]
  {
    hide *;
    var m := Differences(d[1..] + [false], q[..16]);
    Cut(b, q);
    TopOfSum(d, b, q[..15], q[15]);
    Reassociate(d[0] != b, Differences(d[1..], q[..15]), q[15], q[16..]);
    Parts(d[0] != b, m, q[16..]);
  }

  /** A sum of sixteen coefficients, against the same one place further down. */
  lemma TopOfSum(d: seq<bool>, b: bool, q: seq<bool>, y: bool)
    requires |d| == 16 && |q| == 15
    ensures Differences(d, [b] + q) == [d[0] != b] + Differences(d[1..], q)
    ensures Differences(d[1..] + [false], q + [y]) == Differences(d[1..], q) + [y]
  {
    hide Differences;
    DifferencesPrepend(d[0], b, d[1..], q);
    assert d == [d[0]] + d[1..];
    DifferencesAppend(d[1..], q, false, y);
  }

  lemma Cut(b: bool, q: seq<bool>)
    requires |q| >= 16
    ensures ([b] + q)[..16] == [b] + q[..15]
    ensures ([b] + q)[16..] == [q[15]] + q[16..]
    ensures q[..16] == q[..15] + [q[15]]
  {
  }

  lemma Reassociate(h: bool, a: seq<bool>, x: bool, t: seq<bool>)
    ensures ([h] + a) + ([x] + t) == [h] + (a + [x]) + t
  {
  }

  lemma Parts(h: bool, m: seq<bool>, t: seq<bool>)
    requires |m| == 16
    ensures var s := [h] + m + t; s[0] == h && s[1..17] == m && s[17..] == t && s[1..] == m + t
  {
  }

  lemma DifferencesPrepend(x: bool, y: bool, a: seq<bool>, b: seq<bool>)
    requires |a| == |b|
    ensures Differences([x] + a, [y] + b) == [x != y] + Differences(a, b)
  {
    assert ([x] + a)[1..] == a && ([y] + b)[1..] == b;
  }

  lemma DifferencesAppend(a: seq<bool>, b: seq<bool>, x: bool, y: bool)
    requires |a| == |b|
    ensures Differences(a + [x], b + [y]) == Differences(a, b) + [x != y]
  {
    hide Differences;
  }

  lemma Regroup(u: seq<bool>, w: seq<bool>, g: seq<bool>)
    requires |u| == |w| == |g|
    ensures Differences(Differences(u, w), g) == Differences(Differences(u, g), w)
  {
    hide Differences;
  }

  // ---- what the remainder is ----

  /** The generator x^16 + x^12 + x^5 + 1. */
  function Generator(): (g: seq<bool>)
    ensures |g| == 17
  {
    [true] + GeneratorTail()
  }

  function Zeros(n: nat): (z: seq<bool>)
    ensures |z| == n && forall i | 0 <= i < n :: !z[i]
  {
    seq(n, _ => false)
  }

  /** The product of two polynomials over the two-element field, by coefficients. */
  function Product(q: seq<bool>, g: seq<bool>): (p: seq<bool>)
    requires g != []
    ensures |p| == |q| + |g| - 1
  {
    if q == [] then Zeros(|g| - 1)
    else Differences((if q[0] then g else Zeros(|g|)) + Zeros(|q| - 1), [false] + Product(q[1..], g))
  }

  /** q times the generator, plus r. */
  function Composed(q: seq<bool>, r: seq<bool>): (p: seq<bool>)
    requires |r| == 16
    ensures |p| == |q| + 16
  {
    Differences(Product(q, Generator()), Zeros(|q|) + r)
  }

  /** The leading coefficient of a product with the generator is that of the other factor,
      and what it contributes can be taken off. */
  lemma ComposedUnfolds(q: seq<bool>, r: seq<bool>)
    requires |r| == 16
    ensures q == [] ==> Composed(q, r) == r
    ensures q != [] ==>
            var later := Composed(q[1..], r);
            Composed(q, r) == if q[0] then [true] + (Differences(later[..16], GeneratorTail()) + later[16..]) else [false] + later
  {
    hide Differences, GeneratorTail;
    if q == [] {
      assert Differences(Zeros(16), Zeros(0) + r) == r;
    } else {
      var x, z, n := Product(q[1..], Generator()), Zeros(|q| - 1) + r, |q| - 1;
      assert Zeros(|q|) + r == [false] + z;
      HeadAdds((if q[0] then Generator() else Zeros(17)) + Zeros(n), x, z);
      if q[0] {
        assert (Generator() + Zeros(n))[1..] == GeneratorTail() + Zeros(n);
        AddedInFront(GeneratorTail(), n, x, z);
      } else {
        assert (Zeros(17) + Zeros(n))[1..] == Zeros(16 + n);
        assert Differences(Zeros(16 + n), x) == x;
      }
    }
  }

  lemma HeadAdds(a: seq<bool>, x: seq<bool>, z: seq<bool>)
    requires |a| == |x| + 1 == |z| + 1
    ensures Differences(Differences(a, [false] + x), [false] + z) == [a[0]] + Differences(Differences(a[1..], x), z)
  {
    hide Differences;
    var below := a[1..];
    assert a == [a[0]] + below;
    DifferencesPrepend(a[0], false, below, x);
    DifferencesPrepend(a[0], false, Differences(below, x), z);
  }

  lemma AddedInFront(g: seq<bool>, n: nat, x: seq<bool>, z: seq<bool>)
    requires |x| == |z| == |g| + n
    ensures var d := Differences(x, z);
            Differences(Differences(g + Zeros(n), x), z) == Differences(d[..|g|], g) + d[|g|..]
  {
    hide Differences;
    var d, m := Differences(x, z), |g|;
    Reorder(g + Zeros(n), x, z);
    assert d == d[..m] + d[m..];
    DifferencesJoin(d[..m], g, d[m..], Zeros(n));
    assert Differences(d[m..], Zeros(n)) == d[m..];
  }

  lemma Reorder(a: seq<bool>, x: seq<bool>, z: seq<bool>)
    requires |a| == |x| == |z|
    ensures Differences(Differences(a, x), z) == Differences(Differences(x, z), a)
  {
    hide Differences;
  }

  lemma DifferencesJoin(a: seq<bool>, b: seq<bool>, c: seq<bool>, d: seq<bool>)
    requires |a| == |b| && |c| == |d|
    ensures Differences(a + c, b + d) == Differences(a, b) + Differences(c, d)
  {
    hide Differences;
  }

  /** Every polynomial is a multiple of the generator plus its remainder. */
  lemma {:induction false} Divides(p: seq<bool>) returns (q: seq<bool>)
    requires |p| >= 16
    ensures |q| == |p| - 16 && p == Composed(q, Remainder(p))
    decreases |p|
  {
    hide Differences, Composed, GeneratorTail;
    if |p| == 16 {
      q := [];
      ComposedUnfolds(q, p);
    } else if p[0] {
      var added := Differences(p[1..17], GeneratorTail());
      var later := Divides(added + p[17..]);
      q := [true] + later;
      ComposedUnfolds(q, Remainder(p));
      TwiceAdded(p[1..17], GeneratorTail());
      assert q[1..] == later;
      assert (added + p[17..])[..16] == added && (added + p[17..])[16..] == p[17..];
      assert p == [true] + (p[1..17] + p[17..]);
    } else {
      var later := Divides(p[1..]);
      q := [false] + later;
      ComposedUnfolds(q, Remainder(p));
      assert q[1..] == later;
      assert p == [false] + p[1..];
    }
  }

  lemma TwiceAdded(a: seq<bool>, g: seq<bool>)
    requires |a| == |g|
    ensures Differences(Differences(a, g), g) == a
  {
    hide Differences;
  }

  /** Quotient and remainder are unique: no other polynomial of fewer than seventeen
      coefficients differs from p by a multiple of the generator. */
  lemma {:induction false} DivisionUnique(q1: seq<bool>, r1: seq<bool>, q2: seq<bool>, r2: seq<bool>)
    requires |r1| == |r2| == 16 && |q1| == |q2| && Composed(q1, r1) == Composed(q2, r2)
    ensures q1 == q2 && r1 == r2
  {
    hide Differences, Composed, GeneratorTail;
    ComposedUnfolds(q1, r1);
    ComposedUnfolds(q2, r2);
    if q1 != [] {
      var a, b := Composed(q1[1..], r1), Composed(q2[1..], r2);
      var c := Composed(q1, r1);
      assert c[0] == q1[0] == q2[0];
      if q1[0] {
        SameTail(Differences(a[..16], GeneratorTail()) + a[16..], Differences(b[..16], GeneratorTail()) + b[16..], c);
        TwiceAdded(a[..16], GeneratorTail());
        TwiceAdded(b[..16], GeneratorTail());
        SameParts(Differences(a[..16], GeneratorTail()), a[16..], Differences(b[..16], GeneratorTail()), b[16..]);
        assert a == a[..16] + a[16..] && b == b[..16] + b[16..];
      } else {
        assert a == c[1..] == b;
      }
      DivisionUnique(q1[1..], r1, q2[1..], r2);
      assert q1 == [q1[0]] + q1[1..] && q2 == [q2[0]] + q2[1..];
    }
  }

  lemma SameTail(a: seq<bool>, b: seq<bool>, c: seq<bool>)
    requires c == [true] + a == [true] + b
    ensures a == b
  {
    assert a == c[1..] == b;
  }

  lemma SameParts(a: seq<bool>, x: seq<bool>, b: seq<bool>, y: seq<bool>)
    requires |a| == |b| && a + x == b + y
    ensures a == b && x == y
  {
    assert a == (a + x)[..|a|] && x == (a + x)[|a|..];
    assert b == (b + y)[..|a|] && y == (b + y)[|a|..];
  }

  /** Sixteen coefficients are the remainder of p if and only if they differ from p by a
      multiple of the generator. */
  lemma RemainderExactly(p: seq<bool>, r: seq<bool>)
    requires |p| >= 16 && |r| == 16
    ensures r == Remainder(p) <==> exists q: seq<bool> :: |q| == |p| - 16 && p == Composed(q, r)
  {
    hide Composed, Remainder;
    var q := Divides(p);
    forall q2: seq<bool> | |q2| == |p| - 16 && p == Composed(q2, r) ensures r == Remainder(p) {
      DivisionUnique(q, Remainder(p), q2, r);
    }
  }

  /** A 16-bit value is the checksum of some data if and only if it differs by a multiple of
      the generator from the data's bits times x^16 with ones added to the sixteen leading
      coefficients. */
  lemma CrcIsRemainder(data: seq<byte>, value: u16)
    ensures var p := AddOnTop(PRESET, BitsOf(data) + SHIFT);
            value == Crc16(data) <==> exists q: seq<bool> :: |q| == 8 * |data| && p == Composed(q, Coefficients(value))
  {
    hide Xor, Pow2, Step, Digits, Remainder, Feed, CrcFrom, Composed, AddOnTop, BitsOf;
    CrcAsBits(PRESET, data);
    FeedDivides(PRESET, BitsOf(data));
    RemainderExactly(AddOnTop(PRESET, BitsOf(data) + SHIFT), Coefficients(value));
    if Coefficients(value) == Coefficients(Crc16(data)) {
      SameCoefficients(value, Crc16(data));
    }
  }

  lemma SameCoefficients(a: u16, b: u16)
    requires Coefficients(a) == Coefficients(b)
    ensures a == b
  {
    hide Pow2, Digits, Value;
    Pow2Values();
    ValueOfDigits(a, 16);
    ValueOfDigits(b, 16);
  }
}
