/** Counting quadrature edges. */
module Quadrature {
  import opened Wire

  type phases = x: int | 0 <= x < 4

  const DELTAS: seq<int> := [0, -1, 1, 0, 1, 0, 0, -1, -1, 0, 0, 1, 0, 1, -1, 0]

  /** The firmware's lookup table, indexed by the previous and the current phases. */
  function Delta(previous: phases, current: phases): int {
    DELTAS[4 * previous + current]
  }

  datatype EncoderSlot = EncoderSlot(
    active: bool, pinA: byte, pinB: byte, mode: byte, position: i32, lastState: phases)

  const NO_ENCODER := EncoderSlot(false, 0, 0, 4, 0, 0)

  /** One edge interrupt that samples `current`. */
  function Tick(e: EncoderSlot, current: phases): EncoderSlot {
    if !e.active then e
    else e.(position := Wrap32(e.position + Delta(e.lastState, current)), lastState := current)
  }

  function TickAll(e: EncoderSlot, samples: seq<phases>): EncoderSlot
    decreases |samples|
  {
    if samples == [] then e else TickAll(Tick(e, samples[0]), samples[1..])
  }

  // ---- the shaft ----

  /** The phases A and B show when the shaft stands at index x: 00, 10, 11, 01 and round
      again. */
  function PhasesAt(x: int): phases {
    [0, 2, 3, 1][x % 4]
  }

  /** The index modulo 4 that the phases stand for. */
  function IndexOf(p: phases): phases {
    [0, 3, 1, 2][p]
  }

  function Samples(shaft: seq<int>): seq<phases> {
    if shaft == [] then [] else [PhasesAt(shaft[0])] + Samples(shaft[1..])
  }

  /** The shaft moves by at most one index between samples. */
  predicate Smooth(x: int, shaft: seq<int>)
    decreases |shaft|
  {
    shaft != [] ==> -1 <= shaft[0] - x <= 1 && Smooth(shaft[0], shaft[1..])
  }

  lemma StepExact(x: int, y: int)
    requires -1 <= y - x <= 1
    ensures Delta(PhasesAt(x), PhasesAt(y)) == y - x
  {
    assert y % 4 == (x % 4 + (y - x)) % 4;
  }

  lemma WrapAdds(a: int, b: int)
    ensures Wrap32(Wrap32(a) + b) == Wrap32(a + b)
  {
    var k := (a + 0x8000_0000) / 0x1_0000_0000;
    assert Wrap32(a) == a - 0x1_0000_0000 * k;
    WrapTurns(a + b, -k);
  }

  lemma WrapTurns(a: int, k: int)
    ensures Wrap32(a + 0x1_0000_0000 * k) == Wrap32(a)
  {
    var m := a + 0x8000_0000;
    var q := m / 0x1_0000_0000;
    assert m + 0x1_0000_0000 * k == 0x1_0000_0000 * (q + k) + m % 0x1_0000_0000;
  }

  /** Where a shaft that was at x stands in the end. */
  function Final(x: int, shaft: seq<int>): int {
    if shaft == [] then x else shaft[|shaft| - 1]
  }

  /** However the shaft chatters or reverses, as long as it moves at most one index
      between samples the position changes by exactly its net displacement, in 32 bits. */
  lemma {:induction false} TracksShaft(e: EncoderSlot, x: int, shaft: seq<int>)
    requires e.active && e.lastState == PhasesAt(x) && Smooth(x, shaft)
    ensures var end, e2 := Final(x, shaft), TickAll(e, Samples(shaft));
            e2.active && e2.position == Wrap32(e.position + (end - x)) && e2.lastState == PhasesAt(end)
    ensures var e2 := TickAll(e, Samples(shaft)); e2 == e.(position := e2.position, lastState := e2.lastState)
    decreases |shaft|
  {
    hide Wrap32, Delta, PhasesAt;
    if shaft == [] {
      WrapIdentity(e.position);
    } else {
      var y, later := shaft[0], shaft[1..];
      StepExact(x, y);
      var next := Tick(e, PhasesAt(y));
      TracksShaft(next, y, later);
      assert Final(x, shaft) == Final(y, later);
      SamplesUnfold(e, shaft);
      WrapAdds(e.position + (y - x), Final(y, later) - y);
      assert e.position + (y - x) + (Final(y, later) - y) == e.position + (Final(y, later) - x);
    }
  }

  lemma SamplesUnfold(e: EncoderSlot, shaft: seq<int>)
    requires shaft != []
    ensures TickAll(e, Samples(shaft)) == TickAll(Tick(e, PhasesAt(shaft[0])), Samples(shaft[1..]))
  {
    hide PhasesAt, Tick;
    assert Samples(shaft)[1..] == Samples(shaft[1..]);
  }

  lemma WrapIdentity(p: i32)
    ensures Wrap32(p) == p
  {
  }

  // ---- arbitrary samples ----

  /** How many samples jump two indices at once, where the direction cannot be told. */
  function Jumps(last: phases, samples: seq<phases>): nat
    decreases |samples|
  {
    if samples == [] then 0
    else (if (IndexOf(samples[0]) - IndexOf(last)) % 4 == 2 then 1 else 0) + Jumps(samples[0], samples[1..])
  }

  lemma DeltaModulo4(p: phases, c: phases)
    ensures (Delta(p, c) + 2 * (if (IndexOf(c) - IndexOf(p)) % 4 == 2 then 1 else 0)) % 4
         == (IndexOf(c) - IndexOf(p)) % 4
  {
  }

  /** Whatever is sampled, the position never loses the phase: modulo 4 it is off only by
      two for each double jump. */
  lemma {:induction false} KeepsPhase(e: EncoderSlot, samples: seq<phases>)
    requires e.active
    ensures var e2 := TickAll(e, samples);
            (e2.position - e.position + 2 * Jumps(e.lastState, samples)) % 4
            == (IndexOf(e2.lastState) - IndexOf(e.lastState)) % 4
    decreases |samples|
  {
    hide Delta, IndexOf, Wrap32;
    if samples != [] {
      var c := samples[0];
      var d := Delta(e.lastState, c);
      DeltaModulo4(e.lastState, c);
      KeepsPhase(Tick(e, c), samples[1..]);
      WrapModulo4(e.position + d);
      var e2 := TickAll(e, samples);
      var j := if (IndexOf(c) - IndexOf(e.lastState)) % 4 == 2 then 1 else 0;
      AddModulo4(e2.position - Wrap32(e.position + d) + 2 * Jumps(c, samples[1..]), d + 2 * j,
                 IndexOf(e2.lastState) - IndexOf(c), IndexOf(c) - IndexOf(e.lastState));
      assert (e2.position - Wrap32(e.position + d) + 2 * Jumps(c, samples[1..])) + (d + 2 * j)
          == (e2.position - e.position + 2 * Jumps(e.lastState, samples)) - (Wrap32(e.position + d) - (e.position + d));
      SubModulo4(e2.position - e.position + 2 * Jumps(e.lastState, samples), Wrap32(e.position + d) - (e.position + d));
    }
  }

  lemma WrapModulo4(a: int)
    ensures (Wrap32(a) - a) % 4 == 0
  {
    assert Wrap32(a) - a == -4 * (0x4000_0000 * ((a + 0x8000_0000) / 0x1_0000_0000));
  }

  lemma AddModulo4(a: int, b: int, c: int, d: int)
    requires a % 4 == c % 4 && b % 4 == d % 4
    ensures (a + b) % 4 == (c + d) % 4
  {
  }

  lemma SubModulo4(a: int, m: int)
    requires m % 4 == 0
    ensures (a - m) % 4 == a % 4
  {
  }
}
