/** One subscription slot: its change events and its periodic telemetry. */
module Subscriptions {
  import opened Seqs
  import opened Wire
  import opened Frame
  import Safety

  const DIGITAL: byte := 1
  const ANALOG: byte := 2
  const COUNTER: byte := 3
  const ENCODER: byte := 4
  const DAC: byte := 5

  datatype Subscription = Subscription(
    active: bool, kind: byte, id: byte, rateHz: u16, flags: byte,
    nextDueMs: u32, lastValue: i32, hasLastValue: bool)

  const NO_SUBSCRIPTION := Subscription(false, DIGITAL, 0, 0, 0, 0, 0, false)

  predicate OnChange(flags: byte) { flags % 2 == 1 }
  predicate WantsRising(flags: byte) { flags / 2 % 2 == 1 }
  predicate WantsFalling(flags: byte) { flags / 4 % 2 == 1 }

  function EventPacket(s: Subscription, value: i32, micros: u32): Packet {
    Packet(EVENT, 0, [s.kind, s.id] + Bytes32(value) + Bytes32(micros))
  }

  function TelemetryPacket(s: Subscription, value: i32): Packet {
    Packet(TELEMETRY, 0, [s.kind, s.id] + Bytes32(value))
  }

  /** Whether a sample makes the slot report an event. */
  predicate EmitsEvent(s: Subscription, value: i32) {
    && OnChange(s.flags) && s.hasLastValue && value != s.lastValue
    && (s.kind == DIGITAL ==>
          || (s.lastValue == 0 && value != 0 && WantsRising(s.flags))
          || (s.lastValue != 0 && value == 0 && WantsFalling(s.flags))
          || (!WantsRising(s.flags) && !WantsFalling(s.flags)))
  }

  predicate EmitsTelemetry(s: Subscription, now: u32) {
    s.rateHz != 0 && now >= s.nextDueMs
  }

  /** The pause between telemetry frames, in milliseconds. */
  function Interval(rateHz: u16): nat
    requires rateHz != 0
  {
    if 1000 / rateHz == 0 then 1 else 1000 / rateHz
  }

  datatype Served = Served(slot: Subscription, packets: seq<Packet>)

  /** One visit to a slot with the resource's value, or none if it is gone. */
  function Serve(s: Subscription, value: Option<i32>, now: u32, micros: u32): Served {
    if !s.active then Served(s, [])
    else match value
      case None => Served(NO_SUBSCRIPTION, [])
      case Some(v) =>
        var events := if EmitsEvent(s, v) then [EventPacket(s, v, micros)] else [];
        var seen := s.(lastValue := v, hasLastValue := true);
        if EmitsTelemetry(s, now)
        then Served(seen.(nextDueMs := Cut32(now + Interval(s.rateHz))), events + [TelemetryPacket(s, v)])
        else Served(seen, events)
  }

  // ---- a slot over a run of samples ----

  datatype Sample = Sample(value: i32, now: u32, micros: u32)

  function ServeAll(s: Subscription, samples: seq<Sample>): Served
    decreases |samples|
  {
    if samples == [] then Served(s, [])
    else
      var first := Serve(s, Some(samples[0].value), samples[0].now, samples[0].micros);
      var later := ServeAll(first.slot, samples[1..]);
      Served(later.slot, first.packets + later.packets)
  }

  /** The values of the event packets among some packets. */
  function EventValues(packets: seq<Packet>): seq<i32> {
    if packets == [] then []
    else (if packets[0].kind == EVENT && |packets[0].payload| == 10 then [I32Of(packets[0].payload[2..6])] else [])
         + EventValues(packets[1..])
  }

  function CountTelemetry(packets: seq<Packet>): nat {
    if packets == [] then 0 else (if packets[0].kind == TELEMETRY then 1 else 0) + CountTelemetry(packets[1..])
  }

  lemma {:induction false} EventValuesJoin(a: seq<Packet>, b: seq<Packet>)
    ensures EventValues(a + b) == EventValues(a) + EventValues(b)
  {
    hide I32Of;
    if a == [] {
      assert a + b == b;
    } else {
      assert (a + b)[1..] == a[1..] + b && (a + b)[0] == a[0];
      EventValuesJoin(a[1..], b);
      Associates(if a[0].kind == EVENT && |a[0].payload| == 10 then [I32Of(a[0].payload[2..6])] else [],
                 EventValues(a[1..]), EventValues(b));
    }
  }

  lemma {:induction false} CountTelemetryJoins(a: seq<Packet>, b: seq<Packet>)
    ensures CountTelemetry(a + b) == CountTelemetry(a) + CountTelemetry(b)
  {
    if a == [] {
      assert a + b == b;
    } else {
      assert (a + b)[1..] == a[1..] + b;
      CountTelemetryJoins(a[1..], b);
    }
  }

  /** What one visit reports. */
  lemma ServedReports(s: Subscription, v: i32, now: u32, micros: u32)
    requires s.active
    ensures var r := Serve(s, Some(v), now, micros);
            && EventValues(r.packets) == (if EmitsEvent(s, v) then [v] else [])
            && CountTelemetry(r.packets) == (if EmitsTelemetry(s, now) then 1 else 0)
            && r.slot == s.(lastValue := v, hasLastValue := true,
                            nextDueMs := if EmitsTelemetry(s, now) then Cut32(now + Interval(s.rateHz)) else s.nextDueMs)
  {
    hide EmitsEvent, EmitsTelemetry, Bytes32, I32Of, Cut32, Interval;
    var e, t := EventPacket(s, v, micros), TelemetryPacket(s, v);
    assert e.payload[2..6] == Bytes32(v);
    Bytes32RoundTrip(v);
    assert EventValues([e]) == [v] + EventValues([]);
    assert EventValues([t]) == [] + EventValues([]);
    assert CountTelemetry([e]) == 0 + CountTelemetry([]) && CountTelemetry([t]) == 1 + CountTelemetry([]);
    EventValuesJoin([e], [t]);
    CountTelemetryJoins([e], [t]);
    assert [] + [t] == [t];
  }

  /** A run of visits is the first visit and then the rest. */
  lemma FirstVisit(s: Subscription, samples: seq<Sample>) returns (next: Subscription)
    requires s.active && samples != []
    ensures var x := samples[0];
            var all, later := ServeAll(s, samples).packets, ServeAll(next, samples[1..]).packets;
            && next == s.(lastValue := x.value, hasLastValue := true,
                          nextDueMs := if EmitsTelemetry(s, x.now) then Cut32(x.now + Interval(s.rateHz)) else s.nextDueMs)
            && EventValues(all) == (if EmitsEvent(s, x.value) then [x.value] else []) + EventValues(later)
            && CountTelemetry(all) == (if EmitsTelemetry(s, x.now) then 1 else 0) + CountTelemetry(later)
  {
    hide Serve, EventValues, CountTelemetry, EmitsEvent, EmitsTelemetry, Cut32, Interval;
    var x := samples[0];
    var first := Serve(s, Some(x.value), x.now, x.micros);
    next := first.slot;
    ServedReports(s, x.value, x.now, x.micros);
    EventValuesJoin(first.packets, ServeAll(next, samples[1..]).packets);
    CountTelemetryJoins(first.packets, ServeAll(next, samples[1..]).packets);
  }

  // ---- events replay the samples ----

  /** The slot reports every change. */
  predicate ReportsEveryChange(s: Subscription) {
    && s.active && OnChange(s.flags)
    && (s.kind == DIGITAL ==> WantsRising(s.flags) == WantsFalling(s.flags))
  }

  /** What a digital pin can read. */
  predicate Readable(s: Subscription, samples: seq<Sample>) {
    s.kind == DIGITAL ==> forall i | 0 <= i < |samples| :: samples[i].value == 0 || samples[i].value == 1
  }

  /** Of a run of values after `last`, those that differ from their predecessor. */
  function Changes(last: i32, samples: seq<Sample>): seq<i32>
    decreases |samples|
  {
    if samples == [] then []
    else (if samples[0].value != last then [samples[0].value] else []) + Changes(samples[0].value, samples[1..])
  }

  predicate NoRepeats(s: seq<i32>) {
    forall i | 0 <= i < |s| - 1 :: s[i] != s[i + 1]
  }

  function Latest(first: i32, values: seq<i32>): i32 {
    if values == [] then first else values[|values| - 1]
  }

  lemma {:induction false} ChangesReplay(last: i32, samples: seq<Sample>)
    ensures NoRepeats([last] + Changes(last, samples))
    ensures Latest(last, Changes(last, samples)) == if samples == [] then last else samples[|samples| - 1].value
    decreases |samples|
  {
    hide NoRepeats, Latest;
    if samples == [] {
      OneValue(last);
    } else {
      var v, later := samples[0].value, samples[1..];
      ChangesReplay(v, later);
      var rest := Changes(v, later);
      assert later != [] ==> later[|later| - 1] == samples[|samples| - 1];
      if v != last {
        assert Changes(last, samples) == [v] + rest;
        OneMoreChange(last, v, rest);
      } else {
        assert Changes(last, samples) == rest;
      }
    }
  }

  lemma OneValue(v: i32)
    ensures NoRepeats([v] + []) && Latest(v, []) == v
  {
  }

  lemma OneMoreChange(last: i32, v: i32, rest: seq<i32>)
    requires v != last && NoRepeats([v] + rest)
    ensures NoRepeats([last] + ([v] + rest)) && Latest(last, [v] + rest) == Latest(v, rest)
  {
    var all := [last] + ([v] + rest);
    forall i | 0 <= i < |all| - 1 ensures all[i] != all[i + 1] {
      if i > 0 { assert all[i] == ([v] + rest)[i - 1] && all[i + 1] == ([v] + rest)[i]; }
    }
  }

  lemma {:induction false} EventsAreChanges(s: Subscription, samples: seq<Sample>)
    requires ReportsEveryChange(s) && s.hasLastValue && Readable(s, samples)
    requires s.kind == DIGITAL ==> s.lastValue == 0 || s.lastValue == 1
    ensures EventValues(ServeAll(s, samples).packets) == Changes(s.lastValue, samples)
    decreases |samples|
  {
    hide Serve, EmitsTelemetry, Cut32, Interval;
    if samples != [] {
      var next := FirstVisit(s, samples);
      EventsAreChanges(next, samples[1..]);
    }
  }

  /** Replaying the events of a fresh subscription on its first sample gives the current
      value after any run, and no event repeats the one before. */
  lemma EventReplay(s: Subscription, samples: seq<Sample>)
    requires ReportsEveryChange(s) && !s.hasLastValue && Readable(s, samples) && samples != []
    ensures var first, events := samples[0].value, EventValues(ServeAll(s, samples).packets);
            && Latest(first, events) == samples[|samples| - 1].value
            && NoRepeats([first] + events)
  {
    hide Serve, ServeAll, EmitsTelemetry, Cut32, Interval, NoRepeats, Latest, Changes, EventValues, CountTelemetry;
    var next := FirstVisit(s, samples);
    EventsAreChanges(next, samples[1..]);
    ChangesReplay(samples[0].value, samples[1..]);
    var changes := Changes(samples[0].value, samples[1..]);
    assert [] + changes == changes;
    assert samples[1..] != [] ==> samples[1..][|samples| - 2] == samples[|samples| - 1];
  }

  /** Transitions from zero to nonzero in a run of values after `last`. */
  function Rises(last: i32, samples: seq<Sample>): nat
    decreases |samples|
  {
    if samples == [] then 0
    else (if last == 0 && samples[0].value != 0 then 1 else 0) + Rises(samples[0].value, samples[1..])
  }

  /** The rises a slot can see: from its last value on, or from its first sample on. */
  function RisesSeen(s: Subscription, samples: seq<Sample>): nat {
    if s.hasLastValue then Rises(s.lastValue, samples)
    else if samples == [] then 0
    else Rises(samples[0].value, samples[1..])
  }

  /** With only rising edges wanted, a digital slot reports one event per rising edge, from
      its subscription on. */
  lemma {:induction false} RisingEventsCounted(s: Subscription, samples: seq<Sample>)
    requires s.active && s.kind == DIGITAL
    requires OnChange(s.flags) && WantsRising(s.flags) && !WantsFalling(s.flags)
    ensures |EventValues(ServeAll(s, samples).packets)| == RisesSeen(s, samples)
    decreases |samples|
  {
    hide Serve, EmitsTelemetry, Cut32, Interval;
    if samples != [] {
      var next := FirstVisit(s, samples);
      RisingEventsCounted(next, samples[1..]);
    }
  }

  /** Transitions from nonzero to zero in a run of values after `last`. */
  function Falls(last: i32, samples: seq<Sample>): nat
    decreases |samples|
  {
    if samples == [] then 0
    else (if last != 0 && samples[0].value == 0 then 1 else 0) + Falls(samples[0].value, samples[1..])
  }

  function FallsSeen(s: Subscription, samples: seq<Sample>): nat {
    if s.hasLastValue then Falls(s.lastValue, samples)
    else if samples == [] then 0
    else Falls(samples[0].value, samples[1..])
  }

  /** With only falling edges wanted, it reports one event per falling edge. */
  lemma {:induction false} FallingEventsCounted(s: Subscription, samples: seq<Sample>)
    requires s.active && s.kind == DIGITAL
    requires OnChange(s.flags) && !WantsRising(s.flags) && WantsFalling(s.flags)
    ensures |EventValues(ServeAll(s, samples).packets)| == FallsSeen(s, samples)
    decreases |samples|
  {
    hide Serve, EmitsTelemetry, Cut32, Interval;
    if samples != [] {
      var next := FirstVisit(s, samples);
      FallingEventsCounted(next, samples[1..]);
    }
  }

  /** A slot that is not to report changes reports none. */
  lemma {:induction false} NoEventsUnasked(s: Subscription, samples: seq<Sample>)
    requires s.active && !OnChange(s.flags)
    ensures EventValues(ServeAll(s, samples).packets) == []
    decreases |samples|
  {
    hide Serve, EmitsTelemetry, Cut32, Interval;
    if samples != [] {
      var next := FirstVisit(s, samples);
      NoEventsUnasked(next, samples[1..]);
    }
  }

  // ---- telemetry is not too frequent ----

  /** Visits in order, between the times a and b. */
  predicate Within(samples: seq<Sample>, a: nat, b: nat)
    decreases |samples|
  {
    samples != [] ==> a <= samples[0].now <= b && Within(samples[1..], samples[0].now, b)
  }

  function Multiple(n: nat, i: nat): nat {
    if n == 0 then 0 else i + Multiple(n - 1, i)
  }

  lemma {:induction false} MultipleIsProduct(n: nat, i: nat)
    ensures Multiple(n, i) == n * i
  {
    if n > 0 { MultipleIsProduct(n - 1, i); }
  }

  /** Frames sent between a and b, if any, are spaced by the interval from the first due
      time on. */
  lemma {:induction false} TelemetrySpaced(s: Subscription, samples: seq<Sample>, a: nat, b: nat)
    requires s.active && s.rateHz != 0 && Within(samples, a, b)
    requires b + Interval(s.rateHz) < 0x1_0000_0000
    ensures var start := if s.nextDueMs > a then s.nextDueMs else a;
            var n := CountTelemetry(ServeAll(s, samples).packets);
            n == 0 || start + Multiple(n - 1, Interval(s.rateHz)) <= b
    decreases |samples|
  {
    hide Serve, ServeAll, CountTelemetry, EmitsEvent, Interval, EventValues, Multiple, Cut32;
    NothingSent(s);
    if samples != [] {
      var next := FirstVisit(s, samples);
      TelemetrySpaced(next, samples[1..], samples[0].now, b);
      var n := CountTelemetry(ServeAll(next, samples[1..]).packets);
      MultipleGrows(if n > 0 then n - 1 else 0, Interval(s.rateHz));
      if EmitsTelemetry(s, samples[0].now) { NoCut(samples[0].now + Interval(s.rateHz)); }
    }
  }

  lemma Grows(a: nat, b: nat, i: nat)
    requires a <= b
    ensures a * i <= b * i
  {
  }

  lemma AtMostQuotient(n: nat, span: nat, i: nat)
    requires i > 0 && n * i <= span
    ensures n <= span / i
  {
    var q := span / i;
    assert span == i * q + span % i;
    if n > q {
      assert (q + 1) * i == q * i + i;
      Grows(q + 1, n, i);
    }
  }

  /** In any window of `span` milliseconds in which the clock does not wrap, however often
      the slot is visited, it sends at most one frame plus one per whole interval. */
  lemma TelemetryRateBound(s: Subscription, samples: seq<Sample>, from: nat, span: nat)
    requires s.active && s.rateHz != 0 && Within(samples, from, from + span)
    requires from + span + Interval(s.rateHz) < 0x1_0000_0000
    ensures CountTelemetry(ServeAll(s, samples).packets) <= 1 + span / Interval(s.rateHz)
  {
    hide Interval, ServeAll;
    TelemetrySpaced(s, samples, from, from + span);
    var n, i := CountTelemetry(ServeAll(s, samples).packets), Interval(s.rateHz);
    IntervalPositive(s.rateHz);
    if n > 0 {
      MultipleIsProduct(n - 1, i);
      AtMostQuotient(n - 1, span, i);
    } else {
      AtMostQuotient(0, span, i);
    }
  }

  lemma IntervalPositive(rateHz: u16)
    requires rateHz != 0
    ensures Interval(rateHz) > 0
  {
  }

  // ---- exactly when the bound holds ----

  /** No slot of that rate exceeds the bound in that window, however it is visited. */
  ghost predicate RateBounded(rateHz: u16, from: nat, span: nat)
    requires rateHz != 0
  {
    forall s: Subscription, samples: seq<Sample> ::
      s.active && s.rateHz == rateHz && Within(samples, from, from + span) ==>
      CountTelemetry(ServeAll(s, samples).packets) <= 1 + span / Interval(rateHz)
  }

  function Copies(x: Sample, n: nat): (samples: seq<Sample>)
    ensures |samples| == n
  {
    if n == 0 then [] else [x] + Copies(x, n - 1)
  }

  lemma {:induction false} CopiesWithin(x: Sample, n: nat, a: nat)
    requires a <= x.now
    ensures Within(Copies(x, n), a, x.now)
  {
    if n > 0 { CopiesWithin(x, n - 1, x.now); }
  }

  /** Where the next due time wraps, every visit in the same millisecond sends. */
  lemma {:induction false} CopiesAllSent(s: Subscription, x: Sample, n: nat)
    requires s.active && s.rateHz != 0 && s.nextDueMs <= x.now && x.now + Interval(s.rateHz) >= 0x1_0000_0000
    ensures CountTelemetry(ServeAll(s, Copies(x, n)).packets) == n
    decreases n
  {
    hide Serve, EmitsEvent, EventValues, Interval;
    if n == 0 {
      assert ServeAll(s, []).packets == [];
    } else {
      var next := FirstVisit(s, Copies(x, n));
      assert Copies(x, n)[0] == x && Copies(x, n)[1..] == Copies(x, n - 1);
      DueWrapped(s.rateHz, x.now);
      CopiesAllSent(next, x, n - 1);
    }
  }

  lemma DueWrapped(rateHz: u16, now: u32)
    requires rateHz != 0 && now + Interval(rateHz) >= 0x1_0000_0000
    ensures Cut32(now + Interval(rateHz)) <= now
  {
  }

  /** In a window in which the clock does not wrap the bound holds for every slot of a rate
      and every schedule of visits if and only if a due time set in it cannot wrap either. */
  lemma RateBoundExactly(rateHz: u16, from: nat, span: nat)
    requires rateHz != 0 && from + span < 0x1_0000_0000
    ensures RateBounded(rateHz, from, span) <==> from + span + Interval(rateHz) < 0x1_0000_0000
  {
    hide Interval, ServeAll, CountTelemetry, Within, Copies;
    IntervalPositive(rateHz);
    if from + span + Interval(rateHz) < 0x1_0000_0000 {
      forall s: Subscription, samples: seq<Sample>
        | s.active && s.rateHz == rateHz && Within(samples, from, from + span)
        ensures CountTelemetry(ServeAll(s, samples).packets) <= 1 + span / Interval(rateHz)
      {
        TelemetryRateBound(s, samples, from, span);
      }
    } else {
      var s := Subscription(true, DIGITAL, 0, rateHz, 0, 0, 0, false);
      var x := Sample(0, from + span, 0);
      var n := 2 + span / Interval(rateHz);
      CopiesWithin(x, n, from);
      CopiesAllSent(s, x, n);
      assert CountTelemetry(ServeAll(s, Copies(x, n)).packets) > 1 + span / Interval(rateHz);
    }
  }

  /** Where the next due time wraps, the bound fails: a slot due every second sends two
      frames in the same millisecond. */
  lemma RateBoundNeedsNoWrap()
    ensures var s := Subscription(true, DIGITAL, 0, 1, 0, 0, 0, false);
            var t := Sample(0, 0xFFFF_FFFF, 0);
            && Within([t, t], 0xFFFF_FFFF, 0xFFFF_FFFF)
            && CountTelemetry(ServeAll(s, [t, t]).packets) == 2 > 1 + 0 / Interval(s.rateHz)
  {
    hide Bytes32;
    var s := Subscription(true, DIGITAL, 0, 1, 0, 0, 0, false);
    var t := Sample(0, 0xFFFF_FFFF, 0);
    var r := Serve(s, Some(0), 0xFFFF_FFFF, 0);
    assert r.slot.nextDueMs == 999;
    var r2 := Serve(r.slot, Some(0), 0xFFFF_FFFF, 0);
    ServedReports(s, 0, 0xFFFF_FFFF, 0);
    ServedReports(r.slot, 0, 0xFFFF_FFFF, 0);
    assert [t, t][1..] == [t] && [t][1..] == [];
    assert Within([], 0xFFFF_FFFF, 0xFFFF_FFFF) && Within([t], 0xFFFF_FFFF, 0xFFFF_FFFF);
    assert ServeAll(r2.slot, []) == Served(r2.slot, []);
    assert ServeAll(r.slot, [t]).packets == r2.packets;
    CountTelemetryJoins(r.packets, r2.packets);
  }

  // ---- telemetry is not too rare ----

  /** Visits in order and at most `gap` apart. */
  predicate Paced(samples: seq<Sample>, gap: nat)
    decreases |samples|
  {
    |samples| > 1 ==> samples[0].now <= samples[1].now <= samples[0].now + gap && Paced(samples[1..], gap)
  }

  function LastVisit(samples: seq<Sample>): u32
    requires samples != []
  {
    samples[|samples| - 1].now
  }

  lemma {:induction false} TelemetryPaced(s: Subscription, samples: seq<Sample>, gap: nat)
    requires s.active && s.rateHz != 0 && samples != [] && Paced(samples, gap)
    requires LastVisit(samples) + Interval(s.rateHz) < 0x1_0000_0000
    ensures var start := if s.nextDueMs > samples[0].now then s.nextDueMs + gap else samples[0].now;
            var n := CountTelemetry(ServeAll(s, samples).packets);
            LastVisit(samples) < start + Multiple(n, Interval(s.rateHz) + gap)
    ensures samples[0].now <= LastVisit(samples)
    decreases |samples|
  {
    hide Serve, ServeAll, CountTelemetry, EmitsEvent, EventValues, Interval, Multiple, Cut32;
    IntervalPositive(s.rateHz);
    var next := FirstVisit(s, samples);
    var i, n := Interval(s.rateHz), CountTelemetry(ServeAll(next, samples[1..]).packets);
    MultipleGrows(n, i + gap);
    if |samples| == 1 {
      assert samples[1..] == [];
      NothingSent(next);
    } else {
      assert LastVisit(samples) == LastVisit(samples[1..]);
      TelemetryPaced(next, samples[1..], gap);
      if EmitsTelemetry(s, samples[0].now) { NoCut(samples[0].now + i); }
    }
  }

  lemma NothingSent(s: Subscription)
    ensures CountTelemetry(ServeAll(s, []).packets) == 0
  {
  }

  lemma NoCut(x: nat)
    requires x < 0x1_0000_0000
    ensures Cut32(x) == x
  {
  }

  lemma MultipleGrows(n: nat, i: nat)
    ensures Multiple(0, i) == 0 && Multiple(n + 1, i) == i + Multiple(n, i)
  {
  }

  /** Visited at most `gap` milliseconds apart, a slot that is due sends at once and then at
      least once per interval and gap, as long as no due time wraps. */
  lemma TelemetryRateAtLeast(s: Subscription, samples: seq<Sample>, gap: nat)
    requires s.active && s.rateHz != 0 && samples != [] && Paced(samples, gap)
    requires s.nextDueMs <= samples[0].now && LastVisit(samples) + Interval(s.rateHz) < 0x1_0000_0000
    ensures samples[0].now <= LastVisit(samples) && Interval(s.rateHz) > 0
    ensures CountTelemetry(ServeAll(s, samples).packets)
         >= 1 + (LastVisit(samples) - samples[0].now) / (Interval(s.rateHz) + gap)
  {
    hide Interval, ServeAll, CountTelemetry, Paced;
    IntervalPositive(s.rateHz);
    TelemetryPaced(s, samples, gap);
    var n := CountTelemetry(ServeAll(s, samples).packets);
    MultipleIsProduct(n, Interval(s.rateHz) + gap);
    MoreThanQuotient(n, LastVisit(samples) - samples[0].now, Interval(s.rateHz) + gap);
  }

  lemma MoreThanQuotient(n: nat, span: nat, i: nat)
    requires i > 0 && span < n * i
    ensures n >= 1 + span / i
  {
    var q := span / i;
    assert span == i * q + span % i;
    if n <= q { Grows(n, q, i); }
  }

  /** Against true time, from the frame before it until a turn of the clock after it is due,
      a slot is on time if and only if the clock has not wrapped between the due time and
      the visit: visited before such a wrap it sends too early, and after it the slot is
      silent for the rest of the turn. */
  lemma OnTimeExactly(s: Subscription, due: nat, t: nat)
    requires s.rateHz != 0 && s.nextDueMs == Safety.Millis(due)
    requires due <= t + Interval(s.rateHz) && t < due + Safety.CLOCK
    ensures (EmitsTelemetry(s, Safety.Millis(t)) <==> t >= due) <==> t / Safety.CLOCK == due / Safety.CLOCK
  {
    hide Interval;
    assert Interval(s.rateHz) <= 1000 by { AtMostASecond(s.rateHz); }
    var e, f := due / Safety.CLOCK, t / Safety.CLOCK;
    assert due == Safety.CLOCK * e + Safety.Millis(due) && t == Safety.CLOCK * f + Safety.Millis(t);
  }

  lemma AtMostASecond(rateHz: u16)
    requires rateHz != 0
    ensures Interval(rateHz) <= 1000
  {
  }
}
