/** What subscriptions report to the host: which values, of which resource, from when. */
module Reports {
  import opened Seqs
  import opened Wire
  import opened Frame
  import opened Safety
  import opened Subscriptions
  import opened Device
  import opened SafeRuns
  import opened HostReceive
  import SlotRuns

  // ---- one visit ----

  /** A visit that finds a slot due sends one frame of telemetry with the slot's kind and id
      and the value just sampled; an event it reports has them and the visit's time. */
  lemma VisitReports(s: Subscription, v: i32, now: u32, micros: u32)
    requires s.active && KnownResource(s.kind)
    ensures var packets := Serve(s, Some(v), now, micros).packets;
            && TelemetryOf(packets) == (if s.rateHz != 0 && now >= s.nextDueMs then [TelemetryFrame(s.kind, s.id, v)] else [])
            && HostReceive.EventsOf(packets) == (if EmitsEvent(s, v) then [EdgeEvent(s.kind, s.id, v, micros)] else [])
  {
    hide EmitsEvent, Bytes32, TelemetryIn, EventIn, Carried, Cut32, Interval, EventPacket, TelemetryPacket;
    var e, t := EventPacket(s, v, micros), TelemetryPacket(s, v);
    TelemetryRoundTrip(s, v, micros);
    NoEventInTelemetry(s, v);
    CarriedOfOne(TelemetryIn, e);
    CarriedOfOne(TelemetryIn, t);
    CarriedOfOne(EventIn, e);
    CarriedOfOne(EventIn, t);
    NothingCarried();
    CarriedJoins(TelemetryIn, [e], [t]);
    CarriedJoins(EventIn, [e], [t]);
    assert [] + [t] == [t];
  }

  lemma NoEventInTelemetry(s: Subscription, v: i32)
    ensures EventIn(TelemetryPacket(s, v)).None?
  {
    hide Bytes32;
  }

  // ---- a slot over its samples ----

  /** The samples of the visits that send telemetry: the first at or after the due time, and
      then the first at or after an interval from the one before. */
  function DueSamples(rateHz: u16, due: u32, samples: seq<Sample>): seq<Sample>
    requires rateHz != 0
    decreases |samples|
  {
    if samples == [] then []
    else if samples[0].now >= due then
      [samples[0]] + DueSamples(rateHz, Cut32(samples[0].now + Interval(rateHz)), samples[1..])
    else DueSamples(rateHz, due, samples[1..])
  }

  /** The samples that differ from the one before, or from `last`. */
  function ChangedSamples(last: i32, samples: seq<Sample>): seq<Sample>
    decreases |samples|
  {
    if samples == [] then []
    else (if samples[0].value != last then [samples[0]] else []) + ChangedSamples(samples[0].value, samples[1..])
  }

  function AsFrames(kind: byte, id: byte, samples: seq<Sample>): (frames: seq<TelemetryFrame>)
    ensures |frames| == |samples|
    ensures forall i | 0 <= i < |samples| :: frames[i] == TelemetryFrame(kind, id, samples[i].value)
  {
    if samples == [] then [] else [TelemetryFrame(kind, id, samples[0].value)] + AsFrames(kind, id, samples[1..])
  }

  function AsEvents(kind: byte, id: byte, samples: seq<Sample>): (events: seq<EdgeEvent>)
    ensures |events| == |samples|
    ensures forall i | 0 <= i < |samples| :: events[i] == EdgeEvent(kind, id, samples[i].value, samples[i].micros)
  {
    if samples == [] then [] else [EdgeEvent(kind, id, samples[0].value, samples[0].micros)] + AsEvents(kind, id, samples[1..])
  }

  /** The first visit of a run, and the rest. */
  lemma FirstReport(s: Subscription, samples: seq<Sample>) returns (next: Subscription)
    requires s.active && KnownResource(s.kind) && samples != []
    ensures var x := samples[0];
            && next == s.(lastValue := x.value, hasLastValue := true,
                          nextDueMs := if EmitsTelemetry(s, x.now) then Cut32(x.now + Interval(s.rateHz)) else s.nextDueMs)
            && TelemetryOf(ServeAll(s, samples).packets) ==
               (if EmitsTelemetry(s, x.now) then [TelemetryFrame(s.kind, s.id, x.value)] else [])
               + TelemetryOf(ServeAll(next, samples[1..]).packets)
            && HostReceive.EventsOf(ServeAll(s, samples).packets) ==
               (if EmitsEvent(s, x.value) then [EdgeEvent(s.kind, s.id, x.value, x.micros)] else [])
               + HostReceive.EventsOf(ServeAll(next, samples[1..]).packets)
  {
    hide EmitsEvent, Serve, Carried, Cut32, Interval, EventValues, CountTelemetry, TelemetryIn, EventIn;
    var x := samples[0];
    var first := Serve(s, Some(x.value), x.now, x.micros);
    next := FirstVisit(s, samples);
    ServedReports(s, x.value, x.now, x.micros);
    VisitReports(s, x.value, x.now, x.micros);
    BothJoin(first.packets, ServeAll(next, samples[1..]).packets);
  }

  /** The telemetry of a slot is, frame by frame, the sample of the visit that sent it. */
  lemma {:induction false} TelemetryIsSamples(s: Subscription, samples: seq<Sample>)
    requires s.active && KnownResource(s.kind)
    ensures TelemetryOf(ServeAll(s, samples).packets) ==
            if s.rateHz == 0 then [] else AsFrames(s.kind, s.id, DueSamples(s.rateHz, s.nextDueMs, samples))
    decreases |samples|
  {
    hide EmitsEvent, Serve, Carried, Cut32, Interval, TelemetryIn;
    if samples == [] {
      NothingSentAtAll(s);
    } else {
      var next := FirstReport(s, samples);
      TelemetryIsSamples(next, samples[1..]);
      if s.rateHz != 0 && !EmitsTelemetry(s, samples[0].now) {
        var frames := AsFrames(s.kind, s.id, DueSamples(s.rateHz, s.nextDueMs, samples[1..]));
        assert [] + frames == frames;
      }
      if s.rateHz != 0 && EmitsTelemetry(s, samples[0].now) {
        var later := DueSamples(s.rateHz, next.nextDueMs, samples[1..]);
        assert ([samples[0]] + later)[1..] == later;
      }
    }
  }

  lemma NothingSentAtAll(s: Subscription)
    ensures TelemetryOf(ServeAll(s, []).packets) == [] && HostReceive.EventsOf(ServeAll(s, []).packets) == []
  {
  }

  /** The events of a slot that reports every change are, one by one, the samples that differ
      from the one before, with the time of the visit that saw them. */
  lemma {:induction false} EventsAreSamples(s: Subscription, samples: seq<Sample>)
    requires ReportsEveryChange(s) && KnownResource(s.kind) && s.hasLastValue && Readable(s, samples)
    requires s.kind == DIGITAL ==> s.lastValue == 0 || s.lastValue == 1
    ensures HostReceive.EventsOf(ServeAll(s, samples).packets) == AsEvents(s.kind, s.id, ChangedSamples(s.lastValue, samples))
    decreases |samples|
  {
    hide Serve, EmitsTelemetry, Carried, Cut32, Interval, EventIn;
    if samples == [] {
      NothingSentAtAll(s);
    } else {
      var next := FirstReport(s, samples);
      EventsAreSamples(next, samples[1..]);
      var later := ChangedSamples(samples[0].value, samples[1..]);
      if samples[0].value != s.lastValue {
        assert ([samples[0]] + later)[1..] == later;
      } else {
        assert [] + later == later && [] + AsEvents(s.kind, s.id, later) == AsEvents(s.kind, s.id, later);
      }
    }
  }

  /** From its first sample on. */
  lemma FreshEventsAreSamples(s: Subscription, samples: seq<Sample>)
    requires ReportsEveryChange(s) && KnownResource(s.kind) && !s.hasLastValue && Readable(s, samples) && samples != []
    ensures HostReceive.EventsOf(ServeAll(s, samples).packets) ==
            AsEvents(s.kind, s.id, ChangedSamples(samples[0].value, samples[1..]))
  {
    hide Serve, EmitsTelemetry, Carried, Cut32, Interval, EventIn, ServeAll, ChangedSamples;
    var next := FirstReport(s, samples);
    EventsAreSamples(next, samples[1..]);
    var events := AsEvents(s.kind, s.id, ChangedSamples(samples[0].value, samples[1..]));
    assert [] + events == events;
  }

  // ---- on the device ----

  /** The interval is a second's share, but at least a millisecond. */
  lemma IntervalMeans(rateHz: u16)
    requires rateHz != 0
    ensures rateHz <= 1000 ==> Interval(rateHz) * rateHz <= 1000 < (Interval(rateHz) + 1) * rateHz
    ensures rateHz > 1000 ==> Interval(rateHz) == 1
  {
    Rounded(1000, rateHz);
  }

  /** After an acknowledged Subscribe, over any run of the device that does not take it away,
      what the slot queues for the host is: of telemetry, the sample of every update that
      found it due, the first at once; of events, if it reports every change, each sample
      that differs from the one before, with its time. A digital slot's samples are the
      levels of its pin at the updates. */
  lemma SubscriptionReports(b: Board, d: Dev, p: Packet, env: Env, hs: seq<Happening>) returns (i: nat)
    requires BoardOk(b) && OutputsSafe(b, d) && EnvOk(b, env) && SlotRuns.SlotsReadable(b, d)
    requires IsCommand(p, SUBSCRIBE) && |p.payload| >= 6 && Handle(b, d, p, env).kind == ACK
    requires AllOk(b, hs) && SlotRuns.StaysSubscribed(hs, p.payload[1], p.payload[2])
    ensures i < MAX_SUBSCRIPTIONS && OutputsSafe(b, Handle(b, d, p, env).dev)
    ensures var d2, kind, id, rate := Handle(b, d, p, env).dev, p.payload[1], p.payload[2], U16(p.payload[3], p.payload[4]);
            var samples, packets := SlotRuns.SlotSamples(b, d2, hs, i), SlotRuns.SlotQueues(b, d2, hs, i);
            && TelemetryOf(packets) == (if rate == 0 then [] else AsFrames(kind, id, DueSamples(rate, Millis(env.time), samples)))
            && (ReportsEveryChange(d2.subscriptions[i]) && samples != [] ==>
                  HostReceive.EventsOf(packets) == AsEvents(kind, id, ChangedSamples(samples[0].value, samples[1..])))
            && (kind == DIGITAL ==> id < b.numPins && samples == SlotRuns.PinSamples(b, hs, id))
  {
    hide Handle, EnvOk, DacWrites, SlotRuns.SlotSamples, SlotRuns.SlotQueues, SlotRuns.SlotsReadable, ServeAll, Interval, Carried,
         ReportsEveryChange, Subscriptions.Readable, SlotRuns.StaysSubscribed, StepSafe, DueSamples, ChangedSamples, SlotRuns.PinSamples,
         SlotRuns.Readable, DevOk;
    i := SlotRuns.SubscribeTakesSlot(b, d, p, env);
    SafeIsOk(b, d);
    HandleSafe(b, d, p, env);
    SafeAfter(b, d, Handle(b, d, p, env).dev);
    SlotRuns.HandleKeepsSlots(b, d, p, env, i);
    var d2 := Handle(b, d, p, env).dev;
    var s, samples := d2.subscriptions[i], SlotRuns.SlotSamples(b, d2, hs, i);
    SlotRuns.SlotRunsAlone(b, d2, hs, i);
    SlotRuns.SamplesReadable(b, d2, hs, i);
    ActiveIsKnown(b, d2, i);
    TelemetryIsSamples(s, samples);
    if ReportsEveryChange(s) && samples != [] { FreshEventsAreSamples(s, samples); }
    if s.kind == DIGITAL { SlotRuns.SamplesArePins(b, d2, hs, i); }
  }

  /** The host knows every kind of resource the device can report on. */
  lemma ActiveIsKnown(b: Board, d: Dev, i: nat)
    requires DevOk(b, d) && SlotRuns.SlotsReadable(b, d) && i < MAX_SUBSCRIPTIONS && d.subscriptions[i].active
    ensures KnownResource(d.subscriptions[i].kind)
  {
  }
}
