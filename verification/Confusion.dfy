/** A run in which a command takes telemetry for its answer. */
module Confusion {
  import opened Seqs
  import opened Wire
  import opened Frame
  import opened Calls
  import opened Safety
  import opened Subscriptions
  import opened Device
  import opened SafeRuns
  import opened Answers
  import opened Correlation
  import Outbound
  import Footprint
  import SlotRuns

  // ---- runs of the link, whether or not commands can be told apart ----

  predicate Possible(b: Board, l: Link, steps: seq<Step>)
    requires DeviceReady(b, l.dev)
    decreases |steps|
  {
    steps != [] ==> Can(b, l, steps[0]) && Possible(b, Do(b, l, steps[0]), steps[1..])
  }

  function Reached(b: Board, l: Link, steps: seq<Step>): (l2: Link)
    requires DeviceReady(b, l.dev) && Possible(b, l, steps)
    ensures DeviceReady(b, l2.dev)
    decreases |steps|
  {
    if steps == [] then l else Reached(b, Do(b, l, steps[0]), steps[1..])
  }

  lemma {:induction false} ReachedJoins(b: Board, l: Link, a: seq<Step>, c: seq<Step>)
    requires DeviceReady(b, l.dev) && Possible(b, l, a) && Possible(b, Reached(b, l, a), c)
    ensures Possible(b, l, a + c) && Reached(b, l, a + c) == Reached(b, Reached(b, l, a), c)
    decreases |a|
  {
    hide DeviceReady, Can, Do;
    if a == [] {
      assert a + c == c;
    } else {
      assert (a + c)[0] == a[0] && (a + c)[1..] == a[1..] + c;
      ReachedJoins(b, Do(b, l, a[0]), a[1..], c);
    }
  }

  lemma OneStep(b: Board, l: Link, step: Step)
    requires DeviceReady(b, l.dev) && Can(b, l, step)
    ensures Possible(b, l, [step]) && Reached(b, l, [step]) == Do(b, l, step)
  {
    hide DeviceReady, Can, Do;
    assert [step][1..] == [];
  }

  /** Threads can take any number of sequence numbers without anything else happening. */
  lemma {:induction false} ManyIssued(b: Board, l: Link, n: nat) returns (steps: seq<Step>)
    requires DeviceReady(b, l.dev)
    ensures Possible(b, l, steps)
    ensures var l2 := Reached(b, l, steps);
            && l2 == l.(next := l.next + n, given := l2.given, issued := l2.issued)
            && (n > 0 ==> Call(l.next + n - 1, [PING]) in l2.issued)
  {
    hide DeviceReady, Do, Can, Possible, Reached;
    if n == 0 {
      NoStep(b, l);
      steps := [];
    } else {
      var before := ManyIssued(b, l, n - 1);
      var l1 := Reached(b, l, before);
      var step := Issue([PING]);
      IssueDoes(b, l1);
      OneStep(b, l1, step);
      ReachedJoins(b, l, before, [step]);
      steps := before + [step];
    }
  }

  lemma IssueDoes(b: Board, l: Link)
    requires DeviceReady(b, l.dev)
    ensures var step := Issue([PING]);
            && Can(b, l, step)
            && var l2 := Do(b, l, step);
               && l2 == l.(next := l.next + 1, given := l2.given, issued := l2.issued) && Call(l.next, [PING]) in l2.issued
  {
    hide DeviceReady;
  }

  // ---- a device that sends telemetry ----

  /** Subscribes to pin 0 at 1000 Hz. */
  const SUBSCRIBING: seq<byte> := [SUBSCRIBE, DIGITAL, 0, 0xE8, 0x03, 0]

  /** At boot, with room on the stream. */
  predicate AtBoot(b: Board, env: Env) {
    EnvOk(b, env) && env.time == 0 && forall i | 0 <= i < 16 :: env.rooms[i] >= 15
  }

  lemma Subscribed(b: Board, p: Packet, env: Env)
    requires BoardOk(b) && AtBoot(b, env) && p.kind == COMMAND && p.payload == SUBSCRIBING
    ensures var d, s := Handle(b, PowerUp(b), p, env).dev, Subscription(true, DIGITAL, 0, 1000, 0, 0, 0, false);
            && DevOk(b, d) && SlotRuns.SlotsReadable(b, d) && d.outbound == [] && d.watch == BOOT
            && d.subscriptions == PowerUp(b).subscriptions[0 := s]
  {
    hide Fits, OutputsSafe, SlotRuns.SlotsReadable, Handle, PowerUp, DevOk;
    SlotRuns.PowerUpReadable(b);
    SlotRuns.HandleKeepsSlots(b, PowerUp(b), p, env, 0);
    Footprint.HandleTouches(b, PowerUp(b), p, env);
    SlotTaken(b, p, env);
  }

  lemma SlotTaken(b: Board, p: Packet, env: Env)
    requires BoardOk(b) && AtBoot(b, env) && p.kind == COMMAND && p.payload == SUBSCRIBING
    ensures var d, s := Handle(b, PowerUp(b), p, env).dev, Subscription(true, DIGITAL, 0, 1000, 0, 0, 0, false);
            d.outbound == [] && d.watch == BOOT && d.subscriptions == PowerUp(b).subscriptions[0 := s]
  {
    hide Fits, OutputsSafe, FreeSlot, Blank;
    FirstIsFree(b);
  }

  lemma FirstIsFree(b: Board)
    requires BoardOk(b)
    ensures FreeSlot(PowerUp(b).subscriptions) == 0
    ensures |PowerUp(b).subscriptions| == MAX_SUBSCRIPTIONS && PowerUp(b).subscriptions[0] == NO_SUBSCRIPTION
  {
    hide OutputsSafe;
  }

  lemma {:induction false} OthersQuiet(b: Board, d: Dev, i: nat, env: Env)
    requires DevOk(b, d) && EnvOk(b, env) && 0 < i <= MAX_SUBSCRIPTIONS
    requires forall k | 0 < k < MAX_SUBSCRIPTIONS :: !d.subscriptions[k].active
    ensures SlotRuns.QueuedApart(b, d, i, env) == []
    decreases MAX_SUBSCRIPTIONS - i
  {
    hide EnvOk, ReadResource;
    if i < MAX_SUBSCRIPTIONS {
      OthersQuiet(b, d, i + 1, env);
      assert SlotRuns.Visit(b, d, i, env).packets == [];
    }
  }

  /** The first update after the subscription writes one frame of telemetry. */
  lemma TelemetryWritten(b: Board, d: Dev, env: Env) returns (t: Packet)
    requires BoardOk(b) && AtBoot(b, env) && DevOk(b, d) && SlotRuns.SlotsReadable(b, d)
    requires d.outbound == [] && d.watch == BOOT
    requires d.subscriptions == PowerUp(b).subscriptions[0 := Subscription(true, DIGITAL, 0, 1000, 0, 0, 0, false)]
    ensures t.seqNo == 0 && UpdateWrites(b, d, env) == [t]
  {
    hide UpdateQueues, UpdateWrites, OutputsSafe, SlotRuns.SlotsReadable, SlotRuns.SampleOf, PowerUp, DevOk, Bytes32;
    FirstIsFree(b);
    NoOthers(b);
    SampleAtBoot(b, d, env);
    var x := SlotRuns.SampleOf(b, d, 0, env);
    t := TelemetryPacket(Subscription(true, DIGITAL, 0, 1000, 0, 0, 0, false), x.value);
    OneQueued(b, d, env, t);
    OneFrameGoesOut(b, d, env, t);
  }

  lemma OneQueued(b: Board, d: Dev, env: Env, t: Packet)
    requires BoardOk(b) && AtBoot(b, env) && DevOk(b, d) && SlotRuns.SlotsReadable(b, d)
    requires d.subscriptions[0] == Subscription(true, DIGITAL, 0, 1000, 0, 0, 0, false)
    requires forall k | 0 < k < MAX_SUBSCRIPTIONS :: !d.subscriptions[k].active
    requires t == TelemetryPacket(d.subscriptions[0], SlotRuns.SampleOf(b, d, 0, env).value)
    ensures UpdateQueues(b, d, env) == [t]
  {
    hide UpdateQueues, Update, OutputsSafe, SlotRuns.SlotsReadable, SlotRuns.Visit, SlotRuns.SampleOf, SlotRuns.QueuedApart, Bytes32,
         QueuedBySlot, Serve, TelemetryPacket, EnvOk;
    SlotRuns.UpdateServesSlot(b, d, 0, env);
    SlotRuns.ApartUnfolds(b, d, 0, env);
    OthersQuiet(b, d, 1, env);
    SameVisit(b, d, env);
    SampleAtBoot(b, d, env);
    var x := SlotRuns.SampleOf(b, d, 0, env);
    TelemetryDue(d.subscriptions[0], x.value, x.micros);
    OneAndNone(UpdateQueues(b, d, env), QueuedBySlot(b, d, 0, env), t);
  }

  lemma OneAndNone(all: seq<Packet>, first: seq<Packet>, t: Packet)
    requires all == first + [] && first == [t]
    ensures all == [t]
  {
  }

  lemma NoOthers(b: Board)
    requires BoardOk(b)
    ensures forall k | 0 <= k < MAX_SUBSCRIPTIONS :: !PowerUp(b).subscriptions[k].active
  {
    hide OutputsSafe;
  }

  lemma SameVisit(b: Board, d: Dev, env: Env)
    requires DevOk(b, d) && EnvOk(b, env)
    ensures QueuedBySlot(b, d, 0, env) == SlotRuns.Visit(b, d, 0, env).packets
  {
    hide EnvOk, Serve, ReadResource;
  }

  lemma SampleAtBoot(b: Board, d: Dev, env: Env)
    requires DevOk(b, d) && AtBoot(b, env)
    ensures SlotRuns.SampleOf(b, d, 0, env).now == 0
  {
    hide ReadResource;
  }

  lemma TelemetryDue(s: Subscription, value: i32, micros: u32)
    requires s == Subscription(true, DIGITAL, 0, 1000, 0, 0, 0, false)
    ensures Serve(s, Some(value), 0, micros).packets == [TelemetryPacket(s, value)]
  {
    hide Bytes32;
    assert [] + [TelemetryPacket(s, value)] == [TelemetryPacket(s, value)];
  }

  lemma OneFrameGoesOut(b: Board, d: Dev, env: Env, t: Packet)
    requires DevOk(b, d) && AtBoot(b, env) && d.outbound == [] && UpdateQueues(b, d, env) == [t] && |t.payload| == 6
    ensures UpdateWrites(b, d, env) == [t]
  {
    hide ServeSlots, QueuedFrom, CheckWatchdog, PutAll;
    Footprint.CheckTouches(b, d, env);
    var d1 := CheckWatchdog(b, d, env);
    var d2 := Flushed(d1, env.rooms[..8]);
    Footprint.FlushedTouches(b, d1, env.rooms[..8]);
    ServeSlotsQueue(b, d2, 0, env);
    PutOne(t);
    var rooms := env.rooms[8..];
    assert rooms[0] >= 15;
    assert Outbound.FlushCount([t], rooms, 8) == 1 + Outbound.FlushCount([], rooms[1..], 7) by { assert [t][1..] == []; }
  }

  lemma PutOne(t: Packet)
    ensures PutAll([], [t]) == [t]
  {
    assert [t][1..] == [] && [] + [t] == [t];
  }

  // ---- the run ----

  /** One more step of a run. */
  lemma Then(b: Board, l: Link, steps: seq<Step>, step: Step) returns (more: seq<Step>)
    requires DeviceReady(b, l.dev) && Possible(b, l, steps) && Can(b, Reached(b, l, steps), step)
    ensures Possible(b, l, more) && Reached(b, l, more) == Do(b, Reached(b, l, steps), step)
  {
    hide DeviceReady, Can, Do;
    OneStep(b, Reached(b, l, steps), step);
    ReachedJoins(b, l, steps, [step]);
    more := steps + [step];
  }

  /** The subscription is made, and its answer is read by nobody. */
  lemma Prelude(b: Board, env: Env) returns (steps: seq<Step>)
    requires BoardOk(b) && AtBoot(b, env)
    ensures DeviceReady(b, PowerUp(b)) && Possible(b, AtPowerUp(b), steps)
    ensures DevOk(b, PowerUp(b))
    ensures var l, first := Reached(b, AtPowerUp(b), steps), Call(1, SUBSCRIBING);
            && l.dev == Handle(b, PowerUp(b), PacketOf(first), env).dev && l.next == 2
            && l.down == [] && l.up == [] && l.awaiting.None? && l.returned == []
  {
    hide DeviceReady, Handle, PowerUp, DevOk, OutputsSafe, EnvOk, PacketOf, Possible, Reached;
    ReadyAtPowerUp(b);
    SafeIsOk(b, PowerUp(b));
    var l, first := AtPowerUp(b), Call(1, SUBSCRIBING);
    NoStep(b, l);
    var s1 := Then(b, l, [], Issue(SUBSCRIBING));
    var s2 := Then(b, l, s1, WriteQueued(first));
    assert Reached(b, l, s2).down == [first];
    var s3 := Then(b, l, s2, Happens(Received(PacketOf(first), env)));
    steps := Then(b, l, s3, Discard);
  }

  lemma NoStep(b: Board, l: Link)
    requires DeviceReady(b, l.dev)
    ensures Possible(b, l, []) && Reached(b, l, []) == l
  {
    hide DeviceReady;
  }

  lemma TelemetrySent(b: Board, d: Dev, env: Env) returns (t: Packet)
    requires BoardOk(b) && AtBoot(b, env) && DeviceReady(b, PowerUp(b)) && DevOk(b, PowerUp(b))
    requires d == Handle(b, PowerUp(b), PacketOf(Call(1, SUBSCRIBING)), env).dev
    ensures DevOk(b, d) && UpdateWrites(b, d, env) == [t] && t.seqNo == 0
  {
    hide Handle, UpdateWrites, PowerUp, OutputsSafe, EnvOk;
    Subscribed(b, PacketOf(Call(1, SUBSCRIBING)), env);
    t := TelemetryWritten(b, d, env);
  }

  /** From power-up, a run in which the 65536th command returns a frame nobody asked for. */
  lemma ZeroSequenceConfused(b: Board, env: Env) returns (steps: seq<Step>)
    requires BoardOk(b) && AtBoot(b, env)
    ensures DeviceReady(b, PowerUp(b)) && Possible(b, AtPowerUp(b), steps)
    ensures var returned := Reached(b, AtPowerUp(b), steps).returned;
            |returned| == 1 && returned[0].call.number == 65536 && returned[0].message.Async?
  {
    hide DeviceReady, Handle, UpdateWrites, PowerUp, DevOk, OutputsSafe, EnvOk, Possible, Reached, Next, ReplyTo;
    var before := Prelude(b, env);
    var l := AtPowerUp(b);
    var many := ManyIssued(b, Reached(b, l, before), SEQUENCES - 1);
    ReachedJoins(b, l, before, many);
    var t := TelemetrySent(b, Reached(b, l, before).dev, env);
    var call := Call(SEQUENCES, [PING]);
    var s1 := Then(b, l, before + many, WriteDirect(call));
    var s2 := Then(b, l, s1, Happens(Updating(env)));
    assert Reached(b, l, s2).up == [Async(t)];
    steps := Then(b, l, s2, Examine);
  }
}
