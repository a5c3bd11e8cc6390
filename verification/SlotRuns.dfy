/** A subscription slot over runs of the whole device. */
module SlotRuns {
  import opened Seqs
  import opened Wire
  import opened Frame
  import opened Safety
  import opened Quadrature
  import opened Subscriptions
  import opened Device
  import opened Footprint
  import opened SafeRuns
  import Outbound

  // ---- active slots can be read ----

  /** Whether a resource can be read, which does not depend on the hardware. */
  predicate Readable(b: Board, d: Dev, kind: byte, id: byte)
    requires DevOk(b, d)
  {
    if kind == DIGITAL then id < b.numPins
    else if kind == ANALOG then id < b.numPins && d.analogConfigured[id]
    else if kind == COUNTER then id < MAX_COUNTERS && d.counters[id].active
    else if kind == ENCODER then id < MAX_ENCODERS && d.encoders[id].active
    else kind == DAC && id < MAX_DACS && d.dacs[id].active
  }

  lemma ReadableExactly(b: Board, d: Dev, kind: byte, id: byte, env: Env)
    requires DevOk(b, d) && EnvOk(b, env)
    ensures ReadResource(b, d, kind, id, env).Some? <==> Readable(b, d, kind, id)
    ensures kind == DIGITAL && ReadResource(b, d, kind, id, env).Some? ==> 0 <= ReadResource(b, d, kind, id, env).value <= 1
  {
    hide Average;
  }

  /** Every active slot's resource can be read. */
  predicate SlotsReadable(b: Board, d: Dev)
    requires DevOk(b, d)
  {
    forall i | 0 <= i < MAX_SUBSCRIPTIONS && d.subscriptions[i].active ::
      Readable(b, d, d.subscriptions[i].kind, d.subscriptions[i].id)
  }

  // ---- one visit does not disturb the others ----

  /** Two states between which nothing that is read has changed. */
  predicate ReadsAlike(d: Dev, d2: Dev) {
    && d2.analogConfigured == d.analogConfigured && d2.analogSamples == d.analogSamples && d2.counters == d.counters
    && d2.encoders == d.encoders && d2.dacs == d.dacs
  }

  lemma SameReading(b: Board, d: Dev, d2: Dev, kind: byte, id: byte, env: Env)
    requires DevOk(b, d) && DevOk(b, d2) && EnvOk(b, env) && ReadsAlike(d, d2)
    ensures ReadResource(b, d2, kind, id, env) == ReadResource(b, d, kind, id, env)
  {
    hide Sum, EnvOk;
    if kind == ANALOG && id < b.numPins { assert Average(b, d2, id, env) == Average(b, d, id, env); }
  }

  /** Slot i when it is visited in state d. */
  function Visit(b: Board, d: Dev, i: nat, env: Env): Served
    requires DevOk(b, d) && EnvOk(b, env) && i < MAX_SUBSCRIPTIONS
  {
    var s := d.subscriptions[i];
    Serve(s, ReadResource(b, d, s.kind, s.id, env), Millis(env.time), env.micros)
  }

  lemma SameVisit(b: Board, d: Dev, d2: Dev, i: nat, env: Env)
    requires DevOk(b, d) && DevOk(b, d2) && EnvOk(b, env) && i < MAX_SUBSCRIPTIONS
    requires ReadsAlike(d, d2) && d2.subscriptions[i] == d.subscriptions[i]
    ensures Visit(b, d2, i, env) == Visit(b, d, i, env)
  {
    hide ReadResource, EnvOk, Serve;
    SameReading(b, d, d2, d.subscriptions[i].kind, d.subscriptions[i].id, env);
  }

  lemma {:induction false} SlotsServedApart(b: Board, d: Dev, i: nat, k: nat, env: Env)
    requires DevOk(b, d) && EnvOk(b, env) && i <= MAX_SUBSCRIPTIONS && k < MAX_SUBSCRIPTIONS
    ensures var d2 := ServeSlots(b, d, i, env);
            && DevOk(b, d2)
            && d2.subscriptions[k] == if i <= k then Visit(b, d, k, env).slot else d.subscriptions[k]
    decreases MAX_SUBSCRIPTIONS - i
  {
    hide ReadResource, EnvOk, Serve, PutAll;
    if i < MAX_SUBSCRIPTIONS {
      var next := ServeSlot(b, d, i, env);
      SlotsServedApart(b, next, i + 1, k, env);
      if i < k { SameVisit(b, d, next, k, env); }
    }
  }

  /** What the slots from i on queue, each as seen from the state before all visits. */
  function QueuedApart(b: Board, d: Dev, i: nat, env: Env): seq<Packet>
    requires DevOk(b, d) && EnvOk(b, env) && i <= MAX_SUBSCRIPTIONS
    decreases MAX_SUBSCRIPTIONS - i
  {
    if i == MAX_SUBSCRIPTIONS then [] else Visit(b, d, i, env).packets + QueuedApart(b, d, i + 1, env)
  }

  lemma {:induction false} SameQueued(b: Board, d: Dev, d2: Dev, i: nat, env: Env)
    requires DevOk(b, d) && DevOk(b, d2) && EnvOk(b, env) && i <= MAX_SUBSCRIPTIONS && ReadsAlike(d, d2)
    requires forall k | i <= k < MAX_SUBSCRIPTIONS :: d2.subscriptions[k] == d.subscriptions[k]
    ensures QueuedApart(b, d2, i, env) == QueuedApart(b, d, i, env)
    decreases MAX_SUBSCRIPTIONS - i
  {
    hide Visit, EnvOk;
    if i < MAX_SUBSCRIPTIONS {
      SameVisit(b, d, d2, i, env);
      SameQueued(b, d, d2, i + 1, env);
    }
  }

  /** What an update queues is what its slots queue one by one. */
  lemma {:induction false} QueuedIsApart(b: Board, d: Dev, i: nat, env: Env)
    requires DevOk(b, d) && EnvOk(b, env) && i <= MAX_SUBSCRIPTIONS
    ensures QueuedFrom(b, d, i, env) == QueuedApart(b, d, i, env)
    decreases MAX_SUBSCRIPTIONS - i
  {
    hide ReadResource, EnvOk, Serve, PutAll, QueuedApart;
    if i < MAX_SUBSCRIPTIONS {
      var next := ServeSlot(b, d, i, env);
      QueuedIsApart(b, next, i + 1, env);
      SameQueued(b, d, next, i + 1, env);
    }
    ApartUnfolds(b, d, i, env);
  }

  lemma ApartUnfolds(b: Board, d: Dev, i: nat, env: Env)
    requires DevOk(b, d) && EnvOk(b, env) && i <= MAX_SUBSCRIPTIONS
    ensures QueuedApart(b, d, i, env)
         == if i == MAX_SUBSCRIPTIONS then [] else QueuedBySlot(b, d, i, env) + QueuedApart(b, d, i + 1, env)
  {
    hide Serve, ReadResource, EnvOk;
  }

  // ---- a slot over a run ----

  /** What takes a slot away. */
  predicate Unsubscribes(h: Happening, kind: byte, id: byte) {
    h.Received? &&
    (IsCommand(h.packet, RESET_CONFIG)
     || (IsCommand(h.packet, UNSUBSCRIBE) && |h.packet.payload| >= 3 && h.packet.payload[1] == kind && h.packet.payload[2] == id))
  }

  predicate StaysSubscribed(hs: seq<Happening>, kind: byte, id: byte) {
    forall i | 0 <= i < |hs| :: !Unsubscribes(hs[i], kind, id)
  }

  lemma HandleKeepsSlots(b: Board, d: Dev, p: Packet, env: Env, i: nat)
    requires BoardOk(b) && DevOk(b, d) && EnvOk(b, env) && SlotsReadable(b, d) && i < MAX_SUBSCRIPTIONS
    ensures var d2, s := Handle(b, d, p, env).dev, d.subscriptions[i];
            && DevOk(b, d2) && SlotsReadable(b, d2)
            && (s.active && !Unsubscribes(Received(p, env), s.kind, s.id) ==> d2.subscriptions[i] == s)
  {
    hide Handle, EnvOk, ReadResource, Reset;
    HandleTouches(b, d, p, env);
    if IsCommand(p, RESET_CONFIG) {
      NoSlotsAfterReset(b, d);
    } else if IsCommand(p, SUBSCRIBE) || IsCommand(p, UNSUBSCRIBE) {
      SubscribingKeepsSlots(b, d, p, env, i);
    }
  }

  lemma NoSlotsAfterReset(b: Board, d: Dev)
    requires BoardOk(b) && DevOk(b, d)
    ensures DevOk(b, Reset(b, d)) && SlotsReadable(b, Reset(b, d))
  {
  }

  lemma SubscribingKeepsSlots(b: Board, d: Dev, p: Packet, env: Env, i: nat)
    requires BoardOk(b) && DevOk(b, d) && EnvOk(b, env) && SlotsReadable(b, d) && i < MAX_SUBSCRIPTIONS
    requires IsCommand(p, SUBSCRIBE) || IsCommand(p, UNSUBSCRIBE)
    ensures var d2, s := Handle(b, d, p, env).dev, d.subscriptions[i];
            && DevOk(b, d2) && SlotsReadable(b, d2)
            && (s.active && !Unsubscribes(Received(p, env), s.kind, s.id) ==> d2.subscriptions[i] == s)
  {
    hide EnvOk, ReadResource, Fits;
    if |p.payload| >= 3 { ReadableExactly(b, d, p.payload[1], p.payload[2], env); }
  }

  /** The sample an update takes for slot i. */
  function SampleOf(b: Board, d: Dev, i: nat, env: Env): Sample
    requires DevOk(b, d) && EnvOk(b, env) && i < MAX_SUBSCRIPTIONS
  {
    var reading := ReadResource(b, d, d.subscriptions[i].kind, d.subscriptions[i].id, env);
    Sample(if reading.Some? then reading.value else 0, Millis(env.time), env.micros)
  }

  lemma UpdateServesSlot(b: Board, d: Dev, i: nat, env: Env)
    requires BoardOk(b) && DevOk(b, d) && EnvOk(b, env) && SlotsReadable(b, d) && i < MAX_SUBSCRIPTIONS
    ensures var d2, s, x := Update(b, d, env), d.subscriptions[i], SampleOf(b, d, i, env);
            && DevOk(b, d2) && SlotsReadable(b, d2)
            && d2.subscriptions[i] == Visit(b, d, i, env).slot
            && (s.active ==> Visit(b, d, i, env) == Serve(s, Some(x.value), x.now, x.micros))
    ensures UpdateQueues(b, d, env) == QueuedApart(b, d, 0, env)
  {
    hide ReadResource, Serve, ServeSlots, QueuedFrom, QueuedApart, Outbound.FlushCount, CheckWatchdog, Readable;
    UpdateTouches(b, d, env);
    CheckTouches(b, d, env);
    var d1 := Flushed(CheckWatchdog(b, d, env), env.rooms[..8]);
    FlushedTouches(b, CheckWatchdog(b, d, env), env.rooms[..8]);
    assert ReadsAlike(d, d1) && d1.subscriptions == d.subscriptions;
    forall k | 0 <= k < MAX_SUBSCRIPTIONS
      ensures Update(b, d, env).subscriptions[k] == Visit(b, d, k, env).slot
    {
      SlotsServedApart(b, d1, 0, k, env);
      SameVisit(b, d, d1, k, env);
    }
    QueuedIsApart(b, d1, 0, env);
    SameQueued(b, d, d1, 0, env);
    VisitedReadable(b, d, Update(b, d, env), env);
    var s := d.subscriptions[i];
    ReadableExactly(b, d, s.kind, s.id, env);
  }

  /** A visit leaves kind and resource of a slot as they were. */
  lemma VisitedReadable(b: Board, d: Dev, d2: Dev, env: Env)
    requires DevOk(b, d) && DevOk(b, d2) && EnvOk(b, env) && SlotsReadable(b, d) && ReadsAlike(d, d2)
    requires forall k | 0 <= k < MAX_SUBSCRIPTIONS :: d2.subscriptions[k] == Visit(b, d, k, env).slot
    ensures SlotsReadable(b, d2)
  {
    hide ReadResource, EnvOk, EmitsEvent, EmitsTelemetry;
    forall k | 0 <= k < MAX_SUBSCRIPTIONS && d2.subscriptions[k].active
      ensures Readable(b, d2, d2.subscriptions[k].kind, d2.subscriptions[k].id)
    {
      assert d2.subscriptions[k] == Visit(b, d, k, env).slot;
    }
  }

  lemma StepServesSlot(b: Board, d: Dev, h: Happening, i: nat)
    requires BoardOk(b) && DevOk(b, d) && HappeningOk(b, h) && SlotsReadable(b, d) && i < MAX_SUBSCRIPTIONS
    requires d.subscriptions[i].active && !Unsubscribes(h, d.subscriptions[i].kind, d.subscriptions[i].id)
    ensures var d2, s := Next(b, d, h), d.subscriptions[i];
            && DevOk(b, d2) && SlotsReadable(b, d2)
            && d2.subscriptions[i] == if h.Updating? then
                                        var x := SampleOf(b, d, i, h.env); Serve(s, Some(x.value), x.now, x.micros).slot
                                      else s
    ensures h.Updating? ==>
            var s, x := d.subscriptions[i], SampleOf(b, d, i, h.env);
            Visit(b, d, i, h.env).packets == Serve(s, Some(x.value), x.now, x.micros).packets
  {
    hide Handle, Update, EnvOk, Serve, SampleOf, PhasesOf, Delta, Wrap32, Visit;
    match h
    case Received(p, env) => HandleKeepsSlots(b, d, p, env, i);
    case Updating(env) => UpdateServesSlot(b, d, i, env);
    case _ =>
  }

  /** The samples a run takes for slot i, one at each update. */
  function SlotSamples(b: Board, d: Dev, hs: seq<Happening>, i: nat): seq<Sample>
    requires BoardOk(b) && OutputsSafe(b, d) && AllOk(b, hs) && i < MAX_SUBSCRIPTIONS
    decreases |hs|
  {
    if hs == [] then []
    else
      StepIsSafe(b, d, hs[0]);
      (if hs[0].Updating? then [SampleOf(b, d, i, hs[0].env)] else []) + SlotSamples(b, Next(b, d, hs[0]), hs[1..], i)
  }

  /** The packets slot i queues in a run: its part of what the updates queue. */
  function SlotQueues(b: Board, d: Dev, hs: seq<Happening>, i: nat): seq<Packet>
    requires BoardOk(b) && OutputsSafe(b, d) && AllOk(b, hs) && i < MAX_SUBSCRIPTIONS
    decreases |hs|
  {
    if hs == [] then []
    else
      StepIsSafe(b, d, hs[0]);
      (if hs[0].Updating? then Visit(b, d, i, hs[0].env).packets else []) + SlotQueues(b, Next(b, d, hs[0]), hs[1..], i)
  }

  /** Over any run that does not take it away a slot is served as if it were alone, with one
      sample per update, whatever else happens to the device. */
  lemma {:induction false} SlotRunsAlone(b: Board, d: Dev, hs: seq<Happening>, i: nat)
    requires BoardOk(b) && OutputsSafe(b, d) && AllOk(b, hs) && SlotsReadable(b, d) && i < MAX_SUBSCRIPTIONS
    requires d.subscriptions[i].active && StaysSubscribed(hs, d.subscriptions[i].kind, d.subscriptions[i].id)
    ensures var d2, served := Run(b, d, hs), ServeAll(d.subscriptions[i], SlotSamples(b, d, hs, i));
            && |d2.subscriptions| == MAX_SUBSCRIPTIONS && d2.subscriptions[i] == served.slot
            && SlotQueues(b, d, hs, i) == served.packets
    decreases |hs|
  {
    hide HappeningOk, Next, SampleOf, Visit, StepSafe, Unsubscribes, SlotsReadable, DacWrites, ServeAll;
    if hs == [] {
      NothingServed(d.subscriptions[i]);
    } else {
      var h, s := hs[0], d.subscriptions[i];
      StepIsSafe(b, d, h);
      SafeAfter(b, d, Next(b, d, h));
      StepServesSlot(b, d, h, i);
      var next := Next(b, d, h);
      assert SlotsReadable(b, next);
      if h.Updating? {
        EnvOfUpdate(b, h);
        var x := SampleOf(b, d, i, h.env);
        KeepsIdentity(s, x);
        SlotRunsAlone(b, next, hs[1..], i);
        ServedFirst(s, x, SlotSamples(b, next, hs[1..], i));
      } else {
        SlotRunsAlone(b, next, hs[1..], i);
        assert [] + SlotSamples(b, next, hs[1..], i) == SlotSamples(b, next, hs[1..], i);
        assert [] + SlotQueues(b, next, hs[1..], i) == SlotQueues(b, next, hs[1..], i);
      }
    }
  }

  lemma NothingServed(s: Subscription)
    ensures ServeAll(s, []) == Served(s, [])
  {
  }

  lemma KeepsIdentity(s: Subscription, x: Sample)
    requires s.active
    ensures var s2 := Serve(s, Some(x.value), x.now, x.micros).slot; s2.active && s2.kind == s.kind && s2.id == s.id
  {
    hide EmitsEvent, EmitsTelemetry;
  }

  lemma ServedFirst(s: Subscription, x: Sample, later: seq<Sample>)
    ensures var first := Serve(s, Some(x.value), x.now, x.micros);
            ServeAll(s, [x] + later) == Served(ServeAll(first.slot, later).slot, first.packets + ServeAll(first.slot, later).packets)
  {
    hide Serve;
    assert ([x] + later)[1..] == later;
  }

  /** A digital slot only ever samples zero or one. */
  lemma {:induction false} SamplesReadable(b: Board, d: Dev, hs: seq<Happening>, i: nat)
    requires BoardOk(b) && OutputsSafe(b, d) && AllOk(b, hs) && SlotsReadable(b, d) && i < MAX_SUBSCRIPTIONS
    requires d.subscriptions[i].active && StaysSubscribed(hs, d.subscriptions[i].kind, d.subscriptions[i].id)
    ensures Subscriptions.Readable(d.subscriptions[i], SlotSamples(b, d, hs, i))
    decreases |hs|
  {
    hide HappeningOk, Next, StepSafe, Unsubscribes, SlotsReadable, DacWrites, Serve, ReadResource;
    if hs != [] {
      var h, s := hs[0], d.subscriptions[i];
      StepIsSafe(b, d, h);
      SafeAfter(b, d, Next(b, d, h));
      StepServesSlot(b, d, h, i);
      if h.Updating? {
        EnvOfUpdate(b, h);
        KeepsIdentity(s, SampleOf(b, d, i, h.env));
        ReadableExactly(b, d, s.kind, s.id, h.env);
      }
      SamplesReadable(b, Next(b, d, h), hs[1..], i);
    }
  }

  /** The levels of a pin at the updates of a run. */
  function PinSamples(b: Board, hs: seq<Happening>, id: byte): seq<Sample>
    requires AllOk(b, hs) && id < b.numPins
  {
    if hs == [] then []
    else
      (if hs[0].Updating?
       then [Sample(if hs[0].env.high[id] then 1 else 0, hs[0].env.time % 0x1_0000_0000, hs[0].env.micros)] else [])
      + PinSamples(b, hs[1..], id)
  }

  /** A digital slot samples its pin. */
  lemma {:induction false} SamplesArePins(b: Board, d: Dev, hs: seq<Happening>, i: nat)
    requires BoardOk(b) && OutputsSafe(b, d) && AllOk(b, hs) && SlotsReadable(b, d) && i < MAX_SUBSCRIPTIONS
    requires d.subscriptions[i].active && d.subscriptions[i].kind == DIGITAL
    requires StaysSubscribed(hs, d.subscriptions[i].kind, d.subscriptions[i].id)
    ensures d.subscriptions[i].id < b.numPins
    ensures SlotSamples(b, d, hs, i) == PinSamples(b, hs, d.subscriptions[i].id)
    decreases |hs|
  {
    hide HappeningOk, Next, StepSafe, Unsubscribes, DacWrites, Serve, SampleOf;
    assert Readable(b, d, DIGITAL, d.subscriptions[i].id);
    if hs != [] {
      var h, s := hs[0], d.subscriptions[i];
      StepIsSafe(b, d, h);
      SafeAfter(b, d, Next(b, d, h));
      StepServesSlot(b, d, h, i);
      if h.Updating? {
        EnvOfUpdate(b, h);
        KeepsIdentity(s, SampleOf(b, d, i, h.env));
        SampleIsPin(b, d, i, h.env);
      }
      SamplesArePins(b, Next(b, d, h), hs[1..], i);
    }
  }

  lemma SampleIsPin(b: Board, d: Dev, i: nat, env: Env)
    requires DevOk(b, d) && EnvOk(b, env) && i < MAX_SUBSCRIPTIONS
    requires d.subscriptions[i].kind == DIGITAL && d.subscriptions[i].id < b.numPins
    ensures SampleOf(b, d, i, env)
         == Sample(if env.high[d.subscriptions[i].id] then 1 else 0, env.time % 0x1_0000_0000, env.micros)
  {
  }

  lemma EnvOfUpdate(b: Board, h: Happening)
    requires HappeningOk(b, h) && h.Updating?
    ensures EnvOk(b, h.env)
  {
  }

  // ---- from the subscription on ----

  /** Reachable states: power-up, and after any run from one. */
  lemma {:induction false} SlotsStayReadable(b: Board, d: Dev, hs: seq<Happening>)
    requires BoardOk(b) && OutputsSafe(b, d) && AllOk(b, hs) && SlotsReadable(b, d)
    ensures DevOk(b, Run(b, d, hs)) && SlotsReadable(b, Run(b, d, hs))
    decreases |hs|
  {
    hide HappeningOk, Next, StepSafe, SlotsReadable, DacWrites;
    if hs != [] {
      StepIsSafe(b, d, hs[0]);
      SafeAfter(b, d, Next(b, d, hs[0]));
      StepKeepsReadable(b, d, hs[0]);
      SlotsStayReadable(b, Next(b, d, hs[0]), hs[1..]);
    }
  }

  lemma StepKeepsReadable(b: Board, d: Dev, h: Happening)
    requires BoardOk(b) && DevOk(b, d) && HappeningOk(b, h) && SlotsReadable(b, d)
    ensures DevOk(b, Next(b, d, h)) && SlotsReadable(b, Next(b, d, h))
  {
    hide Handle, Update, EnvOk, Serve, PhasesOf, Delta, Wrap32, Visit, SampleOf;
    match h
    case Received(p, env) => HandleKeepsSlots(b, d, p, env, 0);
    case Updating(env) => UpdateServesSlot(b, d, 0, env);
    case _ =>
  }

  lemma PowerUpReadable(b: Board)
    requires BoardOk(b)
    ensures DevOk(b, PowerUp(b)) && SlotsReadable(b, PowerUp(b))
  {
  }

  /** In every reachable state each active slot's resource can be read, so the next update
      leaves every active slot active, for the same resource. */
  lemma ReachableReadable(b: Board, hs: seq<Happening>, env: Env)
    requires BoardOk(b) && AllOk(b, hs) && EnvOk(b, env)
    ensures var d := Run(b, PowerUp(b), hs);
            && DevOk(b, d) && SlotsReadable(b, d)
            && |Update(b, d, env).subscriptions| == MAX_SUBSCRIPTIONS
            && forall i | 0 <= i < MAX_SUBSCRIPTIONS && d.subscriptions[i].active ::
                 var s := Update(b, d, env).subscriptions[i];
                 s.active && s.kind == d.subscriptions[i].kind && s.id == d.subscriptions[i].id
  {
    hide PowerUp, Run, Update, EnvOk, OutputsSafe, SlotsReadable, Serve, Visit, SampleOf, DacWrites;
    PowerUpReadable(b);
    SlotsStayReadable(b, PowerUp(b), hs);
    var d := Run(b, PowerUp(b), hs);
    UpdateServesSlot(b, d, 0, env);
    forall i | 0 <= i < MAX_SUBSCRIPTIONS && d.subscriptions[i].active
      ensures var s := Update(b, d, env).subscriptions[i];
              s.active && s.kind == d.subscriptions[i].kind && s.id == d.subscriptions[i].id
    {
      UpdateServesSlot(b, d, i, env);
      KeepsIdentity(d.subscriptions[i], SampleOf(b, d, i, env));
    }
  }

  /** An acknowledged Subscribe takes the first free slot, due at once and without a value. */
  lemma SubscribeTakesSlot(b: Board, d: Dev, p: Packet, env: Env) returns (i: nat)
    requires BoardOk(b) && DevOk(b, d) && EnvOk(b, env)
    requires IsCommand(p, SUBSCRIBE) && |p.payload| >= 6 && Handle(b, d, p, env).kind == ACK
    ensures i < MAX_SUBSCRIPTIONS && !d.subscriptions[i].active
    ensures var d2 := Handle(b, d, p, env).dev;
            && DevOk(b, d2)
            && d2.subscriptions == d.subscriptions[i := d2.subscriptions[i]]
            && var s := d2.subscriptions[i];
               && s.active && !s.hasLastValue && s.kind == p.payload[1] && s.id == p.payload[2]
               && s.rateHz == U16(p.payload[3], p.payload[4]) && s.flags == p.payload[5] && s.nextDueMs == Millis(env.time)
  {
    hide ReadResource, EnvOk, Fits;
    i := FreeSlot(d.subscriptions);
  }

  /** A Subscribe of full length is acknowledged if and only if the resource can be read and
      one of the sixteen slots is free; the answer tells which of the two is wanting. */
  lemma SubscribeAcceptedExactly(b: Board, d: Dev, p: Packet, env: Env)
    requires BoardOk(b) && DevOk(b, d) && EnvOk(b, env) && IsCommand(p, SUBSCRIBE) && |p.payload| >= 6
    ensures |d.subscriptions| == 16
    ensures var r, readable := Handle(b, d, p, env), Readable(b, d, p.payload[1], p.payload[2]);
            var free := exists i :: 0 <= i < 16 && !d.subscriptions[i].active;
            && (r.kind == ACK <==> readable && free)
            && (!readable ==> r.kind == NACK && r.payload == [INVALID_PAYLOAD])
            && (readable && !free ==> r.kind == NACK && r.payload == [RESOURCE_UNAVAILABLE])
  {
    hide ReadResource, Readable, EnvOk, Fits;
    ReadableExactly(b, d, p.payload[1], p.payload[2], env);
    var i := FreeSlot(d.subscriptions);
    assert i < 16 ==> !d.subscriptions[i].active;
  }

  /** After an acknowledged Subscribe, over any run that does not take the subscription away:
      the events it makes the device queue, applied to its first sample, give the current
      one with no repeats if it reports every change; with rising edges only they number the
      rises of the pin; and in a window without wrap its telemetry keeps to its rate. */
  lemma SubscriptionOverRun(b: Board, d: Dev, p: Packet, env: Env, hs: seq<Happening>) returns (i: nat)
    requires BoardOk(b) && OutputsSafe(b, d) && EnvOk(b, env) && SlotsReadable(b, d)
    requires IsCommand(p, SUBSCRIBE) && |p.payload| >= 6 && Handle(b, d, p, env).kind == ACK
    requires AllOk(b, hs) && StaysSubscribed(hs, p.payload[1], p.payload[2])
    ensures i < MAX_SUBSCRIPTIONS && OutputsSafe(b, Handle(b, d, p, env).dev)
    ensures var d2 := Handle(b, d, p, env).dev;
            var s, samples, packets := d2.subscriptions[i], SlotSamples(b, d2, hs, i), SlotQueues(b, d2, hs, i);
            && (ReportsEveryChange(s) && samples != [] ==>
                  && Latest(samples[0].value, EventValues(packets)) == samples[|samples| - 1].value
                  && NoRepeats([samples[0].value] + EventValues(packets)))
            && (s.kind == DIGITAL && OnChange(s.flags) && WantsRising(s.flags) && !WantsFalling(s.flags) ==>
                  |EventValues(packets)| == RisesSeen(s, samples))
            && (s.rateHz != 0 ==>
                  && Interval(s.rateHz) > 0
                  && forall from: nat, until: nat | from <= until && Within(samples, from, until)
                       && until + Interval(s.rateHz) < 0x1_0000_0000 ::
                       CountTelemetry(packets) <= 1 + (until - from) / Interval(s.rateHz))
  {
    hide Handle, EnvOk, DacWrites, SlotSamples, SlotQueues, SlotsReadable, ServeAll, EventValues, CountTelemetry, Interval,
         Latest, NoRepeats, RisesSeen, ReportsEveryChange, Subscriptions.Readable, StaysSubscribed, StepSafe, Within;
    i := SubscribeTakesSlot(b, d, p, env);
    HandleSafe(b, d, p, env);
    SafeAfter(b, d, Handle(b, d, p, env).dev);
    HandleKeepsSlots(b, d, p, env, i);
    var d2 := Handle(b, d, p, env).dev;
    var s, samples := d2.subscriptions[i], SlotSamples(b, d2, hs, i);
    SlotRunsAlone(b, d2, hs, i);
    SamplesReadable(b, d2, hs, i);
    AloneReports(s, samples);
  }

  lemma AloneReports(s: Subscription, samples: seq<Sample>)
    requires s.active && !s.hasLastValue && Subscriptions.Readable(s, samples)
    ensures var packets := ServeAll(s, samples).packets;
            && (ReportsEveryChange(s) && samples != [] ==>
                  && Latest(samples[0].value, EventValues(packets)) == samples[|samples| - 1].value
                  && NoRepeats([samples[0].value] + EventValues(packets)))
            && (s.kind == DIGITAL && OnChange(s.flags) && WantsRising(s.flags) && !WantsFalling(s.flags) ==>
                  |EventValues(packets)| == RisesSeen(s, samples))
            && (s.rateHz != 0 ==>
                  && Interval(s.rateHz) > 0
                  && forall from: nat, until: nat | from <= until && Within(samples, from, until)
                       && until + Interval(s.rateHz) < 0x1_0000_0000 ::
                       CountTelemetry(packets) <= 1 + (until - from) / Interval(s.rateHz))
  {
    hide ServeAll, EventValues, CountTelemetry, Interval, Latest, NoRepeats, RisesSeen, ReportsEveryChange, Subscriptions.Readable, Within;
    if ReportsEveryChange(s) && samples != [] { EventReplay(s, samples); }
    if s.kind == DIGITAL && OnChange(s.flags) && WantsRising(s.flags) && !WantsFalling(s.flags) { RisingEventsCounted(s, samples); }
    if s.rateHz != 0 {
      IntervalPositive(s.rateHz);
      forall from: nat, until: nat | from <= until && Within(samples, from, until) && until + Interval(s.rateHz) < 0x1_0000_0000
        ensures CountTelemetry(ServeAll(s, samples).packets) <= 1 + (until - from) / Interval(s.rateHz)
      {
        TelemetryRateBound(s, samples, from, until - from);
      }
    }
  }
}
