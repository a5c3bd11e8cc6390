/** What emergency stop and watchdog guarantee over whole runs of the firmware. */
module SafeRuns {
  import opened Wire
  import opened Frame
  import opened Safety
  import opened Quadrature
  import opened Subscriptions
  import opened Device
  import opened Footprint

  // ---- one step ----

  /** Everything the firmware does between two looks at it: handle a packet, run update(),
      or serve a counter or encoder interrupt. */
  datatype Happening =
    | Received(packet: Packet, env: Env)
    | Updating(env: Env)
    | CounterEdge(id: byte, micros: u32)
    | EncoderEdge(id: byte, env: Env)

  predicate HappeningOk(b: Board, h: Happening) {
    match h
    case Received(_, env) => EnvOk(b, env)
    case Updating(env) => EnvOk(b, env)
    case CounterEdge(_, _) => true
    case EncoderEdge(_, env) => EnvOk(b, env)
  }

  function CountEdge(c: CounterSlot, now: u32): CounterSlot {
    if !c.active then c
    else c.(count := Wrap32(c.count + 1), lastEdgeUs := now,
            periodUs := if c.lastEdgeUs != 0 then Cut32(now - c.lastEdgeUs) else c.periodUs)
  }

  function Next(b: Board, d: Dev, h: Happening): Dev
    requires BoardOk(b) && DevOk(b, d) && HappeningOk(b, h)
  {
    match h
    case Received(p, env) => Handle(b, d, p, env).dev
    case Updating(env) => Update(b, d, env)
    case CounterEdge(id, now) =>
      if id >= MAX_COUNTERS then d else d.(counters := d.counters[id := CountEdge(d.counters[id], now)])
    case EncoderEdge(id, env) =>
      if id >= MAX_ENCODERS || !d.encoders[id].active then d
      else d.(encoders := d.encoders[id :=
                Tick(d.encoders[id], PhasesOf(b, env, d.encoders[id].pinA, d.encoders[id].pinB))])
  }

  // ---- the invariant ----

  predicate AllZero(duty: seq<byte>) {
    forall p | 0 <= p < |duty| :: duty[p] == 0
  }

  /** A running PWM output is a configured one, and none runs while outputs are blocked. */
  predicate OutputsSafe(b: Board, d: Dev) {
    && DevOk(b, d)
    && (d.watch.expired ==> d.watch.stop)
    && (forall p | 0 <= p < b.numPins && d.duty[p] != 0 :: d.pwmConfigured[p])
    && (!d.watch.OutputsAllowed() ==> AllZero(d.duty))
  }

  /** The writes to DACs among the I2C traffic. */
  function DacWrites(i2c: seq<Transmission>): seq<Transmission> {
    if i2c == [] then []
    else DacWrites(i2c[..|i2c| - 1]) + (if i2c[|i2c| - 1].DacWrite? then [i2c[|i2c| - 1]] else [])
  }

  lemma DacWritesGrow(i2c: seq<Transmission>, t: Transmission)
    ensures DacWrites(i2c + [t]) == DacWrites(i2c) + if t.DacWrite? then [t] else []
  {
    assert (i2c + [t])[..|i2c|] == i2c;
  }

  /** Nothing was energised: no duty raised, no pin driven from low to high, no DAC code
      transmitted. */
  predicate NothingEnergised(d: Dev, d2: Dev) {
    && |d2.duty| == |d.duty| && |d2.level| == |d.level|
    && (forall p | 0 <= p < |d.duty| :: d2.duty[p] <= d.duty[p])
    && (forall p | 0 <= p < |d.level| :: d2.level[p] ==> d.level[p])
    && DacWrites(d2.i2c) == DacWrites(d.i2c)
  }

  /** What every step must keep. */
  predicate StepSafe(b: Board, d: Dev, d2: Dev) {
    && OutputsSafe(b, d2)
    && (d.watch.stop && d2.watch.stop ==> NothingEnergised(d, d2))
  }

  lemma ZeroedSafe(b: Board, d: Dev)
    requires OutputsSafe(b, d)
    ensures AllZero(Zeroed(d.duty, d.pwmConfigured))
  {
  }

  /** Outputs, latch and traffic are as they were. */
  predicate OutputsUntouched(d: Dev, d2: Dev) {
    && d2.duty == d.duty && d2.level == d.level && d2.pwmConfigured == d.pwmConfigured
    && d2.watch == d.watch && d2.i2c == d.i2c
  }

  lemma UntouchedSafe(b: Board, d: Dev, d2: Dev)
    requires OutputsSafe(b, d) && DevOk(b, d2) && OutputsUntouched(d, d2)
    ensures StepSafe(b, d, d2)
  {
    hide DacWrites;
  }

  lemma SystemSafe(b: Board, d: Dev, command: byte, env: Env)
    requires BoardOk(b) && OutputsSafe(b, d)
    ensures var d2 := System(b, d, command, env).dev;
            && StepSafe(b, d, d2)
            && (command == EMERGENCY_STOP ==> d2.watch.stop && AllZero(d2.duty))
            && (command != CLEAR_EMERGENCY_STOP && d.watch.stop ==> d2.watch.stop)
  {
    hide Info, DacWrites, Reset, SafeOutputs, StepSafe, OutputsSafe, Fits;
    if command == RESET_CONFIG {
      ResetSafe(b, d);
    } else if command == EMERGENCY_STOP {
      StopSafe(b, d);
    } else {
      SafeIsOk(b, d);
      WatchSafe(b, d, System(b, d, command, env).dev.watch, Millis(env.time));
    }
  }

  lemma ResetSafe(b: Board, d: Dev)
    requires BoardOk(b) && OutputsSafe(b, d)
    ensures DevOk(b, d) && StepSafe(b, d, Reset(b, d)) && Reset(b, d).watch == d.watch
  {
    hide DacWrites;
    ZeroedSafe(b, d);
  }

  lemma StopSafe(b: Board, d: Dev)
    requires OutputsSafe(b, d)
    ensures DevOk(b, d)
    ensures var d2 := SafeOutputs(b, d).(watch := d.watch.Latch()); StepSafe(b, d, d2) && d2.watch.stop && AllZero(d2.duty)
  {
    hide DacWrites;
    ZeroedSafe(b, d);
  }

  /** Neither a heartbeat nor a clear blocks outputs, and the duties stay. */
  lemma WatchSafe(b: Board, d: Dev, watch: Watch, now: u32)
    requires OutputsSafe(b, d) && watch in {d.watch, d.watch.Beat(now), d.watch.Clear(now)}
    ensures StepSafe(b, d, d.(watch := watch))
  {
    hide DacWrites;
  }

  lemma DigitalSafe(b: Board, d: Dev, args: seq<byte>, env: Env)
    requires OutputsSafe(b, d) && EnvOk(b, env) && args != []
    ensures StepSafe(b, d, Digital(b, d, args, env).dev)
    ensures Digital(b, d, args, env).dev.watch == d.watch
  {
    hide DacWrites, EnvOk;
  }

  lemma PwmSafe(b: Board, d: Dev, args: seq<byte>)
    requires BoardOk(b) && OutputsSafe(b, d) && args != []
    ensures StepSafe(b, d, Pwm(b, d, args).dev)
    ensures Pwm(b, d, args).dev.watch == d.watch
  {
    hide DacWrites;
  }

  lemma DacWriteSafe(b: Board, d: Dev, id: byte, channel: byte, value: u16, env: Env)
    requires OutputsSafe(b, d) && d.watch.OutputsAllowed()
    ensures var d2 := WriteDacRaw(b, d, id, channel, value, env).0;
            StepSafe(b, d, d2) && d2.watch == d.watch
  {
    hide DacWrites, MaxCode, DacBytes;
  }

  lemma RawWriteSafe(b: Board, d: Dev, t: Transmission)
    requires OutputsSafe(b, d) && t.RawWrite?
    ensures StepSafe(b, d, d.(i2c := d.i2c + [t]))
  {
    DacWritesGrow(d.i2c, t);
  }

  lemma I2cSafe(b: Board, d: Dev, args: seq<byte>, env: Env)
    requires OutputsSafe(b, d) && EnvOk(b, env) && args != []
    ensures StepSafe(b, d, I2c(b, d, args, env).dev)
    ensures I2c(b, d, args, env).dev.watch == d.watch
  {
    hide StepSafe, DacWrites, NormalizedCode, MaxCode, WriteDacRaw, EnvOk;
    UntouchedSafe(b, d, d);
    var r := I2c(b, d, args, env);
    if args[0] == I2C_WRITE && |args| >= 4 && |args| >= 4 + (args[3] as int) {
      RawWriteSafe(b, d, RawWrite(args[1], args[2], args[4..4 + (args[3] as int)]));
    } else if args[0] == DAC_WRITE_RAW && |args| >= 5 && d.watch.OutputsAllowed() {
      DacWriteSafe(b, d, args[1], args[2], U16(args[3], args[4]), env);
    } else if args[0] == DAC_WRITE_NORMALIZED && |args| >= 5 && d.watch.OutputsAllowed() && args[1] < MAX_DACS {
      DacWriteSafe(b, d, args[1], args[2],
                   NormalizedCode(U16(args[3], args[4]), MaxCode(d.dacs[args[1]].resolutionBits)), env);
    } else {
      assert OutputsUntouched(d, r.dev);
      UntouchedSafe(b, d, r.dev);
    }
  }

  lemma HandleSafe(b: Board, d: Dev, p: Packet, env: Env)
    requires BoardOk(b) && OutputsSafe(b, d) && EnvOk(b, env)
    ensures var d2 := Handle(b, d, p, env).dev;
            && StepSafe(b, d, d2)
            && (d.watch.stop && !IsCommand(p, CLEAR_EMERGENCY_STOP) ==> d2.watch.stop)
            && (IsCommand(p, EMERGENCY_STOP) ==> d2.watch.stop)
  {
    hide System, Digital, Pwm, Analog, Counter, Encoder, Subscribing, I2c, StepSafe, EnvOk;
    UntouchedSafe(b, d, d);
    if p.kind == COMMAND && p.payload != [] {
      SystemSafe(b, d, p.payload[0], env);
      DigitalSafe(b, d, p.payload, env);
      PwmSafe(b, d, p.payload);
      AnalogTouches(b, d, p.payload, env);
      UntouchedSafe(b, d, Analog(b, d, p.payload, env).dev);
      CounterTouches(b, d, p.payload);
      UntouchedSafe(b, d, Counter(b, d, p.payload).dev);
      EncoderTouches(b, d, p.payload, env);
      UntouchedSafe(b, d, Encoder(b, d, p.payload, env).dev);
      SubscribingTouches(b, d, p.payload, env);
      UntouchedSafe(b, d, Subscribing(b, d, p.payload, env).dev);
      I2cSafe(b, d, p.payload, env);
    }
  }

  lemma CheckSafe(b: Board, d: Dev, env: Env)
    requires OutputsSafe(b, d)
    ensures var d2 := CheckWatchdog(b, d, env);
            && StepSafe(b, d, d2)
            && d2.watch == d.watch.Check(Millis(env.time))
            && (d.watch.stop ==> d2.watch.stop)
  {
    hide DacWrites;
    ZeroedSafe(b, d);
  }

  lemma UpdateSafe(b: Board, d: Dev, env: Env)
    requires OutputsSafe(b, d) && EnvOk(b, env)
    ensures var d2 := Update(b, d, env);
            && StepSafe(b, d, d2)
            && d2.watch == d.watch.Check(Millis(env.time))
            && (d.watch.stop ==> d2.watch.stop)
  {
    hide DacWrites, CheckWatchdog, Update, DevOk;
    CheckSafe(b, d, env);
    UpdateTouches(b, d, env);
    assert Update(b, d, env).duty == CheckWatchdog(b, d, env).duty;
  }

  lemma StepIsSafe(b: Board, d: Dev, h: Happening)
    requires BoardOk(b) && OutputsSafe(b, d) && HappeningOk(b, h)
    ensures var d2 := Next(b, d, h);
            && StepSafe(b, d, d2)
            && (d.watch.stop && !(h.Received? && IsCommand(h.packet, CLEAR_EMERGENCY_STOP)) ==> d2.watch.stop)
  {
    hide StepSafe, Handle, Update, OutputsSafe, EnvOk, Delta, Wrap32, CountEdge, PhasesOf;
    match h
    case Received(p, env) => HandleSafe(b, d, p, env);
    case Updating(env) => UpdateSafe(b, d, env);
    case CounterEdge(_, _) =>
      assert DevOk(b, d) by { SafeIsOk(b, d); }
      UntouchedSafe(b, d, Next(b, d, h));
    case EncoderEdge(_, _) =>
      assert DevOk(b, d) by { SafeIsOk(b, d); }
      UntouchedSafe(b, d, Next(b, d, h));
  }

  lemma SafeIsOk(b: Board, d: Dev)
    requires OutputsSafe(b, d)
    ensures DevOk(b, d)
  {
  }

  // ---- runs ----

  predicate AllOk(b: Board, hs: seq<Happening>) {
    forall i | 0 <= i < |hs| :: HappeningOk(b, hs[i])
  }

  /** The device after a run. */
  function Run(b: Board, d: Dev, hs: seq<Happening>): (r: Dev)
    requires BoardOk(b) && OutputsSafe(b, d) && AllOk(b, hs)
    ensures OutputsSafe(b, r)
    decreases |hs|
  {
    if hs == [] then d
    else
      StepIsSafe(b, d, hs[0]);
      Run(b, Next(b, d, hs[0]), hs[1..])
  }

  /** A run that begins with one happening. */
  lemma RunFrom(b: Board, d: Dev, h: Happening, hs: seq<Happening>)
    requires BoardOk(b) && OutputsSafe(b, d) && HappeningOk(b, h) && AllOk(b, hs)
    ensures AllOk(b, [h] + hs) && OutputsSafe(b, Next(b, d, h))
    ensures Run(b, d, [h] + hs) == Run(b, Next(b, d, h), hs)
    ensures DevOk(b, Run(b, d, [h] + hs))
  {
    hide Next, StepSafe, OutputsSafe, DevOk, HappeningOk;
    SafeIsOk(b, d);
    StepIsSafe(b, d, h);
    SafeAfter(b, d, Next(b, d, h));
    assert ([h] + hs)[1..] == hs;
    SafeIsOk(b, Run(b, d, [h] + hs));
  }

  lemma {:induction false} RunJoins(b: Board, d: Dev, hs: seq<Happening>, later: seq<Happening>)
    requires BoardOk(b) && OutputsSafe(b, d) && AllOk(b, hs) && AllOk(b, later)
    ensures AllOk(b, hs + later) && Run(b, d, hs + later) == Run(b, Run(b, d, hs), later)
    decreases |hs|
  {
    hide OutputsSafe, HappeningOk, Next, StepSafe, DevOk;
    if hs == [] {
      assert hs + later == later;
    } else {
      StepIsSafe(b, d, hs[0]);
      SafeIsOk(b, d);
      SafeAfter(b, d, Next(b, d, hs[0]));
      assert (hs + later)[0] == hs[0] && (hs + later)[1..] == hs[1..] + later;
      RunJoins(b, Next(b, d, hs[0]), hs[1..], later);
    }
  }

  /** The device at power-up. */
  function PowerUp(b: Board): (d: Dev)
    requires BoardOk(b)
    ensures OutputsSafe(b, d)
  {
    Dev(BOOT, Blank(b.numPins, false), Blank(b.numPins, false), Blank(b.numPins, 0),
        Blank(MAX_SUBSCRIPTIONS, NO_SUBSCRIPTION), Blank(MAX_I2C_BUSES, false), Blank(MAX_DACS, NO_DAC),
        Blank(MAX_COUNTERS, NO_COUNTER), Blank(MAX_ENCODERS, NO_ENCODER), [],
        Blank(b.numPins, 0), Blank(b.numPins, false), [])
  }

  /** In every reachable state a nonzero PWM duty is on a configured pin, and while outputs
      are not allowed every duty is zero. */
  lemma ReachableOutputsSafe(b: Board, hs: seq<Happening>, pin: nat)
    requires BoardOk(b) && AllOk(b, hs) && pin < b.numPins
    ensures var d := Run(b, PowerUp(b), hs);
            && |d.duty| == |d.pwmConfigured| == b.numPins
            && (d.duty[pin] != 0 ==> d.pwmConfigured[pin] && d.watch.OutputsAllowed())
            && (d.watch.expired ==> d.watch.stop)
  {
    hide Run, PowerUp;
  }

  predicate NoClear(hs: seq<Happening>) {
    forall i | 0 <= i < |hs| :: !(hs[i].Received? && IsCommand(hs[i].packet, CLEAR_EMERGENCY_STOP))
  }

  /** From the moment the stop is latched until a clear command is handled, whatever
      packets, updates and interrupts come, the stop stays latched, every PWM duty is zero,
      no pin goes from low to high and no DAC code is sent. */
  lemma {:induction false} StopHolds(b: Board, d: Dev, hs: seq<Happening>)
    requires BoardOk(b) && OutputsSafe(b, d) && AllOk(b, hs)
    requires d.watch.stop && NoClear(hs)
    ensures var d2 := Run(b, d, hs);
            d2.watch.stop && AllZero(d2.duty) && NothingEnergised(d, d2)
    decreases |hs|
  {
    hide Next, HappeningOk, IsCommand, DacWrites, DevOk;
    if hs != [] {
      var next := Next(b, d, hs[0]);
      StepIsSafe(b, d, hs[0]);
      assert NoClear(hs[1..]);
      StopHolds(b, next, hs[1..]);
    }
  }

  /** Once a stop packet was received at m, every duty is zero and nothing is energised, for
      as long as no clear command is received. */
  lemma StoppedSince(b: Board, hs: seq<Happening>, m: nat, e: nat)
    requires BoardOk(b) && AllOk(b, hs) && m < e <= |hs|
    requires hs[m].Received? && IsCommand(hs[m].packet, EMERGENCY_STOP) && NoClear(hs[m + 1..e])
    ensures AllOk(b, hs[..m + 1]) && AllOk(b, hs[..e])
    ensures var d, d2 := Run(b, PowerUp(b), hs[..m + 1]), Run(b, PowerUp(b), hs[..e]);
            d2.watch.stop && AllZero(d2.duty) && NothingEnergised(d, d2)
  {
    hide Run, PowerUp, OutputsSafe, HappeningOk, NoClear, IsCommand, NothingEnergised, AllZero;
    var before, rest := hs[..m], hs[m + 1..e];
    var d := Run(b, PowerUp(b), before);
    assert HappeningOk(b, hs[m]);
    assert hs[..m + 1] == before + [hs[m]] && hs[..e] == hs[..m + 1] + rest;
    RunJoins(b, PowerUp(b), before, [hs[m]]);
    RunJoins(b, PowerUp(b), hs[..m + 1], rest);
    StopIsNext(b, d, hs[m]);
    StopHolds(b, Run(b, d, [hs[m]]), rest);
  }

  lemma StopIsNext(b: Board, d: Dev, h: Happening)
    requires BoardOk(b) && OutputsSafe(b, d) && HappeningOk(b, h) && h.Received? && IsCommand(h.packet, EMERGENCY_STOP)
    ensures AllOk(b, [h]) && Run(b, d, [h]).watch.stop
  {
    hide Handle, EnvOk, OutputsSafe, DevOk;
    SafeIsOk(b, d);
    RunFrom(b, d, h, []);
    assert [h] + [] == [h];
    StopTakesEffect(b, d, h.packet, h.env);
  }

  /** An emergency-stop packet latches the stop and zeroes every duty at once. */
  lemma StopTakesEffect(b: Board, d: Dev, p: Packet, env: Env)
    requires BoardOk(b) && OutputsSafe(b, d) && EnvOk(b, env) && IsCommand(p, EMERGENCY_STOP)
    ensures var d2 := Handle(b, d, p, env).dev; d2.watch.stop && AllZero(d2.duty) && OutputsSafe(b, d2)
  {
    hide Handle, EnvOk, DevOk, DacWrites;
    HandleSafe(b, d, p, env);
  }

  // ---- the watchdog over runs ----

  /** What a happening means to the watchdog. */
  function EventOf(h: Happening): Safety.Event {
    match h
    case Received(p, env) =>
      if IsCommand(p, HEARTBEAT) then Safety.Heartbeat(env.time)
      else if IsCommand(p, EMERGENCY_STOP) then Safety.Stop
      else if IsCommand(p, CLEAR_EMERGENCY_STOP) then Safety.ClearStop(env.time)
      else Safety.Other
    case Updating(env) => Safety.Checking(env.time)
    case _ => Safety.Other
  }

  function EventsOf(hs: seq<Happening>): seq<Safety.Event> {
    if hs == [] then [] else [EventOf(hs[0])] + EventsOf(hs[1..])
  }

  lemma HandleWatch(b: Board, d: Dev, p: Packet, env: Env)
    requires BoardOk(b) && OutputsSafe(b, d) && EnvOk(b, env)
    ensures Handle(b, d, p, env).dev.watch == After(Timed(d.watch, 0, 0), EventOf(Received(p, env))).watch
  {
    hide Digital, Pwm, Analog, Counter, Encoder, Subscribing, I2c, StepSafe, EnvOk, SafeOutputs, Info, Reset;
    if p.kind == COMMAND && p.payload != [] {
      DigitalSafe(b, d, p.payload, env);
      PwmSafe(b, d, p.payload);
      AnalogTouches(b, d, p.payload, env);
      CounterTouches(b, d, p.payload);
      EncoderTouches(b, d, p.payload, env);
      SubscribingTouches(b, d, p.payload, env);
      I2cSafe(b, d, p.payload, env);
      assert Reset(b, d).watch == d.watch by { ResetWatch(b, d); }
    }
  }

  lemma ResetWatch(b: Board, d: Dev)
    requires DevOk(b, d)
    ensures Reset(b, d).watch == d.watch && SafeOutputs(b, d).watch == d.watch
  {
  }

  lemma SafeAfter(b: Board, d: Dev, d2: Dev)
    requires StepSafe(b, d, d2)
    ensures OutputsSafe(b, d2)
  {
  }

  lemma {:induction false} RunWatch(b: Board, d: Dev, hs: seq<Happening>, s: Timed)
    requires BoardOk(b) && OutputsSafe(b, d) && AllOk(b, hs) && s.watch == d.watch
    ensures Run(b, d, hs).watch == AfterAll(s, EventsOf(hs)).watch
    decreases |hs|
  {
    hide Handle, Update, DevOk, EnvOk, IsCommand, StepSafe, OutputsSafe;
    if hs != [] {
      var h := hs[0];
      StepIsSafe(b, d, h);
      assert DevOk(b, d) by { SafeIsOk(b, d); }
      if h.Received? {
        HandleWatch(b, d, h.packet, h.env);
      } else if h.Updating? {
        UpdateSafe(b, d, h.env);
      }
      assert OutputsSafe(b, Next(b, d, h)) by { StepIsSafe(b, d, h); SafeAfter(b, d, Next(b, d, h)); }
      RunWatch(b, Next(b, d, h), hs[1..], After(s, EventOf(h)));
    }
  }

  /** In any run from power-up in which time is kept (updates at most 2^32 - 301 ms apart),
      an update that finds the last heartbeat, clear or boot more than 300 ms old leaves
      every PWM duty at zero and outputs blocked. */
  lemma OverdueHeartbeatStops(b: Board, hs: seq<Happening>, env: Env)
    requires BoardOk(b) && AllOk(b, hs) && EnvOk(b, env)
    requires TimelyRun(Timed(BOOT, 0, 0), EventsOf(hs))
    requires var s := AfterAll(Timed(BOOT, 0, 0), EventsOf(hs));
             Timely(s, Safety.Checking(env.time)) && env.time - s.beatAt > s.watch.timeout
    ensures var d := Update(b, Run(b, PowerUp(b), hs), env);
            !d.watch.OutputsAllowed() && AllZero(d.duty)
  {
    hide Run, Update, TimelyRun, AfterAll, Timely, DevOk, EnvOk, DacWrites;
    var d := Run(b, PowerUp(b), hs);
    assert PowerUp(b).watch == BOOT;
    RunWatch(b, PowerUp(b), hs, Timed(BOOT, 0, 0));
    WatchdogHolds(EventsOf(hs), env.time);
    UpdateSafe(b, d, env);
  }

  // ---- which commands the stop rejects ----

  /** The commands that would energise an output. */
  predicate Energises(args: seq<byte>) {
    || (|args| >= 3 && args[0] == DIGITAL_WRITE)
    || (|args| >= 3 && args[0] == CONFIG_DIGITAL_OUTPUT && args[2] != 0)
    || (|args| >= 3 && args[0] == PWM_WRITE)
    || (|args| >= 7 && args[0] == CONFIG_PWM && args[6] > 0)
    || (|args| >= 5 && (args[0] == DAC_WRITE_RAW || args[0] == DAC_WRITE_NORMALIZED))
  }

  /** A packet is rejected with EmergencyStopActive if and only if outputs are blocked and it
      is a well-formed command of those; nothing changes then. */
  lemma RejectedExactly(b: Board, d: Dev, p: Packet, env: Env)
    requires BoardOk(b) && DevOk(b, d) && EnvOk(b, env)
    ensures var r := Handle(b, d, p, env);
            && (r.kind == NACK && r.payload == [EMERGENCY_STOP_ACTIVE] <==>
                !d.watch.OutputsAllowed() && p.kind == COMMAND && Energises(p.payload))
            && (r.kind == NACK && r.payload == [EMERGENCY_STOP_ACTIVE] ==> r.dev == d)
  {
    hide Analog, Counter, Encoder, Subscribing, I2c, Digital, Pwm, System, EnvOk, DevOk;
    if p.kind == COMMAND && p.payload != [] {
      var args := p.payload;
      SystemNeverRejects(b, d, args[0], env);
      DigitalRejects(b, d, args, env);
      PwmRejects(b, d, args);
      TablesNeverReject(b, d, args, env);
      I2cRejects(b, d, args, env);
    }
  }

  predicate Rejection(r: Reply) {
    r.kind == NACK && r.payload == [EMERGENCY_STOP_ACTIVE]
  }

  lemma SystemNeverRejects(b: Board, d: Dev, command: byte, env: Env)
    requires BoardOk(b) && DevOk(b, d)
    ensures !Rejection(System(b, d, command, env))
  {
    hide Info, Reset;
  }

  lemma DigitalRejects(b: Board, d: Dev, args: seq<byte>, env: Env)
    requires DevOk(b, d) && EnvOk(b, env) && args != []
    ensures var r := Digital(b, d, args, env);
            && (Rejection(r) <==> !d.watch.OutputsAllowed() && Energises(args)
                                  && (args[0] == DIGITAL_WRITE || args[0] == CONFIG_DIGITAL_OUTPUT))
            && (Rejection(r) ==> r.dev == d)
  {
  }

  lemma PwmRejects(b: Board, d: Dev, args: seq<byte>)
    requires BoardOk(b) && DevOk(b, d) && args != []
    ensures var r := Pwm(b, d, args);
            && (Rejection(r) <==> !d.watch.OutputsAllowed() && Energises(args)
                                  && (args[0] == PWM_WRITE || args[0] == CONFIG_PWM))
            && (Rejection(r) ==> r.dev == d)
  {
  }

  lemma TablesNeverReject(b: Board, d: Dev, args: seq<byte>, env: Env)
    requires DevOk(b, d) && EnvOk(b, env) && args != []
    ensures !Rejection(Analog(b, d, args, env)) && !Rejection(Counter(b, d, args))
    ensures !Rejection(Encoder(b, d, args, env)) && !Rejection(Subscribing(b, d, args, env))
  {
    hide Average, ReadResource, Bytes32;
  }

  lemma I2cRejects(b: Board, d: Dev, args: seq<byte>, env: Env)
    requires DevOk(b, d) && EnvOk(b, env) && args != []
    ensures var r := I2c(b, d, args, env);
            && (Rejection(r) <==> !d.watch.OutputsAllowed() && Energises(args)
                                  && (args[0] == DAC_WRITE_RAW || args[0] == DAC_WRITE_NORMALIZED))
            && (Rejection(r) ==> r.dev == d)
  {
    hide WriteDacRaw, NormalizedCode, MaxCode;
  }
}
