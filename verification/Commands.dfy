/** What the commands achieve across several steps of the device. */
module Commands {
  import opened Seqs
  import opened Wire
  import opened Frame
  import opened Safety
  import opened Quadrature
  import opened Subscriptions
  import opened Device
  import opened Footprint
  import opened SafeRuns

  // ---- reset ----

  /** ResetConfig puts the device back to power-up, except that the latch and watchdog, the
      digital levels and the I2C traffic are what they were. */
  lemma ResetIsPowerUp(b: Board, d: Dev, p: Packet, env: Env)
    requires BoardOk(b) && OutputsSafe(b, d) && EnvOk(b, env) && IsCommand(p, RESET_CONFIG)
    ensures Handle(b, d, p, env).dev == PowerUp(b).(watch := d.watch, level := d.level, i2c := d.i2c)
  {
    hide Blank, EnvOk, Fits;
    ZeroedSafe(b, d);
    assert Zeroed(d.duty, d.pwmConfigured) == Blank(b.numPins, 0);
  }

  // ---- outputs change only on command ----

  predicate Commanded(p: Packet, command: byte, pin: nat, index: nat, value: byte) {
    IsCommand(p, command) && |p.payload| > index >= 2 && p.payload[1] == pin && p.payload[index] == value
  }

  /** An output command that is accepted does what it says to the pin it names and leaves
      every other pin alone; it is accepted if and only if the pin can do it and, for
      anything but switching off, outputs are allowed; a disabled PWM pin is no longer
      configured. */
  lemma AcceptedExactly(b: Board, d: Dev, p: Packet, env: Env, pin: byte, v: byte)
    requires BoardOk(b) && DevOk(b, d) && EnvOk(b, env)
    ensures var r, allowed := Handle(b, d, p, env), d.watch.OutputsAllowed();
            var accepted := r.kind == ACK;
            && (Commanded(p, DIGITAL_WRITE, pin, 2, v) ==>
                  && (accepted <==> allowed && pin < b.numPins)
                  && (accepted ==> r.dev == d.(level := d.level[pin := v != 0])))
            && (Commanded(p, CONFIG_DIGITAL_OUTPUT, pin, 2, v) ==>
                  && (accepted <==> (allowed || v == 0) && pin < b.numPins)
                  && (accepted ==> r.dev == d.(level := d.level[pin := v != 0])))
            && (Commanded(p, PWM_WRITE, pin, 2, v) ==>
                  && (accepted <==> allowed && IsPwmPin(b, pin) && d.pwmConfigured[pin])
                  && (accepted ==> r.dev == d.(duty := d.duty[pin := v])))
            && (Commanded(p, CONFIG_PWM, pin, 6, v) ==>
                  && (accepted <==> (allowed || v == 0) && IsPwmPin(b, pin))
                  && (accepted ==> r.dev == d.(duty := d.duty[pin := v], pwmConfigured := d.pwmConfigured[pin := true])))
            && (IsCommand(p, PWM_DISABLE) && |p.payload| >= 2 && p.payload[1] == pin ==>
                  && (accepted <==> IsPwmPin(b, pin))
                  && (accepted ==> r.dev == d.(duty := d.duty[pin := 0], pwmConfigured := d.pwmConfigured[pin := false])))
  {
    hide System, Analog, Counter, Encoder, Subscribing, I2c, EnvOk;
  }

  // ---- outputs after any run ----

  /** What a happening says about a pin's level: only an acknowledged digital command for
      that pin says anything. */
  function LevelSaid(b: Board, d: Dev, h: Happening, pin: nat): Option<bool>
    requires BoardOk(b) && DevOk(b, d) && HappeningOk(b, h)
  {
    if h.Received? && Handle(b, d, h.packet, h.env).kind == ACK && |h.packet.payload| > 2 && h.packet.payload[1] == pin
       && (IsCommand(h.packet, DIGITAL_WRITE) || IsCommand(h.packet, CONFIG_DIGITAL_OUTPUT))
    then Some(h.packet.payload[2] != 0) else None
  }

  /** What a happening says about a pin's duty: an acknowledged PWM command for that pin
      does, and a stop, a reset and an expiring watchdog say zero. */
  function DutySaid(b: Board, d: Dev, h: Happening, pin: nat): Option<byte>
    requires BoardOk(b) && DevOk(b, d) && HappeningOk(b, h)
  {
    match h
    case Received(p, env) =>
      if IsCommand(p, EMERGENCY_STOP) || IsCommand(p, RESET_CONFIG) then Some(0)
      else if Handle(b, d, p, env).kind != ACK || |p.payload| < 2 || p.payload[1] != pin then None
      else if IsCommand(p, PWM_WRITE) && |p.payload| > 2 then Some(p.payload[2])
      else if IsCommand(p, CONFIG_PWM) && |p.payload| > 6 then Some(p.payload[6])
      else if IsCommand(p, PWM_DISABLE) then Some(0)
      else None
    case Updating(env) =>
      if d.watch.OutputsAllowed() && !d.watch.Check(Millis(env.time)).OutputsAllowed() then Some(0) else None
    case _ => None
  }

  function Else<T>(said: Option<T>, before: T): T {
    if said.Some? then said.value else before
  }

  /** The last thing said about a pin's level in a run, or what it was. */
  function LastLevel(b: Board, d: Dev, hs: seq<Happening>, pin: nat, level: bool): bool
    requires BoardOk(b) && OutputsSafe(b, d) && AllOk(b, hs)
    decreases |hs|
  {
    if hs == [] then level
    else
      StepIsSafe(b, d, hs[0]);
      LastLevel(b, Next(b, d, hs[0]), hs[1..], pin, Else(LevelSaid(b, d, hs[0], pin), level))
  }

  function LastDuty(b: Board, d: Dev, hs: seq<Happening>, pin: nat, duty: byte): byte
    requires BoardOk(b) && OutputsSafe(b, d) && AllOk(b, hs)
    decreases |hs|
  {
    if hs == [] then duty
    else
      StepIsSafe(b, d, hs[0]);
      LastDuty(b, Next(b, d, hs[0]), hs[1..], pin, Else(DutySaid(b, d, hs[0], pin), duty))
  }

  lemma StepSays(b: Board, d: Dev, h: Happening, pin: nat)
    requires BoardOk(b) && OutputsSafe(b, d) && HappeningOk(b, h) && pin < b.numPins
    ensures var d2 := Next(b, d, h);
            && OutputsSafe(b, d2)
            && d2.level[pin] == Else(LevelSaid(b, d, h, pin), d.level[pin])
            && d2.duty[pin] == Else(DutySaid(b, d, h, pin), d.duty[pin])
  {
    hide Handle, Update, EnvOk, Tick, CountEdge, PhasesOf, StepSafe, DacWrites, CheckWatchdog;
    StepIsSafe(b, d, h);
    SafeAfter(b, d, Next(b, d, h));
    match h
    case Received(p, env) => PacketSays(b, d, p, env, pin);
    case Updating(env) =>
      UpdateTouches(b, d, env);
      CheckSays(b, d, env, pin);
    case _ =>
  }

  lemma CheckSays(b: Board, d: Dev, env: Env, pin: nat)
    requires BoardOk(b) && OutputsSafe(b, d) && EnvOk(b, env) && pin < b.numPins
    ensures CheckWatchdog(b, d, env).duty[pin] == Else(DutySaid(b, d, Updating(env), pin), d.duty[pin])
  {
    hide EnvOk;
    ZeroedSafe(b, d);
  }

  lemma PacketSays(b: Board, d: Dev, p: Packet, env: Env, pin: nat)
    requires BoardOk(b) && OutputsSafe(b, d) && EnvOk(b, env) && pin < b.numPins
    ensures var d2, h := Handle(b, d, p, env).dev, Received(p, env);
            && DevOk(b, d2)
            && d2.level[pin] == Else(LevelSaid(b, d, h, pin), d.level[pin])
            && d2.duty[pin] == Else(DutySaid(b, d, h, pin), d.duty[pin])
  {
    hide Digital, Pwm, Analog, Counter, Encoder, Subscribing, I2c, System, EnvOk, DacWrites, Fits;
    if p.kind == COMMAND && p.payload != [] {
      var args, group := p.payload, p.payload[0] / 0x10;
      if IsSystem(args[0]) {
        SystemSays(b, d, args[0], env, pin);
      } else if group == 1 {
        DigitalSays(b, d, args, env, pin);
      } else if group == 2 {
        PwmSays(b, d, args, pin);
      } else if group == 3 {
        AnalogTouches(b, d, args, env);
      } else if group == 4 {
        CounterTouches(b, d, args);
      } else if group == 5 {
        EncoderTouches(b, d, args, env);
      } else if group == 6 {
        SubscribingTouches(b, d, args, env);
      } else if group == 7 {
        I2cTouches(b, d, args, env);
      }
    }
  }

  lemma SystemSays(b: Board, d: Dev, command: byte, env: Env, pin: nat)
    requires BoardOk(b) && OutputsSafe(b, d) && pin < b.numPins && IsSystem(command)
    ensures var r := System(b, d, command, env);
            && DevOk(b, r.dev) && r.dev.level == d.level
            && r.dev.duty[pin] == if command == EMERGENCY_STOP || command == RESET_CONFIG then 0 else d.duty[pin]
  {
    hide Info, Blank, Fits;
    ZeroedSafe(b, d);
    ResetOk(b, d);
  }

  lemma DigitalSays(b: Board, d: Dev, args: seq<byte>, env: Env, pin: nat)
    requires DevOk(b, d) && EnvOk(b, env) && args != [] && pin < b.numPins
    ensures var r := Digital(b, d, args, env);
            && DevOk(b, r.dev) && r.dev.duty == d.duty
            && r.dev.level[pin] == if r.kind == ACK && |args| > 2 && args[1] == pin
                                      && (args[0] == DIGITAL_WRITE || args[0] == CONFIG_DIGITAL_OUTPUT)
                                   then args[2] != 0 else d.level[pin]
  {
    hide EnvOk, Fits;
  }

  lemma PwmSays(b: Board, d: Dev, args: seq<byte>, pin: nat)
    requires BoardOk(b) && DevOk(b, d) && args != [] && pin < b.numPins
    ensures var r := Pwm(b, d, args);
            && DevOk(b, r.dev) && r.dev.level == d.level
            && r.dev.duty[pin] == if r.kind != ACK || |args| < 2 || args[1] != pin then d.duty[pin]
                                  else if args[0] == PWM_WRITE && |args| > 2 then args[2]
                                  else if args[0] == CONFIG_PWM && |args| > 6 then args[6]
                                  else if args[0] == PWM_DISABLE then 0
                                  else d.duty[pin]
  {
    hide Fits;
  }

  /** A pin's level changes only to what an accepted digital command for that very pin says,
      and its duty only to zero or to what an accepted PWM command for it says. */
  lemma OutputsFollowCommands(b: Board, d: Dev, h: Happening, pin: nat)
    requires BoardOk(b) && OutputsSafe(b, d) && HappeningOk(b, h) && pin < b.numPins
    ensures DevOk(b, Next(b, d, h))
    ensures var d2 := Next(b, d, h);
            && (d2.level[pin] != d.level[pin] ==>
                  && h.Received? && Handle(b, d, h.packet, h.env).kind == ACK
                  && exists v: byte :: d2.level[pin] == (v != 0)
                       && (Commanded(h.packet, DIGITAL_WRITE, pin, 2, v) || Commanded(h.packet, CONFIG_DIGITAL_OUTPUT, pin, 2, v)))
            && (d2.duty[pin] != d.duty[pin] && d2.duty[pin] != 0 ==>
                  && h.Received? && Handle(b, d, h.packet, h.env).kind == ACK
                  && (Commanded(h.packet, PWM_WRITE, pin, 2, d2.duty[pin]) || Commanded(h.packet, CONFIG_PWM, pin, 6, d2.duty[pin])))
  {
    hide Next, Handle, EnvOk, DacWrites, OutputsSafe;
    StepSays(b, d, h, pin);
    SafeIsOk(b, d);
    SafeIsOk(b, Next(b, d, h));
    if h.Received? && |h.packet.payload| > 2 {
      var p, v := h.packet, h.packet.payload[2];
      assert LevelSaid(b, d, h, pin).Some? ==>
               Commanded(p, DIGITAL_WRITE, pin, 2, v) || Commanded(p, CONFIG_DIGITAL_OUTPUT, pin, 2, v);
    }
  }

  /** After any run a pin's level is what the last acknowledged digital command for it said,
      and its duty what the last acknowledged PWM command for it said, or zero if a stop, a
      reset or an expiring watchdog came after. */
  lemma {:induction false} OutputsAreLastSaid(b: Board, d: Dev, hs: seq<Happening>, pin: nat)
    requires BoardOk(b) && OutputsSafe(b, d) && AllOk(b, hs) && pin < b.numPins
    ensures var d2 := Run(b, d, hs);
            && |d2.level| == |d2.duty| == b.numPins
            && d2.level[pin] == LastLevel(b, d, hs, pin, d.level[pin])
            && d2.duty[pin] == LastDuty(b, d, hs, pin, d.duty[pin])
    decreases |hs|
  {
    hide Next, HappeningOk, StepSafe, LevelSaid, DutySaid, DacWrites;
    if hs != [] {
      StepSays(b, d, hs[0], pin);
      OutputsAreLastSaid(b, Next(b, d, hs[0]), hs[1..], pin);
    }
  }

  // ---- encoders, in any run ----

  /** What changes an encoder other than an edge of it. */
  predicate DisturbsEncoder(h: Happening, id: byte) {
    h.Received? &&
    (IsCommand(h.packet, RESET_CONFIG)
     || (|h.packet.payload| >= 2 && h.packet.payload[1] == id
         && (IsCommand(h.packet, CONFIG_ENCODER) || IsCommand(h.packet, ENCODER_RESET))))
  }

  predicate EncoderUndisturbed(hs: seq<Happening>, id: byte) {
    forall i | 0 <= i < |hs| :: !DisturbsEncoder(hs[i], id)
  }

  /** What the pins are at the edges of one encoder. */
  function EncoderEdges(hs: seq<Happening>, id: byte): seq<Env> {
    if hs == [] then []
    else (if hs[0].EncoderEdge? && hs[0].id == id then [hs[0].env] else []) + EncoderEdges(hs[1..], id)
  }

  predicate EnvsOk(b: Board, envs: seq<Env>) {
    forall i | 0 <= i < |envs| :: EnvOk(b, envs[i])
  }

  lemma {:induction false} EncoderEdgesOk(b: Board, hs: seq<Happening>, id: byte)
    requires AllOk(b, hs)
    ensures EnvsOk(b, EncoderEdges(hs, id))
  {
    hide EnvOk;
    if hs != [] {
      assert HappeningOk(b, hs[0]);
      EncoderEdgesOk(b, hs[1..], id);
    }
  }

  /** At each edge the pins show the phases of a shaft position. */
  predicate Shows(b: Board, envs: seq<Env>, pinA: byte, pinB: byte, shaft: seq<int>)
    requires EnvsOk(b, envs) && pinA < b.numPins && pinB < b.numPins
  {
    |envs| == |shaft| && forall i | 0 <= i < |envs| :: PhasesOf(b, envs[i], pinA, pinB) == PhasesAt(shaft[i])
  }

  /** An undisturbed encoder changes by its own edges and by nothing else. */
  lemma EncoderLeftAlone(b: Board, d: Dev, h: Happening, id: byte)
    requires BoardOk(b) && DevOk(b, d) && HappeningOk(b, h) && id < MAX_ENCODERS && !DisturbsEncoder(h, id)
    ensures var d2, e := Next(b, d, h), d.encoders[id];
            && DevOk(b, d2)
            && d2.encoders[id] == if h.EncoderEdge? && h.id == id then Tick(e, PhasesOf(b, h.env, e.pinA, e.pinB)) else e
  {
    hide Handle, Update, EnvOk, PhasesOf, Delta, Wrap32, CheckWatchdog;
    match h
    case Received(p, env) => HandleTouches(b, d, p, env);
    case Updating(env) => UpdateTouches(b, d, env);
    case _ =>
  }

  lemma {:induction false} EdgesTick(b: Board, d: Dev, id: byte, hs: seq<Happening>, shaft: seq<int>)
    requires BoardOk(b) && OutputsSafe(b, d) && AllOk(b, hs) && id < MAX_ENCODERS && EncoderUndisturbed(hs, id)
    requires EnvsOk(b, EncoderEdges(hs, id))
    requires Shows(b, EncoderEdges(hs, id), d.encoders[id].pinA, d.encoders[id].pinB, shaft)
    ensures var d2 := Run(b, d, hs);
            |d2.encoders| == MAX_ENCODERS && d2.encoders[id] == TickAll(d.encoders[id], Samples(shaft))
    decreases |hs|
  {
    hide EnvOk, PhasesOf, PhasesAt, Delta, Wrap32, StepSafe, HappeningOk, Next, DisturbsEncoder, DacWrites;
    if hs != [] {
      var h := hs[0];
      StepIsSafe(b, d, h);
      EncoderLeftAlone(b, d, h, id);
      var next := Next(b, d, h);
      SafeAfter(b, d, next);
      var rest := EncoderEdges(hs[1..], id);
      if h.EncoderEdge? && h.id == id {
        assert EncoderEdges(hs, id)[1..] == rest;
        assert next.encoders[id] == Tick(d.encoders[id], PhasesAt(shaft[0]));
        EdgesTick(b, next, id, hs[1..], shaft[1..]);
      } else {
        assert EncoderEdges(hs, id) == rest;
        EdgesTick(b, next, id, hs[1..], shaft);
      }
    }
  }

  function ConfigEncoder(seqNo: u16, id: byte, pinA: byte, pinB: byte, mode: byte): Packet {
    Packet(COMMAND, seqNo, [CONFIG_ENCODER, id, pinA, pinB, mode])
  }

  function ResetEncoder(seqNo: u16, id: byte): Packet {
    Packet(COMMAND, seqNo, [ENCODER_RESET, id])
  }

  function ReadEncoder(seqNo: u16, id: byte): Packet {
    Packet(COMMAND, seqNo, [ENCODER_READ, id])
  }

  /** An active encoder, last sampled with the shaft at x, moves over any run that does not
      disturb it by the shaft's net displacement, and reads so. */
  lemma EncoderTracks(b: Board, d: Dev, id: byte, hs: seq<Happening>, x: int, shaft: seq<int>, env: Env, seqNo: u16)
    requires BoardOk(b) && OutputsSafe(b, d) && AllOk(b, hs) && EnvOk(b, env) && id < MAX_ENCODERS
    requires d.encoders[id].active && d.encoders[id].lastState == PhasesAt(x) && EncoderUndisturbed(hs, id)
    requires EnvsOk(b, EncoderEdges(hs, id))
    requires Shows(b, EncoderEdges(hs, id), d.encoders[id].pinA, d.encoders[id].pinB, shaft) && Smooth(x, shaft)
    ensures DevOk(b, Run(b, d, hs))
    ensures var end := Final(x, shaft);
            var e, reply := Run(b, d, hs).encoders[id], Handle(b, Run(b, d, hs), ReadEncoder(seqNo, id), env);
            && e.active && e.lastState == PhasesAt(end) && e.position == Wrap32(d.encoders[id].position + (end - x))
            && reply.kind == DATA && |reply.payload| == 4 && I32Of(reply.payload) == e.position
  {
    hide EnvOk, PhasesOf, PhasesAt, Wrap32, TickAll, Samples, Smooth, Run, EncoderEdges, Shows, Bytes32, I32Of, OutputsSafe, Handle;
    SafeIsOk(b, d);
    EdgesTick(b, d, id, hs, shaft);
    TracksShaft(d.encoders[id], x, shaft);
    var d2 := Run(b, d, hs);
    SafeIsOk(b, d2);
    ReadOutEncoder(b, d2, id, env, seqNo);
    Bytes32RoundTrip(d2.encoders[id].position);
  }

  /** How an encoder comes to stand at zero while the shaft is at x: it is configured then,
      or it is reset and was last sampled there. */
  predicate StartsEncoder(b: Board, d: Dev, p: Packet, env: Env, id: byte, pinA: byte, pinB: byte, x: int)
    requires DevOk(b, d) && EnvOk(b, env) && id < MAX_ENCODERS && pinA < b.numPins && pinB < b.numPins
  {
    var e := d.encoders[id];
    || (exists mode: byte :: p == ConfigEncoder(p.seqNo, id, pinA, pinB, mode) && PhasesOf(b, env, pinA, pinB) == PhasesAt(x))
    || (p == ResetEncoder(p.seqNo, id) && e.active && e.pinA == pinA && e.pinB == pinB && e.lastState == PhasesAt(x))
  }

  /** An encoder configured or reset while the shaft stands at x reads, after any run that
      does not disturb it and in which the shaft moves at most one index between its edges,
      as the shaft's net displacement since, whatever mode was configured and whatever else
      happened. */
  lemma EncoderReadsShaft(b: Board, d: Dev, p: Packet, start: Env, id: byte, pinA: byte, pinB: byte,
                          hs: seq<Happening>, x: int, shaft: seq<int>, env: Env, seqNo: u16)
    requires BoardOk(b) && OutputsSafe(b, d) && AllOk(b, hs) && EnvOk(b, start) && EnvOk(b, env)
    requires id < MAX_ENCODERS && pinA < b.numPins && pinB < b.numPins && StartsEncoder(b, d, p, start, id, pinA, pinB, x)
    requires EncoderUndisturbed(hs, id) && EnvsOk(b, EncoderEdges(hs, id))
    requires Shows(b, EncoderEdges(hs, id), pinA, pinB, shaft) && Smooth(x, shaft)
    ensures AllOk(b, [Received(p, start)] + hs) && DevOk(b, Run(b, d, [Received(p, start)] + hs))
    ensures var reply := Handle(b, Run(b, d, [Received(p, start)] + hs), ReadEncoder(seqNo, id), env);
            && reply.kind == DATA && |reply.payload| == 4
            && I32Of(reply.payload) == Wrap32(Final(x, shaft) - x)
  {
    hide EnvOk, PhasesOf, PhasesAt, Wrap32, I32Of, OutputsSafe, Run, Handle, EncoderEdges, Shows, Smooth, EncoderUndisturbed, StartsEncoder;
    SafeIsOk(b, d);
    RunFrom(b, d, Received(p, start), hs);
    StartedEncoder(b, d, p, start, id, pinA, pinB, x);
    var d1 := Next(b, d, Received(p, start));
    SafeIsOk(b, d1);
    EncoderTracks(b, d1, id, hs, x, shaft, env, seqNo);
  }

  lemma StartedEncoder(b: Board, d: Dev, p: Packet, env: Env, id: byte, pinA: byte, pinB: byte, x: int)
    requires BoardOk(b) && DevOk(b, d) && EnvOk(b, env)
    requires id < MAX_ENCODERS && pinA < b.numPins && pinB < b.numPins && StartsEncoder(b, d, p, env, id, pinA, pinB, x)
    ensures var e := Handle(b, d, p, env).dev.encoders;
            && |e| == MAX_ENCODERS && e[id].active && e[id].pinA == pinA && e[id].pinB == pinB
            && e[id].position == 0 && e[id].lastState == PhasesAt(x)
  {
    hide PhasesOf, PhasesAt, EnvOk, Fits;
  }

  lemma ReadOutEncoder(b: Board, d: Dev, id: byte, env: Env, seqNo: u16)
    requires BoardOk(b) && DevOk(b, d) && EnvOk(b, env) && id < MAX_ENCODERS && d.encoders[id].active
    ensures var reply := Handle(b, d, ReadEncoder(seqNo, id), env);
            reply.kind == DATA && reply.payload == Bytes32(d.encoders[id].position)
  {
    hide EnvOk, Bytes32, Fits;
  }

  // ---- counters, in any run ----

  predicate DisturbsCounter(h: Happening, id: byte) {
    h.Received? &&
    (IsCommand(h.packet, RESET_CONFIG)
     || (|h.packet.payload| >= 2 && h.packet.payload[1] == id
         && (IsCommand(h.packet, CONFIG_COUNTER) || IsCommand(h.packet, COUNTER_RESET))))
  }

  predicate CounterUndisturbed(hs: seq<Happening>, id: byte) {
    forall i | 0 <= i < |hs| :: !DisturbsCounter(hs[i], id)
  }

  function CounterEdges(hs: seq<Happening>, id: byte): nat {
    if hs == [] then 0 else (if hs[0].CounterEdge? && hs[0].id == id then 1 else 0) + CounterEdges(hs[1..], id)
  }

  lemma CounterLeftAlone(b: Board, d: Dev, h: Happening, id: byte)
    requires BoardOk(b) && DevOk(b, d) && HappeningOk(b, h) && id < MAX_COUNTERS && !DisturbsCounter(h, id)
    ensures var d2, c := Next(b, d, h), d.counters[id];
            && DevOk(b, d2)
            && d2.counters[id] == if h.CounterEdge? && h.id == id then CountEdge(c, h.micros) else c
  {
    hide Handle, Update, EnvOk, PhasesOf, Delta, Wrap32, CountEdge, CheckWatchdog;
    match h
    case Received(p, env) => HandleTouches(b, d, p, env);
    case Updating(env) => UpdateTouches(b, d, env);
    case _ =>
  }

  lemma {:induction false} EdgesCount(b: Board, d: Dev, id: byte, hs: seq<Happening>)
    requires BoardOk(b) && OutputsSafe(b, d) && AllOk(b, hs) && id < MAX_COUNTERS && d.counters[id].active
    requires CounterUndisturbed(hs, id)
    ensures var d2 := Run(b, d, hs);
            |d2.counters| == MAX_COUNTERS && d2.counters[id].active
            && d2.counters[id].count == Wrap32(d.counters[id].count + CounterEdges(hs, id))
    decreases |hs|
  {
    hide Wrap32, Cut32, StepSafe, DacWrites, Next, HappeningOk, DisturbsCounter;
    if hs == [] {
      WrapIdentity(d.counters[id].count);
    } else {
      var h := hs[0];
      StepIsSafe(b, d, h);
      CounterLeftAlone(b, d, h, id);
      var next := Next(b, d, h);
      SafeAfter(b, d, next);
      EdgesCount(b, next, id, hs[1..]);
      WrapAdds(d.counters[id].count + 1, CounterEdges(hs[1..], id));
    }
  }

  function ConfigCounter(seqNo: u16, id: byte, pin: byte, edge: byte): Packet {
    Packet(COMMAND, seqNo, [CONFIG_COUNTER, id, pin, edge])
  }

  function ResetCounter(seqNo: u16, id: byte): Packet {
    Packet(COMMAND, seqNo, [COUNTER_RESET, id])
  }

  function ReadCounter(seqNo: u16, id: byte): Packet {
    Packet(COMMAND, seqNo, [COUNTER_READ, id])
  }

  /** How a counter comes to stand at zero: it is configured, or it is active and reset. */
  predicate StartsCounter(b: Board, d: Dev, p: Packet, id: byte)
    requires DevOk(b, d) && id < MAX_COUNTERS
  {
    || (exists pin: byte, edge: byte :: pin < b.numPins && p == ConfigCounter(p.seqNo, id, pin, edge))
    || (p == ResetCounter(p.seqNo, id) && d.counters[id].active)
  }

  /** A counter reads, after any run that does not disturb it, as the number of its edges
      since it was configured or reset, in 32 bits. */
  lemma CounterReadsEdges(b: Board, d: Dev, p: Packet, start: Env, id: byte, hs: seq<Happening>, env: Env, seqNo: u16)
    requires BoardOk(b) && OutputsSafe(b, d) && AllOk(b, hs) && EnvOk(b, start) && EnvOk(b, env)
    requires id < MAX_COUNTERS && StartsCounter(b, d, p, id) && CounterUndisturbed(hs, id)
    ensures AllOk(b, [Received(p, start)] + hs) && DevOk(b, Run(b, d, [Received(p, start)] + hs))
    ensures var reply := Handle(b, Run(b, d, [Received(p, start)] + hs), ReadCounter(seqNo, id), env);
            reply.kind == DATA && |reply.payload| == 4 && I32Of(reply.payload) == Wrap32(CounterEdges(hs, id))
  {
    hide EnvOk, Wrap32, Bytes32, I32Of, OutputsSafe, Run, Handle, CounterEdges, StartsCounter, CounterUndisturbed;
    SafeIsOk(b, d);
    RunFrom(b, d, Received(p, start), hs);
    StartedCounter(b, d, p, start, id);
    var d1 := Next(b, d, Received(p, start));
    SafeIsOk(b, d1);
    EdgesCount(b, d1, id, hs);
    var d2 := Run(b, d1, hs);
    SafeIsOk(b, d2);
    ReadOutCounter(b, d2, id, env, seqNo);
    Bytes32RoundTrip(d2.counters[id].count);
  }

  lemma StartedCounter(b: Board, d: Dev, p: Packet, env: Env, id: byte)
    requires BoardOk(b) && DevOk(b, d) && EnvOk(b, env) && id < MAX_COUNTERS && StartsCounter(b, d, p, id)
    ensures var c := Handle(b, d, p, env).dev.counters;
            && |c| == MAX_COUNTERS && c[id].active && c[id].count == 0 && c[id].lastEdgeUs == 0 && c[id].periodUs == 0
  {
    hide EnvOk, Fits;
  }

  lemma ReadOutCounter(b: Board, d: Dev, id: byte, env: Env, seqNo: u16)
    requires BoardOk(b) && DevOk(b, d) && EnvOk(b, env) && id < MAX_COUNTERS && d.counters[id].active
    ensures var reply := Handle(b, d, ReadCounter(seqNo, id), env);
            reply.kind == DATA && reply.payload == Bytes32(d.counters[id].count)
  {
    hide EnvOk, Bytes32, Fits;
  }

  function EdgeTimes(hs: seq<Happening>, id: byte): seq<u32> {
    if hs == [] then [] else (if hs[0].CounterEdge? && hs[0].id == id then [hs[0].micros] else []) + EdgeTimes(hs[1..], id)
  }

  /** The time between the last two edges, in microseconds of a wrapping clock; an edge at
      clock zero is not timed from. */
  function Period(times: seq<u32>): u32 {
    var n := |times|;
    if n < 2 then 0
    else if times[n - 2] != 0 then Cut32((times[n - 1] as int) - times[n - 2])
    else Period(times[..n - 1])
  }

  function LastTime(times: seq<u32>): u32 {
    if times == [] then 0 else times[|times| - 1]
  }

  /** What an undisturbed run leaves of a counter that has seen some edges. */
  lemma {:induction false} EdgesTimed(b: Board, d: Dev, id: byte, hs: seq<Happening>, seen: seq<u32>)
    requires BoardOk(b) && OutputsSafe(b, d) && AllOk(b, hs) && id < MAX_COUNTERS && d.counters[id].active
    requires CounterUndisturbed(hs, id)
    requires d.counters[id].lastEdgeUs == LastTime(seen) && d.counters[id].periodUs == Period(seen)
    ensures var d2, times := Run(b, d, hs), seen + EdgeTimes(hs, id);
            |d2.counters| == MAX_COUNTERS && d2.counters[id].active && d2.counters[id].periodUs == Period(times)
    decreases |hs|
  {
    hide Wrap32, Cut32, StepSafe, DacWrites, Next, HappeningOk, DisturbsCounter, Period, LastTime;
    if hs == [] {
      assert seen + [] == seen;
    } else {
      var h := hs[0];
      var more := seen + if h.CounterEdge? && h.id == id then [h.micros] else [];
      EdgeTimed(b, d, h, id, seen, more);
      EdgesTimed(b, Next(b, d, h), id, hs[1..], more);
      assert more + EdgeTimes(hs[1..], id) == seen + EdgeTimes(hs, id);
    }
  }

  lemma EdgeTimed(b: Board, d: Dev, h: Happening, id: byte, seen: seq<u32>, more: seq<u32>)
    requires BoardOk(b) && OutputsSafe(b, d) && HappeningOk(b, h) && id < MAX_COUNTERS && d.counters[id].active
    requires !DisturbsCounter(h, id) && more == seen + if h.CounterEdge? && h.id == id then [h.micros] else []
    requires d.counters[id].lastEdgeUs == LastTime(seen) && d.counters[id].periodUs == Period(seen)
    ensures DevOk(b, d)
    ensures var d2 := Next(b, d, h);
            && OutputsSafe(b, d2) && d2.counters[id].active
            && d2.counters[id].lastEdgeUs == LastTime(more) && d2.counters[id].periodUs == Period(more)
  {
    hide Wrap32, Cut32, StepSafe, DacWrites, Next, HappeningOk, DisturbsCounter, Period;
    StepIsSafe(b, d, h);
    CounterLeftAlone(b, d, h, id);
    SafeAfter(b, d, Next(b, d, h));
    if h.CounterEdge? && h.id == id {
      OneMoreEdge(seen, h.micros);
    } else {
      assert more == seen;
    }
  }

  lemma OneMoreEdge(seen: seq<u32>, now: u32)
    ensures Period(seen + [now]) == if LastTime(seen) != 0 then Cut32((now as int) - LastTime(seen)) else Period(seen)
  {
    hide Cut32;
    assert (seen + [now])[..|seen|] == seen;
  }

  /** A counter's frequency, in thousandths of a hertz, is a thousand million over the
      microseconds between its last two edges since it was configured or reset, rounded
      down; it is zero before there are two. */
  lemma FrequencyOfEdges(b: Board, d: Dev, p: Packet, start: Env, id: byte, hs: seq<Happening>, env: Env, seqNo: u16)
    requires BoardOk(b) && OutputsSafe(b, d) && AllOk(b, hs) && EnvOk(b, start) && EnvOk(b, env)
    requires id < MAX_COUNTERS && StartsCounter(b, d, p, id) && CounterUndisturbed(hs, id)
    ensures AllOk(b, [Received(p, start)] + hs) && DevOk(b, Run(b, d, [Received(p, start)] + hs))
    ensures var reply := Handle(b, Run(b, d, [Received(p, start)] + hs), Packet(COMMAND, seqNo, [COUNTER_FREQUENCY, id]), env);
            && reply.kind == DATA && |reply.payload| == 4
            && var f, period := U32Of(reply.payload), Period(EdgeTimes(hs, id));
               if period == 0 then f == 0
               else f * (period as int) <= 1_000_000_000 < (f + 1) * (period as int)
  {
    hide EnvOk, Wrap32, Bytes32, U32Of, OutputsSafe, Run, Handle, EdgeTimes, StartsCounter, CounterUndisturbed, Period;
    SafeIsOk(b, d);
    RunFrom(b, d, Received(p, start), hs);
    StartedCounter(b, d, p, start, id);
    var d1 := Next(b, d, Received(p, start));
    SafeIsOk(b, d1);
    assert Period([]) == 0 by { NoPeriod(); }
    EdgesTimed(b, d1, id, hs, []);
    assert [] + EdgeTimes(hs, id) == EdgeTimes(hs, id);
    var d2 := Run(b, d1, hs);
    SafeIsOk(b, d2);
    FrequencyAnswered(b, d2, id, env, seqNo);
  }

  lemma NoPeriod()
    ensures Period([]) == 0
  {
  }

  lemma FrequencyAnswered(b: Board, d: Dev, id: byte, env: Env, seqNo: u16)
    requires BoardOk(b) && DevOk(b, d) && EnvOk(b, env) && id < MAX_COUNTERS && d.counters[id].active
    ensures var reply, period := Handle(b, d, Packet(COMMAND, seqNo, [COUNTER_FREQUENCY, id]), env), d.counters[id].periodUs;
            && reply.kind == DATA && |reply.payload| == 4
            && var f := U32Of(reply.payload);
               if period == 0 then f == 0 else f * (period as int) <= 1_000_000_000 < (f + 1) * (period as int)
  {
    hide EnvOk, Bytes32, U32Of, Handle, DevOk;
    var period := Tables(b, d, id);
    var f := FrequencyReply(b, d, id, env, seqNo);
    if period > 0 { FrequencyRounded(period, f); }
    Bytes32RoundTrip(f);
  }

  lemma Tables(b: Board, d: Dev, id: byte) returns (period: u32)
    requires DevOk(b, d) && id < MAX_COUNTERS
    ensures |d.counters| == MAX_COUNTERS && period == d.counters[id].periodUs
  {
    period := d.counters[id].periodUs;
  }

  lemma FrequencyReply(b: Board, d: Dev, id: byte, env: Env, seqNo: u16) returns (f: nat)
    requires BoardOk(b) && DevOk(b, d) && EnvOk(b, env) && id < MAX_COUNTERS && d.counters[id].active
    ensures var reply, period := Handle(b, d, Packet(COMMAND, seqNo, [COUNTER_FREQUENCY, id]), env), d.counters[id].periodUs;
            && reply.kind == DATA && reply.payload == Bytes32(f) && f == if period == 0 then 0 else 1_000_000_000 / period
    ensures f <= 1_000_000_000
  {
    hide EnvOk, Bytes32, Fits;
    var period := d.counters[id].periodUs;
    f := if period == 0 then 0 else 1_000_000_000 / period;
    if period > 0 { FrequencyRounded(period, f); }
  }

  lemma FrequencyRounded(period: u32, f: nat)
    requires period > 0 && f == 1_000_000_000 / period
    ensures f <= 1_000_000_000 && f * (period as int) <= 1_000_000_000 < (f + 1) * (period as int)
  {
    Rounded(1_000_000_000, period);
    Grows(1, period, 1_000_000_000);
    QuotientBound(1_000_000_000, 1_000_000_000, period);
  }

  // ---- subscriptions ----

  /** After Unsubscribe no slot serves that resource, and slots of other resources are as
      they were; so after Subscribe and then Unsubscribe none does. */
  lemma UnsubscribeRemoves(b: Board, d: Dev, p: Packet, env: Env)
    requires BoardOk(b) && DevOk(b, d) && EnvOk(b, env) && IsCommand(p, UNSUBSCRIBE) && |p.payload| >= 3
    ensures var d2 := Handle(b, d, p, env).dev;
            && |d2.subscriptions| == MAX_SUBSCRIPTIONS
            && forall i | 0 <= i < MAX_SUBSCRIPTIONS ::
                 var s, s2 := d.subscriptions[i], d2.subscriptions[i];
                 && !(s2.active && s2.kind == p.payload[1] && s2.id == p.payload[2])
                 && (s.kind != p.payload[1] || s.id != p.payload[2] || !s.active ==> s2 == s)
  {
    hide Without, EnvOk, Fits;
  }
}
