/** What the commands that read answer, and that subscriptions sample the same. */
module Readings {
  import opened Seqs
  import opened Wire
  import opened Frame
  import opened Safety
  import opened Quadrature
  import opened Subscriptions
  import opened Device
  import opened Footprint
  import opened SafeRuns
  import SlotRuns

  function Ask(seqNo: u16, args: seq<byte>): Packet {
    Packet(COMMAND, seqNo, args)
  }

  // ---- readings and answers ----

  /** The command that reads a resource. */
  function ReadCommand(kind: byte): byte {
    if kind == DIGITAL then DIGITAL_READ
    else if kind == ANALOG then ANALOG_READ
    else if kind == COUNTER then COUNTER_READ
    else ENCODER_READ
  }

  /** The value in a reply to it. */
  function Told(kind: byte, payload: seq<byte>): Option<i32> {
    if kind == DIGITAL && |payload| == 1 then Some(payload[0])
    else if kind == ANALOG && |payload| == 4 then Some(U16(payload[0], payload[1]))
    else if (kind == COUNTER || kind == ENCODER) && |payload| == 4 then Some(I32Of(payload))
    else None
  }

  /** A digital pin, an analog pin, a counter or an encoder is sampled as what the command
      that reads it answers in the same state; where there is nothing to sample, the command
      is rejected. A digital pin reads one exactly if it is high. */
  lemma SampledAsAnswered(b: Board, d: Dev, kind: byte, id: byte, env: Env, seqNo: u16)
    requires BoardOk(b) && DevOk(b, d) && EnvOk(b, env) && DIGITAL <= kind <= ENCODER
    ensures var value, r := ReadResource(b, d, kind, id, env), Handle(b, d, Ask(seqNo, [ReadCommand(kind), id]), env);
            && (value.Some? ==> r.kind == DATA && Told(kind, r.payload) == value)
            && (value.None? ==> r.kind == NACK)
            && r.dev == d
    ensures kind == DIGITAL && id < b.numPins ==> ReadResource(b, d, kind, id, env) == Some(if env.high[id] then 1 else 0)
  {
    hide EnvOk, Fits, Bytes32, I32Of, Average;
    if kind == ANALOG && id < b.numPins && d.analogConfigured[id] {
      AverageBound(b, d, id, env);
      var raw := Average(b, d, id, env);
      WordBack(raw);
    }
    if kind == COUNTER && id < MAX_COUNTERS { Bytes32RoundTrip(d.counters[id].count); }
    if kind == ENCODER && id < MAX_ENCODERS { Bytes32RoundTrip(d.encoders[id].position); }
  }

  lemma WordBack(x: u16)
    ensures U16(Lo(x), Hi(x)) == x
  {
  }

  // ---- the mean of conversions ----

  /** q is total over n, rounded down. */
  predicate IsQuotient(q: nat, total: nat, n: nat) {
    q * n <= total < (q + 1) * n
  }

  function Total(results: seq<nat>): nat {
    if results == [] then 0 else results[0] + Total(results[1..])
  }

  lemma {:induction false} TotalIsSum(results: seq<nat>)
    ensures Total(results) == Sum(results)
    decreases |results|
  {
    if results != [] {
      TotalSplits(results, |results| - 1);
      TotalIsSum(results[..|results| - 1]);
    }
  }

  lemma {:induction false} TotalSplits(results: seq<nat>, n: nat)
    requires n < |results| && n == |results| - 1
    ensures Total(results) == Total(results[..n]) + results[n]
  {
    if n == 0 {
      assert results[1..] == [] && results[..0] == [];
    } else {
      assert results[1..][..n - 1] == results[..n][1..];
      TotalSplits(results[1..], n - 1);
    }
  }

  /** An analog pin configured for n samples, none counting as one, answers the mean of that
      many conversions, rounded down, and its share of full scale in ten-thousandths. */
  lemma AnalogMeans(b: Board, d: Dev, config: Packet, env: Env, env2: Env, seqNo: u16)
    requires BoardOk(b) && DevOk(b, d) && EnvOk(b, env) && EnvOk(b, env2)
    requires IsCommand(config, CONFIG_ANALOG) && |config.payload| >= 3 && config.payload[1] < b.numPins
    ensures Handle(b, d, config, env).kind == ACK && DevOk(b, Handle(b, d, config, env).dev)
    ensures var pin, n := config.payload[1], if config.payload[2] == 0 then 1 else config.payload[2];
            var r := Handle(b, Handle(b, d, config, env).dev, Ask(seqNo, [ANALOG_READ, pin]), env2);
            && r.kind == DATA && |r.payload| == 4
            && var raw, share, total := U16(r.payload[0], r.payload[1]), U16(r.payload[2], r.payload[3]), Total(env2.conversions[pin][..n]);
               IsQuotient(raw, total, n) && IsQuotient(share, raw * 10000, 4095)
  {
    hide EnvOk, Fits, Average, Handle, Total, DevOk, IsQuotient;
    var pin := config.payload[1];
    var n: nat := if config.payload[2] == 0 then 1 else config.payload[2];
    AnalogConfigured(b, d, config, env);
    AnalogAnswerMeans(b, Handle(b, d, config, env).dev, pin, n, env2, seqNo);
  }

  lemma AnalogAnswerMeans(b: Board, d: Dev, pin: byte, n: nat, env: Env, seqNo: u16)
    requires BoardOk(b) && DevOk(b, d) && EnvOk(b, env) && pin < b.numPins && d.analogConfigured[pin]
    requires d.analogSamples[pin] == n && 0 < n <= 255
    ensures var r := Handle(b, d, Ask(seqNo, [ANALOG_READ, pin]), env);
            && r.kind == DATA && |r.payload| == 4
            && var raw, share, total := U16(r.payload[0], r.payload[1]), U16(r.payload[2], r.payload[3]), Total(env.conversions[pin][..n]);
               IsQuotient(raw, total, n) && IsQuotient(share, raw * 10000, 4095)
  {
    hide Fits, Average, Handle, Total, IsQuotient;
    AnalogAnswered(b, d, pin, env, seqNo);
    MeanOfConversions(b, d, pin, env, n);
    var raw := Average(b, d, pin, env);
    QuotientIs(raw * 10000, 4095);
    WordBack(raw);
    WordBack(raw * 10000 / ADC_MAX_VALUE);
  }

  lemma QuotientIs(total: nat, n: nat)
    requires n > 0
    ensures IsQuotient(total / n, total, n)
  {
    Rounded(total, n);
  }

  lemma AnalogConfigured(b: Board, d: Dev, config: Packet, env: Env)
    requires BoardOk(b) && DevOk(b, d) && EnvOk(b, env)
    requires IsCommand(config, CONFIG_ANALOG) && |config.payload| >= 3 && config.payload[1] < b.numPins
    ensures var pin, r := config.payload[1], Handle(b, d, config, env);
            && r.kind == ACK && DevOk(b, r.dev) && r.dev.analogConfigured[pin]
            && r.dev.analogSamples[pin] == if config.payload[2] == 0 then 1 else config.payload[2]
  {
    hide EnvOk, Fits;
  }

  lemma AnalogAnswered(b: Board, d: Dev, pin: byte, env: Env, seqNo: u16)
    requires BoardOk(b) && DevOk(b, d) && EnvOk(b, env) && pin < b.numPins && d.analogConfigured[pin]
    ensures Average(b, d, pin, env) <= ADC_MAX_VALUE && Average(b, d, pin, env) * 10000 / ADC_MAX_VALUE <= 10000
    ensures var r, raw := Handle(b, d, Ask(seqNo, [ANALOG_READ, pin]), env), Average(b, d, pin, env);
            var share := raw * 10000 / ADC_MAX_VALUE;
            r.kind == DATA && r.payload == [Lo(raw), Hi(raw), Lo(share), Hi(share)]
  {
    hide EnvOk, Fits, Average;
    AverageBound(b, d, pin, env);
  }

  lemma MeanOfConversions(b: Board, d: Dev, pin: byte, env: Env, n: nat)
    requires DevOk(b, d) && EnvOk(b, env) && pin < b.numPins && d.analogSamples[pin] == n && 0 < n <= 255
    ensures var mean, total := Average(b, d, pin, env), Total(env.conversions[pin][..n]); IsQuotient(mean, total, n)
  {
    hide Sum, Total, IsQuotient;
    TotalIsSum(env.conversions[pin][..n]);
    QuotientIs(Total(env.conversions[pin][..n]), n);
  }

  // ---- I2C reads ----

  /** A read is accepted if and only if it is long enough, asks for at most 128 bytes and its
      bus is there and configured. It then answers as many bytes as the bus reports, but no
      more than were asked for: those that could be read, and zeros after them. */
  lemma I2cReadAnswers(b: Board, d: Dev, p: Packet, env: Env)
    requires BoardOk(b) && DevOk(b, d) && EnvOk(b, env) && IsCommand(p, I2C_READ)
    ensures var r, args := Handle(b, d, p, env), p.payload;
            && r.dev == d
            && (r.kind == DATA <==> |args| >= 4 && args[3] <= 128 && args[1] < 3 && args[1] < b.wires && d.i2cConfigured[args[1]])
            && (r.kind != DATA ==> r.kind == NACK && r.payload == [INVALID_PAYLOAD])
            && (r.kind == DATA ==>
                  && |r.payload| == (if env.i2cCount < args[3] then env.i2cCount else args[3])
                  && forall k | 0 <= k < |r.payload| :: r.payload[k] == if k < |env.i2cReceived| then env.i2cReceived[k] else 0)
  {
    hide EnvOk, Fits;
  }

  /** A raw write is transmitted if and only if it is long enough and its bus is there and
      configured; it is then the payload's own bytes to the address given, and the bus's
      status decides between acknowledging and ResourceUnavailable. */
  lemma I2cWriteSends(b: Board, d: Dev, p: Packet, env: Env)
    requires BoardOk(b) && DevOk(b, d) && EnvOk(b, env) && IsCommand(p, I2C_WRITE)
    ensures var r, args := Handle(b, d, p, env), p.payload;
            var usable := |args| >= 4 && |args| >= 4 + (args[3] as int) && args[1] < 3 && args[1] < b.wires && d.i2cConfigured[args[1]];
            && (usable ==>
                  && r.dev == d.(i2c := d.i2c + [RawWrite(args[1], args[2], args[4..][..args[3]])])
                  && (if env.i2cStatus == 0 then r.kind == ACK else r.kind == NACK && r.payload == [RESOURCE_UNAVAILABLE]))
            && (!usable ==> r.dev == d && r.kind == NACK && r.payload == [INVALID_PAYLOAD])
  {
    hide EnvOk, Fits;
    if |p.payload| >= 4 && |p.payload| >= 4 + (p.payload[3] as int) {
      assert p.payload[4..][..p.payload[3]] == p.payload[4..4 + (p.payload[3] as int)];
    }
  }

  /** A bus can be configured if and only if it is there. */
  lemma BusConfigured(b: Board, d: Dev, p: Packet, env: Env)
    requires BoardOk(b) && DevOk(b, d) && EnvOk(b, env) && IsCommand(p, CONFIG_I2C_BUS)
    ensures var r, args := Handle(b, d, p, env), p.payload;
            && (r.kind == ACK <==> |args| >= 6 && args[1] < b.wires)
            && (r.kind == ACK ==> r.dev == d.(i2cConfigured := d.i2cConfigured[args[1] := true]))
            && (r.kind != ACK ==> r.dev == d && r.kind == NACK && r.payload == [INVALID_PAYLOAD])
  {
    hide EnvOk, Fits;
  }

  // ---- fixed answers ----

  /** Ping answers "pong"; GetInfo answers the number of pins, the number of counters and the
      version "0.1.0" in 48 bytes; neither changes anything. */
  lemma FixedAnswers(b: Board, d: Dev, p: Packet, env: Env)
    requires BoardOk(b) && DevOk(b, d) && EnvOk(b, env)
    ensures IsCommand(p, PING) ==> Handle(b, d, p, env) == Answered(d, ['p' as byte, 'o' as byte, 'n' as byte, 'g' as byte])
    ensures IsCommand(p, GET_INFO) ==>
            var r := Handle(b, d, p, env);
            && r.dev == d && r.kind == DATA && |r.payload| == 48 && r.payload[0] == b.numPins && r.payload[1] == 8
            && r.payload[2..7] == ['0' as byte, '.' as byte, '1' as byte, '.' as byte, '0' as byte]
            && forall k | 7 <= k < 48 :: r.payload[k] == 0
  {
    hide EnvOk, Fits;
  }

  // ---- DACs ----

  /** A DAC can be configured if and only if the command is well formed, for a slot there is
      on a configured bus; it then has exactly the address, channels and resolution given,
      and reads zero. */
  lemma DacConfigured(b: Board, d: Dev, p: Packet, env: Env)
    requires BoardOk(b) && DevOk(b, d) && EnvOk(b, env) && IsCommand(p, CONFIG_DAC)
    ensures var r, args := Handle(b, d, p, env), p.payload;
            && (r.kind == ACK <==>
                |args| >= 6 && args[1] < 8 && args[2] < 3 && d.i2cConfigured[args[2]] && args[4] > 0 && 1 <= args[5] <= 16)
            && (r.kind != ACK ==> r.dev == d && r.kind == NACK && r.payload == [INVALID_PAYLOAD])
            && (r.kind == ACK ==>
                  var s := r.dev.dacs[args[1]];
                  && r.dev == d.(dacs := d.dacs[args[1] := s])
                  && s.active && s.bus == args[2] && s.address == args[3] && s.channels == args[4] && s.resolutionBits == args[5]
                  && ReadResource(b, r.dev, DAC, args[1], env) == Some(0))
  {
    hide EnvOk, Fits;
  }

  /** A raw write sends the DAC the value given, low byte first in the command, clamped to its
      resolution. */
  lemma RawWriteSends(b: Board, d: Dev, seqNo: u16, id: byte, channel: byte, lo: byte, hi: byte, env: Env)
    requires BoardOk(b) && DevOk(b, d) && EnvOk(b, env) && Reaches(b, d, id, channel)
    ensures var s, r := d.dacs[id], Handle(b, d, Ask(seqNo, [DAC_WRITE_RAW, id, channel, lo, hi]), env);
            && r.kind == (if env.i2cStatus == 0 then ACK else NACK)
            && exists bytes: seq<byte> ::
                 && |bytes| >= 2 && r.dev.i2c == d.i2c + [DacWrite(s.bus, s.address, bytes)]
                 && CodeIn(bytes) == Clamp(lo + 0x100 * (hi as int), MaxCode(s.resolutionBits))
  {
    hide EnvOk, Fits, MaxCode, WriteDacRaw, CodeIn;
    CodeClamped(b, d, id, channel, U16(lo, hi), env);
  }

  predicate IsDacWrite(p: Packet, id: byte) {
    (IsCommand(p, DAC_WRITE_RAW) || IsCommand(p, DAC_WRITE_NORMALIZED)) && |p.payload| >= 5 && p.payload[1] == id
  }

  /** The code in the last transmission, if it went to a DAC. */
  function LastSent(i2c: seq<Transmission>): u16 {
    if i2c != [] && i2c[|i2c| - 1].DacWrite? && |i2c[|i2c| - 1].bytes| >= 2 then CodeIn(i2c[|i2c| - 1].bytes) else 0
  }

  /** What a happening says a DAC's last value is: an acknowledged write, the code it sent;
      an acknowledged configuration, zero. */
  function DacSaid(b: Board, d: Dev, h: Happening, id: byte): Option<u16>
    requires BoardOk(b) && DevOk(b, d) && HappeningOk(b, h)
  {
    if !h.Received? || Handle(b, d, h.packet, h.env).kind != ACK then None
    else if IsDacWrite(h.packet, id) then Some(LastSent(Handle(b, d, h.packet, h.env).dev.i2c))
    else if IsCommand(h.packet, CONFIG_DAC) && |h.packet.payload| >= 2 && h.packet.payload[1] == id then Some(0)
    else None
  }

  function LastDac(b: Board, d: Dev, hs: seq<Happening>, id: byte, value: u16): u16
    requires BoardOk(b) && OutputsSafe(b, d) && AllOk(b, hs)
    decreases |hs|
  {
    if hs == [] then value
    else
      StepIsSafe(b, d, hs[0]);
      var said := DacSaid(b, d, hs[0], id);
      LastDac(b, Next(b, d, hs[0]), hs[1..], id, if said.Some? then said.value else value)
  }

  lemma DacWriteSaid(b: Board, d: Dev, p: Packet, env: Env, id: byte)
    requires BoardOk(b) && DevOk(b, d) && EnvOk(b, env) && id < MAX_DACS && IsDacWrite(p, id)
    ensures var r := Handle(b, d, p, env);
            && DevOk(b, r.dev)
            && (r.kind == ACK ==> r.dev.dacs[id].active && r.dev.dacs[id].lastValue == LastSent(r.dev.i2c))
            && (r.kind != ACK ==> r.dev.dacs == d.dacs)
  {
    hide EnvOk, Fits, MaxCode, NormalizedCode, WriteDacRaw;
    var args := p.payload;
    var code := if args[0] == DAC_WRITE_RAW then U16(args[3], args[4])
                else NormalizedCode(U16(args[3], args[4]), MaxCode(d.dacs[id].resolutionBits));
    HandleTouches(b, d, p, env);
    DacWriteTold(b, d, id, args[2], code, env);
  }

  lemma DacWriteTold(b: Board, d: Dev, id: byte, channel: byte, code: u16, env: Env)
    requires DevOk(b, d) && id < MAX_DACS
    ensures var r := WriteDacRaw(b, d, id, channel, code, env);
            && |r.0.dacs| == MAX_DACS
            && (r.1 ==> r.0.dacs[id].active && r.0.dacs[id].lastValue == LastSent(r.0.i2c))
            && (!r.1 ==> r.0.dacs == d.dacs)
  {
    hide MaxCode, WriteDacRaw, CodeIn;
    CodeClamped(b, d, id, channel, code, env);
  }

  /** Other packets leave an active DAC's value alone, or it is not active after them. */
  lemma OthersKeepDac(b: Board, d: Dev, p: Packet, env: Env, id: byte)
    requires BoardOk(b) && DevOk(b, d) && EnvOk(b, env) && id < MAX_DACS && !IsDacWrite(p, id)
    ensures var r := Handle(b, d, p, env);
            && DevOk(b, r.dev)
            && (r.dev.dacs[id].active ==>
                  if r.kind == ACK && IsCommand(p, CONFIG_DAC) && |p.payload| >= 2 && p.payload[1] == id
                  then r.dev.dacs[id].lastValue == 0
                  else d.dacs[id].active && r.dev.dacs[id].lastValue == d.dacs[id].lastValue)
  {
    hide EnvOk, Fits, Handle, Reset;
    HandleTouches(b, d, p, env);
    if IsCommand(p, RESET_CONFIG) {
      ResetForgets(b, d, id);
    } else if p.kind == COMMAND && p.payload != [] && p.payload[0] / 0x10 == 7 {
      I2cKeepsDac(b, d, p, env, id);
    } else {
      DacsAlone(b, d, p, env);
    }
  }

  lemma ResetForgets(b: Board, d: Dev, id: byte)
    requires BoardOk(b) && DevOk(b, d) && id < MAX_DACS
    ensures var d2 := Reset(b, d); |d2.dacs| == MAX_DACS && !d2.dacs[id].active
  {
  }

  lemma DacsAlone(b: Board, d: Dev, p: Packet, env: Env)
    requires BoardOk(b) && DevOk(b, d) && EnvOk(b, env) && !IsCommand(p, RESET_CONFIG)
    requires !(p.kind == COMMAND && p.payload != [] && p.payload[0] / 0x10 == 7)
    ensures Handle(b, d, p, env).dev.dacs == d.dacs
  {
    hide EnvOk, Fits, System, Digital, Pwm, Analog, Counter, Encoder, Subscribing, I2c;
    if p.kind == COMMAND && p.payload != [] {
      var args, group := p.payload, p.payload[0] / 0x10;
      if IsSystem(args[0]) { SystemTouches(b, d, args[0], env); }
      else if group == 1 { DigitalTouches(b, d, args, env); }
      else if group == 2 { PwmTouches(b, d, args); }
      else if group == 3 { AnalogTouches(b, d, args, env); }
      else if group == 4 { CounterTouches(b, d, args); }
      else if group == 5 { EncoderTouches(b, d, args, env); }
      else if group == 6 { SubscribingTouches(b, d, args, env); }
    }
  }

  lemma I2cKeepsDac(b: Board, d: Dev, p: Packet, env: Env, id: byte)
    requires BoardOk(b) && DevOk(b, d) && EnvOk(b, env) && id < MAX_DACS && !IsDacWrite(p, id)
    requires p.kind == COMMAND && p.payload != [] && p.payload[0] / 0x10 == 7
    ensures var r := Handle(b, d, p, env);
            && |r.dev.dacs| == MAX_DACS
            && (r.dev.dacs[id].active ==>
                  if r.kind == ACK && IsCommand(p, CONFIG_DAC) && |p.payload| >= 2 && p.payload[1] == id
                  then r.dev.dacs[id].lastValue == 0
                  else d.dacs[id].active && r.dev.dacs[id].lastValue == d.dacs[id].lastValue)
  {
    hide EnvOk, Fits, MaxCode, NormalizedCode, WriteDacRaw;
    var args := p.payload;
    if args[0] == DAC_WRITE_RAW && |args| >= 5 {
      OtherDac(b, d, args[1], args[2], U16(args[3], args[4]), env, id);
    } else if args[0] == DAC_WRITE_NORMALIZED && |args| >= 5 && args[1] < MAX_DACS {
      OtherDac(b, d, args[1], args[2], NormalizedCode(U16(args[3], args[4]), MaxCode(d.dacs[args[1]].resolutionBits)), env, id);
    }
  }

  lemma OtherDac(b: Board, d: Dev, written: byte, channel: byte, code: u16, env: Env, id: byte)
    requires DevOk(b, d) && id < MAX_DACS && written != id
    ensures var d2 := WriteDacRaw(b, d, written, channel, code, env).0; |d2.dacs| == MAX_DACS && d2.dacs[id] == d.dacs[id]
  {
    hide MaxCode, DacBytes;
  }

  lemma StepSaysDac(b: Board, d: Dev, h: Happening, id: byte)
    requires BoardOk(b) && OutputsSafe(b, d) && HappeningOk(b, h) && id < MAX_DACS
    ensures var d2, said := Next(b, d, h), DacSaid(b, d, h, id);
            && OutputsSafe(b, d2)
            && (d2.dacs[id].active ==>
                  if said.Some? then d2.dacs[id].lastValue == said.value
                  else d.dacs[id].active && d2.dacs[id].lastValue == d.dacs[id].lastValue)
  {
    hide Handle, Update, EnvOk, CheckWatchdog, Wrap32, Delta, PhasesOf, CountEdge, LastSent, StepSafe, DacWrites;
    StepIsSafe(b, d, h);
    SafeAfter(b, d, Next(b, d, h));
    match h
    case Received(p, env) => if IsDacWrite(p, id) { DacWriteSaid(b, d, p, env, id); HandleTouches(b, d, p, env); } else { OthersKeepDac(b, d, p, env, id); }
    case Updating(env) => UpdateTouches(b, d, env);
    case _ =>
  }

  /** After any run a DAC that is active reads as the code its last acknowledged write sent,
      or zero if it was configured since; writes the bus did not confirm do not count. */
  lemma {:induction false} DacReadsLastWrite(b: Board, d: Dev, hs: seq<Happening>, id: byte, value: u16, env: Env)
    requires BoardOk(b) && OutputsSafe(b, d) && AllOk(b, hs) && EnvOk(b, env) && id < MAX_DACS
    requires d.dacs[id].active ==> d.dacs[id].lastValue == value
    ensures DevOk(b, Run(b, d, hs))
    ensures var reading := ReadResource(b, Run(b, d, hs), DAC, id, env);
            reading == if Run(b, d, hs).dacs[id].active then Some(LastDac(b, d, hs, id, value) as i32) else None
    decreases |hs|
  {
    hide Next, HappeningOk, StepSafe, DacSaid, DacWrites, EnvOk, Average;
    if hs == [] {
      SafeIsOk(b, d);
    } else {
      StepIsSafe(b, d, hs[0]);
      SafeIsOk(b, d);
      StepSaysDac(b, d, hs[0], id);
      var said := DacSaid(b, d, hs[0], id);
      DacReadsLastWrite(b, Next(b, d, hs[0]), hs[1..], id, if said.Some? then said.value else value, env);
    }
  }

  // ---- rejections ----

  /** A rejected packet changes nothing, but for what a bus that did not confirm was sent. */
  lemma RejectionChangesNothing(b: Board, d: Dev, p: Packet, env: Env)
    requires BoardOk(b) && DevOk(b, d) && EnvOk(b, env) && Handle(b, d, p, env).kind == NACK
    ensures var r := Handle(b, d, p, env);
            && r.dev == d.(i2c := r.dev.i2c)
            && (r.dev.i2c != d.i2c ==> env.i2cStatus != 0 && r.payload == [RESOURCE_UNAVAILABLE])
  {
    hide EnvOk, Fits, MaxCode, NormalizedCode, Average, ReadResource, Bytes32, System, Digital, Pwm, Analog, Counter, Encoder,
         Subscribing, I2c;
    if p.kind == COMMAND && p.payload != [] {
      GroupsReject(b, d, p.payload, env);
      if I2c(b, d, p.payload, env).kind == NACK { I2cRejection(b, d, p.payload, env); }
    }
  }

  lemma GroupsReject(b: Board, d: Dev, args: seq<byte>, env: Env)
    requires BoardOk(b) && DevOk(b, d) && EnvOk(b, env) && args != []
    ensures System(b, d, args[0], env).kind == NACK ==> System(b, d, args[0], env).dev == d
    ensures Digital(b, d, args, env).kind == NACK ==> Digital(b, d, args, env).dev == d
    ensures Pwm(b, d, args).kind == NACK ==> Pwm(b, d, args).dev == d
    ensures Analog(b, d, args, env).kind == NACK ==> Analog(b, d, args, env).dev == d
    ensures Counter(b, d, args).kind == NACK ==> Counter(b, d, args).dev == d
    ensures Encoder(b, d, args, env).kind == NACK ==> Encoder(b, d, args, env).dev == d
    ensures Subscribing(b, d, args, env).kind == NACK ==> Subscribing(b, d, args, env).dev == d
  {
    hide EnvOk, Fits, Average, ReadResource, Bytes32, Info, Reset, SafeOutputs, PhasesOf;
  }

  lemma I2cRejection(b: Board, d: Dev, args: seq<byte>, env: Env)
    requires DevOk(b, d) && args != [] && I2c(b, d, args, env).kind == NACK
    ensures var r := I2c(b, d, args, env);
            && r.dev == d.(i2c := r.dev.i2c)
            && (r.dev.i2c != d.i2c ==> env.i2cStatus != 0 && r.payload == [RESOURCE_UNAVAILABLE])
  {
    hide Fits, MaxCode, NormalizedCode, DacBytes;
  }

  /** All the commands there are. */
  const COMMANDS: set<int> := {
    0x01, 0x02, 0x03, 0x04, 0x10, 0x11, 0x12, 0x13, 0x20, 0x21, 0x22, 0x30, 0x31, 0x40, 0x41, 0x42, 0x43, 0x50, 0x51, 0x52,
    0x60, 0x61, 0x70, 0x71, 0x72, 0x73, 0x74, 0x75, 0xF0, 0xF1 }

  /** A packet is rejected as an unknown command if and only if it is a command, not empty,
      and none of those. */
  lemma UnknownExactly(b: Board, d: Dev, p: Packet, env: Env)
    requires BoardOk(b) && DevOk(b, d) && EnvOk(b, env)
    ensures var r := Handle(b, d, p, env);
            r.kind == NACK && r.payload == [UNKNOWN_COMMAND] <==>
            p.kind == COMMAND && p.payload != [] && p.payload[0] as int !in COMMANDS
  {
    hide EnvOk, Fits, System, Digital, Pwm, Analog, Counter, Encoder, Subscribing, I2c;
    if p.kind == COMMAND && p.payload != [] {
      var args := p.payload;
      SystemUnknown(b, d, args[0], env);
      PinsUnknown(b, d, args, env);
      SlotsUnknown(b, d, args, env);
      I2cUnknown(b, d, args, env);
    }
  }

  predicate Unknown(r: Reply) {
    r.kind == NACK && r.payload == [UNKNOWN_COMMAND]
  }

  lemma SystemUnknown(b: Board, d: Dev, command: byte, env: Env)
    requires BoardOk(b) && DevOk(b, d)
    ensures Unknown(System(b, d, command, env)) <==> command !in {0x01, 0x02, 0x03, 0x04, 0xF0, 0xF1}
  {
    hide Fits, Info, Reset, SafeOutputs;
  }

  lemma PinsUnknown(b: Board, d: Dev, args: seq<byte>, env: Env)
    requires BoardOk(b) && DevOk(b, d) && EnvOk(b, env) && args != []
    ensures Unknown(Digital(b, d, args, env)) <==> args[0] !in {0x10, 0x11, 0x12, 0x13}
    ensures Unknown(Pwm(b, d, args)) <==> args[0] !in {0x20, 0x21, 0x22}
    ensures Unknown(Analog(b, d, args, env)) <==> args[0] !in {0x30, 0x31}
  {
    hide EnvOk, Fits, Average;
  }

  lemma SlotsUnknown(b: Board, d: Dev, args: seq<byte>, env: Env)
    requires BoardOk(b) && DevOk(b, d) && EnvOk(b, env) && args != []
    ensures Unknown(Counter(b, d, args)) <==> args[0] !in {0x40, 0x41, 0x42, 0x43}
    ensures Unknown(Encoder(b, d, args, env)) <==> args[0] !in {0x50, 0x51, 0x52}
    ensures Unknown(Subscribing(b, d, args, env)) <==> args[0] !in {0x60, 0x61}
  {
    hide EnvOk, Fits, Bytes32, ReadResource, PhasesOf;
  }

  lemma I2cUnknown(b: Board, d: Dev, args: seq<byte>, env: Env)
    requires DevOk(b, d) && args != []
    ensures Unknown(I2c(b, d, args, env)) <==> args[0] !in {0x70, 0x71, 0x72, 0x73, 0x74, 0x75}
  {
    hide Fits, MaxCode, NormalizedCode, WriteDacRaw, ReadBytes;
  }

  /** How many payload bytes a command needs at least. */
  function MinLength(command: int): nat {
    if command in {0x40, 0x70, 0x73, 0x60} then (if command == 0x40 then 4 else 6)
    else if command == 0x20 then 7
    else if command in {0x50, 0x74, 0x75} then 5
    else if command in {0x71, 0x72} then 4
    else if command in {0x10, 0x11, 0x13, 0x21, 0x30, 0x61} then 3
    else if command in {0x12, 0x22, 0x31, 0x41, 0x42, 0x43, 0x51, 0x52} then 2
    else 1
  }

  /** A command that is too short is rejected as an invalid payload, whatever else holds, and
      so is anything that is no command or is empty. */
  lemma TooShort(b: Board, d: Dev, p: Packet, env: Env)
    requires BoardOk(b) && DevOk(b, d) && EnvOk(b, env)
    requires p.kind != COMMAND || p.payload == [] || (p.payload[0] as int in COMMANDS && |p.payload| < MinLength(p.payload[0]))
    ensures var r := Handle(b, d, p, env); r.kind == NACK && r.payload == [INVALID_PAYLOAD] && r.dev == d
  {
    hide EnvOk, Fits, MaxCode, NormalizedCode, WriteDacRaw, ReadBytes, Average, ReadResource, Bytes32, PhasesOf, System;
  }

  /** When counters, encoders and analog pins can be configured, and that nothing else
      changes then. */
  lemma ConfiguredExactly(b: Board, d: Dev, p: Packet, env: Env)
    requires BoardOk(b) && DevOk(b, d) && EnvOk(b, env)
    ensures var r, args := Handle(b, d, p, env), p.payload;
            && (IsCommand(p, CONFIG_COUNTER) ==>
                  && (r.kind == ACK <==> |args| >= 4 && args[1] < 8 && args[2] < b.numPins)
                  && r.dev == d.(counters := r.dev.counters))
            && (IsCommand(p, CONFIG_ENCODER) ==>
                  && (r.kind == ACK <==> |args| >= 5 && args[1] < 4 && args[2] < b.numPins && args[3] < b.numPins)
                  && r.dev == d.(encoders := r.dev.encoders))
            && (IsCommand(p, CONFIG_ANALOG) ==>
                  && (r.kind == ACK <==> |args| >= 3 && args[1] < b.numPins)
                  && r.dev == d.(analogConfigured := r.dev.analogConfigured, analogSamples := r.dev.analogSamples))
  {
    hide EnvOk, Fits, PhasesOf;
  }
}
