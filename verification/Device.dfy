/** The firmware's command handler as a function of the device's state. */
module Device {
  import opened Seqs
  import opened Bits
  import opened Wire
  import opened Frame
  import opened Safety
  import opened Quadrature
  import opened Subscriptions
  import Outbound

  const MAX_COUNTERS: nat := 8
  const MAX_ENCODERS: nat := 4
  const MAX_SUBSCRIPTIONS: nat := 16
  const MAX_I2C_BUSES: nat := 3
  const MAX_DACS: nat := 8
  const ADC_MAX_VALUE: nat := 4095
  const VERSION: seq<byte> := [0x30, 0x2E, 0x31, 0x2E, 0x30]   // "0.1.0"

  // Command identifiers.
  const PING: byte := 0x01
  const GET_INFO: byte := 0x02
  const HEARTBEAT: byte := 0x03
  const RESET_CONFIG: byte := 0x04
  const CONFIG_DIGITAL_INPUT: byte := 0x10
  const CONFIG_DIGITAL_OUTPUT: byte := 0x11
  const DIGITAL_READ: byte := 0x12
  const DIGITAL_WRITE: byte := 0x13
  const CONFIG_PWM: byte := 0x20
  const PWM_WRITE: byte := 0x21
  const PWM_DISABLE: byte := 0x22
  const CONFIG_ANALOG: byte := 0x30
  const ANALOG_READ: byte := 0x31
  const CONFIG_COUNTER: byte := 0x40
  const COUNTER_READ: byte := 0x41
  const COUNTER_RESET: byte := 0x42
  const COUNTER_FREQUENCY: byte := 0x43
  const CONFIG_ENCODER: byte := 0x50
  const ENCODER_READ: byte := 0x51
  const ENCODER_RESET: byte := 0x52
  const SUBSCRIBE: byte := 0x60
  const UNSUBSCRIBE: byte := 0x61
  const CONFIG_I2C_BUS: byte := 0x70
  const I2C_WRITE: byte := 0x71
  const I2C_READ: byte := 0x72
  const CONFIG_DAC: byte := 0x73
  const DAC_WRITE_RAW: byte := 0x74
  const DAC_WRITE_NORMALIZED: byte := 0x75
  const EMERGENCY_STOP: byte := 0xF0
  const CLEAR_EMERGENCY_STOP: byte := 0xF1

  // Error codes.
  const OK: byte := 0
  const UNKNOWN_COMMAND: byte := 1
  const INVALID_PAYLOAD: byte := 2
  const INVALID_PIN: byte := 3
  const EMERGENCY_STOP_ACTIVE: byte := 5
  const RESOURCE_UNAVAILABLE: byte := 6

  // ---- state ----

  datatype Board = Board(numPins: nat, pwmPins: seq<bool>, wires: nat)

  predicate BoardOk(b: Board) {
    0 < b.numPins < 0x100 && |b.pwmPins| == b.numPins && 1 <= b.wires <= MAX_I2C_BUSES
  }

  datatype CounterSlot = CounterSlot(active: bool, pin: byte, edge: byte, count: i32, lastEdgeUs: u32, periodUs: u32)

  const NO_COUNTER := CounterSlot(false, 0, 0, 0, 0, 0)

  datatype DacSlot = DacSlot(active: bool, bus: byte, address: byte, channels: byte, resolutionBits: byte, lastValue: u16)

  const NO_DAC := DacSlot(false, 0, 0, 1, 12, 0)

  /** What went out on an I2C bus: a raw write, or a code sent by write_dac_raw. */
  datatype Transmission =
    | RawWrite(bus: byte, address: byte, bytes: seq<byte>)
    | DacWrite(bus: byte, address: byte, bytes: seq<byte>)

  datatype Dev = Dev(
    watch: Watch,
    pwmConfigured: seq<bool>,
    analogConfigured: seq<bool>,
    analogSamples: seq<byte>,
    subscriptions: seq<Subscription>,
    i2cConfigured: seq<bool>,
    dacs: seq<DacSlot>,
    counters: seq<CounterSlot>,
    encoders: seq<EncoderSlot>,
    outbound: seq<Packet>,
    // Hardware: the last analogWrite and digitalWrite to each pin, the I2C traffic.
    duty: seq<byte>,
    level: seq<bool>,
    i2c: seq<Transmission>)

  /** Table sizes, and the constraints the configuration commands establish. */
  predicate DevOk(b: Board, d: Dev) {
    && |d.pwmConfigured| == |d.analogConfigured| == |d.analogSamples| == |d.duty| == |d.level| == b.numPins
    && |d.subscriptions| == MAX_SUBSCRIPTIONS && |d.i2cConfigured| == MAX_I2C_BUSES
    && |d.dacs| == MAX_DACS && |d.counters| == MAX_COUNTERS && |d.encoders| == MAX_ENCODERS
    && |d.outbound| <= Outbound.CAPACITY
    && (forall i | 0 <= i < MAX_DACS :: d.dacs[i].bus < MAX_I2C_BUSES)
    && (forall i | 0 <= i < MAX_ENCODERS :: d.encoders[i].pinA < b.numPins && d.encoders[i].pinB < b.numPins)
  }

  /** What the hardware and the clocks answer while one command or update is handled. */
  datatype Env = Env(
    time: nat,                       // milliseconds since boot; millis() is this modulo 2^32
    micros: u32,
    high: seq<bool>,                 // digitalRead per pin
    conversions: seq<seq<nat>>,      // the results of analogRead per pin
    i2cStatus: byte,                 // endTransmission
    i2cCount: byte,                  // what a requestFrom returns
    i2cReceived: seq<byte>,          // the bytes that can then be read
    rooms: seq<int>)                 // availableForWrite, call by call

  predicate EnvOk(b: Board, env: Env) {
    && |env.high| == |env.conversions| == b.numPins
    && (forall pin | 0 <= pin < b.numPins ::
          |env.conversions[pin]| == 255
          && forall k | 0 <= k < 255 :: env.conversions[pin][k] <= ADC_MAX_VALUE)
    && |env.rooms| == 16
  }

  // ---- replies ----

  datatype Reply = Reply(dev: Dev, kind: byte, payload: seq<byte>)

  function Acked(d: Dev): Reply { Reply(d, ACK, [OK]) }
  function Nacked(d: Dev, code: byte): Reply { Reply(d, NACK, [code]) }
  function Answered(d: Dev, payload: seq<byte>): Reply { Reply(d, DATA, payload) }

  /** An acknowledgement, a rejection or data, in a payload a frame can carry. */
  predicate Fits(r: Reply) {
    (r.kind == ACK || r.kind == NACK || r.kind == DATA) && |r.payload| <= MAX_PAYLOAD_SIZE
  }

  // ---- outputs ----

  function Zeroed(duty: seq<byte>, configured: seq<bool>): (r: seq<byte>)
    requires |duty| == |configured|
    ensures |r| == |duty|
    ensures forall p | 0 <= p < |duty| :: r[p] == if configured[p] then 0 else duty[p]
  {
    if duty == [] then [] else [if configured[0] then 0 else duty[0]] + Zeroed(duty[1..], configured[1..])
  }

  function SafeOutputs(b: Board, d: Dev): Dev
    requires DevOk(b, d)
  {
    d.(duty := Zeroed(d.duty, d.pwmConfigured))
  }

  // ---- the handlers, by command group ----

  function Blank<T>(n: nat, x: T): (s: seq<T>)
    ensures |s| == n && forall i | 0 <= i < n :: s[i] == x
  {
    if n == 0 then [] else [x] + Blank(n - 1, x)
  }

  function Reset(b: Board, d: Dev): Dev
    requires DevOk(b, d)
  {
    SafeOutputs(b, d).(
      counters := Blank(MAX_COUNTERS, NO_COUNTER),
      pwmConfigured := Blank(b.numPins, false),
      analogConfigured := Blank(b.numPins, false),
      analogSamples := Blank(b.numPins, 0),
      encoders := Blank(MAX_ENCODERS, NO_ENCODER),
      subscriptions := Blank(MAX_SUBSCRIPTIONS, NO_SUBSCRIPTION),
      i2cConfigured := Blank(MAX_I2C_BUSES, false),
      dacs := Blank(MAX_DACS, NO_DAC),
      outbound := [])
  }

  lemma ResetOk(b: Board, d: Dev)
    requires DevOk(b, d)
    requires BoardOk(b)
    ensures DevOk(b, Reset(b, d))
  {
  }

  function Info(b: Board): (payload: seq<byte>)
    requires BoardOk(b)
    ensures |payload| == 48
  {
    [b.numPins, MAX_COUNTERS] + VERSION + Blank(41, 0)
  }

  function System(b: Board, d: Dev, command: byte, env: Env): (r: Reply)
    requires BoardOk(b) && DevOk(b, d)
    ensures Fits(r)
  {
    if command == PING then Answered(d, [0x70, 0x6F, 0x6E, 0x67])
    else if command == GET_INFO then Answered(d, Info(b))
    else if command == HEARTBEAT then Acked(d.(watch := d.watch.Beat(Millis(env.time))))
    else if command == EMERGENCY_STOP then Acked(SafeOutputs(b, d).(watch := d.watch.Latch()))
    else if command == CLEAR_EMERGENCY_STOP then Acked(d.(watch := d.watch.Clear(Millis(env.time))))
    else if command == RESET_CONFIG then Acked(Reset(b, d))
    else Nacked(d, UNKNOWN_COMMAND)
  }

  function Digital(b: Board, d: Dev, args: seq<byte>, env: Env): (r: Reply)
    requires DevOk(b, d) && EnvOk(b, env) && args != []
    ensures Fits(r)
  {
    if args[0] == CONFIG_DIGITAL_OUTPUT then
      if |args| < 3 then Nacked(d, INVALID_PAYLOAD)
      else if args[2] != 0 && !d.watch.OutputsAllowed() then Nacked(d, EMERGENCY_STOP_ACTIVE)
      else if args[1] >= b.numPins then Nacked(d, INVALID_PIN)
      else Acked(d.(level := d.level[args[1] := args[2] != 0]))
    else if args[0] == CONFIG_DIGITAL_INPUT then
      if |args| < 3 then Nacked(d, INVALID_PAYLOAD)
      else if args[1] >= b.numPins then Nacked(d, INVALID_PIN)
      else Acked(d)
    else if args[0] == DIGITAL_READ then
      if |args| < 2 then Nacked(d, INVALID_PAYLOAD)
      else if args[1] >= b.numPins then Nacked(d, INVALID_PIN)
      else Answered(d, [if env.high[args[1]] then 1 else 0])
    else if args[0] == DIGITAL_WRITE then
      if |args| < 3 then Nacked(d, INVALID_PAYLOAD)
      else if !d.watch.OutputsAllowed() then Nacked(d, EMERGENCY_STOP_ACTIVE)
      else if args[1] >= b.numPins then Nacked(d, INVALID_PIN)
      else Acked(d.(level := d.level[args[1] := args[2] != 0]))
    else Nacked(d, UNKNOWN_COMMAND)
  }

  predicate IsPwmPin(b: Board, pin: byte)
    requires BoardOk(b)
  {
    pin < b.numPins && b.pwmPins[pin]
  }

  function Pwm(b: Board, d: Dev, args: seq<byte>): (r: Reply)
    requires BoardOk(b) && DevOk(b, d) && args != []
    ensures Fits(r)
  {
    if args[0] == CONFIG_PWM then
      if |args| < 7 then Nacked(d, INVALID_PAYLOAD)
      else if args[6] > 0 && !d.watch.OutputsAllowed() then Nacked(d, EMERGENCY_STOP_ACTIVE)
      else if !IsPwmPin(b, args[1]) then Nacked(d, INVALID_PIN)
      else Acked(d.(duty := d.duty[args[1] := args[6]], pwmConfigured := d.pwmConfigured[args[1] := true]))
    else if args[0] == PWM_WRITE then
      if |args| < 3 then Nacked(d, INVALID_PAYLOAD)
      else if !d.watch.OutputsAllowed() then Nacked(d, EMERGENCY_STOP_ACTIVE)
      else if !IsPwmPin(b, args[1]) || !d.pwmConfigured[args[1]] then Nacked(d, INVALID_PIN)
      else Acked(d.(duty := d.duty[args[1] := args[2]]))
    else if args[0] == PWM_DISABLE then
      if |args| < 2 then Nacked(d, INVALID_PAYLOAD)
      else if !IsPwmPin(b, args[1]) then Nacked(d, INVALID_PIN)
      else Acked(d.(duty := d.duty[args[1] := 0], pwmConfigured := d.pwmConfigured[args[1] := false]))
    else Nacked(d, UNKNOWN_COMMAND)
  }

  function Sum(s: seq<nat>): nat {
    if s == [] then 0 else Sum(s[..|s| - 1]) + s[|s| - 1]
  }

  /** What a pin's conversions give, one after the other. */
  function Conversions(b: Board, env: Env, pin: byte): (results: seq<nat>)
    requires EnvOk(b, env) && pin < b.numPins
    ensures |results| == 255 && forall k | 0 <= k < 255 :: results[k] <= ADC_MAX_VALUE
  {
    env.conversions[pin]
  }

  /** The mean of the configured number of conversions, rounded down. */
  function Average(b: Board, d: Dev, pin: byte, env: Env): (mean: nat)
    requires DevOk(b, d) && EnvOk(b, env) && pin < b.numPins
  {
    var samples := if d.analogSamples[pin] == 0 then 1 else d.analogSamples[pin];
    Sum(Conversions(b, env, pin)[..samples]) / samples
  }

  lemma {:induction false} SumBound(s: seq<nat>, bound: nat)
    requires forall i | 0 <= i < |s| :: s[i] <= bound
    ensures Sum(s) <= |s| * bound
  {
    if s != [] { SumBound(s[..|s| - 1], bound); }
  }

  lemma AverageBound(b: Board, d: Dev, pin: byte, env: Env)
    requires DevOk(b, d) && EnvOk(b, env) && pin < b.numPins
    ensures Average(b, d, pin, env) <= ADC_MAX_VALUE
    ensures Average(b, d, pin, env) * 10000 / ADC_MAX_VALUE <= 10000
  {
    var samples := if d.analogSamples[pin] == 0 then 1 else d.analogSamples[pin];
    hide EnvOk, Conversions;
    var results := Conversions(b, env, pin)[..samples];
    SumBound(results, ADC_MAX_VALUE);
    QuotientBound(Sum(results), ADC_MAX_VALUE, samples);
  }

  lemma Rounded(total: nat, n: nat)
    requires n > 0
    ensures total / n * n <= total < (total / n + 1) * n
  {
    assert total == n * (total / n) + total % n;
  }

  lemma QuotientBound(n: nat, q: nat, m: nat)
    requires m > 0 && n <= m * q
    ensures n / m <= q
  {
    assert n == m * (n / m) + n % m;
    if n / m > q { Grows(q + 1, n / m, m); }
  }

  function Analog(b: Board, d: Dev, args: seq<byte>, env: Env): (r: Reply)
    requires DevOk(b, d) && EnvOk(b, env) && args != []
    ensures Fits(r)
  {
    if args[0] == CONFIG_ANALOG then
      if |args| < 3 then Nacked(d, INVALID_PAYLOAD)
      else if args[1] >= b.numPins then Nacked(d, INVALID_PIN)
      else Acked(d.(analogConfigured := d.analogConfigured[args[1] := true],
                    analogSamples := d.analogSamples[args[1] := if args[2] == 0 then 1 else args[2]]))
    else if args[0] == ANALOG_READ then
      if |args| < 2 then Nacked(d, INVALID_PAYLOAD)
      else if args[1] >= b.numPins || !d.analogConfigured[args[1]] then Nacked(d, INVALID_PIN)
      else
        AverageBound(b, d, args[1], env);
        var raw := Average(b, d, args[1], env);
        var normalized := raw * 10000 / ADC_MAX_VALUE;
        Answered(d, [Lo(raw), Hi(raw), Lo(normalized), Hi(normalized)])
    else Nacked(d, UNKNOWN_COMMAND)
  }

  /** Reading, resetting and timing a counter need an active one. */
  predicate HasCounter(b: Board, d: Dev, args: seq<byte>)
    requires DevOk(b, d)
  {
    |args| >= 2 && args[1] < MAX_COUNTERS && d.counters[args[1]].active
  }

  function Counter(b: Board, d: Dev, args: seq<byte>): (r: Reply)
    requires DevOk(b, d) && args != []
    ensures Fits(r)
  {
    if args[0] == CONFIG_COUNTER then
      if |args| < 4 then Nacked(d, INVALID_PAYLOAD)
      else if args[1] >= MAX_COUNTERS || args[2] >= b.numPins then Nacked(d, INVALID_PIN)
      else Acked(d.(counters := d.counters[args[1] := NO_COUNTER.(active := true, pin := args[2], edge := args[3])]))
    else if args[0] == COUNTER_READ then
      if !HasCounter(b, d, args) then Nacked(d, INVALID_PAYLOAD)
      else Answered(d, Bytes32(d.counters[args[1]].count))
    else if args[0] == COUNTER_RESET then
      if !HasCounter(b, d, args) then Nacked(d, INVALID_PAYLOAD)
      else Acked(d.(counters := d.counters[args[1] := d.counters[args[1]].(count := 0, lastEdgeUs := 0, periodUs := 0)]))
    else if args[0] == COUNTER_FREQUENCY then
      if !HasCounter(b, d, args) then Nacked(d, INVALID_PAYLOAD)
      else
        var period := d.counters[args[1]].periodUs;
        Answered(d, Bytes32(if period == 0 then 0 else 1000000000 / period))
    else Nacked(d, UNKNOWN_COMMAND)
  }

  predicate HasEncoder(b: Board, d: Dev, args: seq<byte>)
    requires DevOk(b, d)
  {
    |args| >= 2 && args[1] < MAX_ENCODERS && d.encoders[args[1]].active
  }

  function PhasesOf(b: Board, env: Env, pinA: byte, pinB: byte): phases
    requires EnvOk(b, env) && pinA < b.numPins && pinB < b.numPins
  {
    (if env.high[pinA] then 2 else 0) + (if env.high[pinB] then 1 else 0)
  }

  function Encoder(b: Board, d: Dev, args: seq<byte>, env: Env): (r: Reply)
    requires DevOk(b, d) && EnvOk(b, env) && args != []
    ensures Fits(r)
  {
    if args[0] == CONFIG_ENCODER then
      if |args| < 5 then Nacked(d, INVALID_PAYLOAD)
      else if args[1] >= MAX_ENCODERS || args[2] >= b.numPins || args[3] >= b.numPins then Nacked(d, INVALID_PIN)
      else Acked(d.(encoders := d.encoders[args[1] :=
                      EncoderSlot(true, args[2], args[3], args[4], 0, PhasesOf(b, env, args[2], args[3]))]))
    else if args[0] == ENCODER_READ then
      if !HasEncoder(b, d, args) then Nacked(d, INVALID_PAYLOAD)
      else Answered(d, Bytes32(d.encoders[args[1]].position))
    else if args[0] == ENCODER_RESET then
      if !HasEncoder(b, d, args) then Nacked(d, INVALID_PAYLOAD)
      else Acked(d.(encoders := d.encoders[args[1] := d.encoders[args[1]].(position := 0)]))
    else Nacked(d, UNKNOWN_COMMAND)
  }

  function Reading(value: i32): Option<i32> {
    Some(value)
  }

  /** read_resource_value: the current value of a resource, or none. */
  function ReadResource(b: Board, d: Dev, kind: byte, id: byte, env: Env): Option<i32>
    requires DevOk(b, d) && EnvOk(b, env)
  {
    if kind == DIGITAL then
      if id >= b.numPins then None else Reading(if env.high[id] then 1 else 0)
    else if kind == ANALOG then
      if id >= b.numPins || !d.analogConfigured[id] then None
      else
        AverageBound(b, d, id, env);
        Reading(Average(b, d, id, env))
    else if kind == COUNTER then
      if id >= MAX_COUNTERS || !d.counters[id].active then None else Reading(d.counters[id].count)
    else if kind == ENCODER then
      if id >= MAX_ENCODERS || !d.encoders[id].active then None else Reading(d.encoders[id].position)
    else if kind == DAC then
      if id >= MAX_DACS || !d.dacs[id].active then None else Reading(d.dacs[id].lastValue)
    else None
  }

  /** The first slot not in use. */
  function FreeSlot(subs: seq<Subscription>): (i: nat)
    ensures i <= |subs| && (i < |subs| ==> !subs[i].active)
    ensures forall j | 0 <= j < i :: subs[j].active
  {
    if subs == [] || !subs[0].active then 0 else 1 + FreeSlot(subs[1..])
  }

  function Without(subs: seq<Subscription>, kind: byte, id: byte): (r: seq<Subscription>)
    ensures |r| == |subs|
    ensures forall i | 0 <= i < |subs| ::
              r[i] == if subs[i].active && subs[i].kind == kind && subs[i].id == id then NO_SUBSCRIPTION else subs[i]
  {
    if subs == [] then []
    else [if subs[0].active && subs[0].kind == kind && subs[0].id == id then NO_SUBSCRIPTION else subs[0]]
         + Without(subs[1..], kind, id)
  }

  function Subscribing(b: Board, d: Dev, args: seq<byte>, env: Env): (r: Reply)
    requires DevOk(b, d) && EnvOk(b, env) && args != []
    ensures Fits(r)
  {
    if args[0] == SUBSCRIBE then
      if |args| < 6 then Nacked(d, INVALID_PAYLOAD)
      else if ReadResource(b, d, args[1], args[2], env).None? then Nacked(d, INVALID_PAYLOAD)
      else
        var i := FreeSlot(d.subscriptions);
        if i == MAX_SUBSCRIPTIONS then Nacked(d, RESOURCE_UNAVAILABLE)
        else Acked(d.(subscriptions := d.subscriptions[i :=
               d.subscriptions[i].(active := true, kind := args[1], id := args[2], rateHz := U16(args[3], args[4]),
                                   flags := args[5], nextDueMs := Millis(env.time), hasLastValue := false)]))
    else if args[0] == UNSUBSCRIBE then
      if |args| < 3 then Nacked(d, INVALID_PAYLOAD)
      else Acked(d.(subscriptions := Without(d.subscriptions, args[1], args[2])))
    else Nacked(d, UNKNOWN_COMMAND)
  }

  // ---- I2C and DACs ----

  function MaxCode(resolutionBits: byte): u16 {
    var bits := if resolutionBits == 0 then 12 else resolutionBits;
    if bits >= 16 then 0xFFFF else (Pow2(bits) - 1) % 0x1_0000
  }

  /** A code goes out high byte first, after the channel if the DAC has several. */
  function DacBytes(channels: byte, channel: byte, code: u16): seq<byte> {
    (if channels > 1 then [channel] else []) + [Hi(code), Lo(code)]
  }

  /** write_dac_raw, which transmits the clamped code; the slot remembers it only if the
      bus confirms it. */
  function WriteDacRaw(b: Board, d: Dev, id: byte, channel: byte, value: u16, env: Env): (r: (Dev, bool))
    requires DevOk(b, d)
  {
    if id >= MAX_DACS || !d.dacs[id].active || channel >= d.dacs[id].channels then (d, false)
    else if d.dacs[id].bus >= b.wires || !d.i2cConfigured[d.dacs[id].bus] then (d, false)
    else
      var max := MaxCode(d.dacs[id].resolutionBits);
      var code := if value > max then max else value;
      var sent := d.(i2c := d.i2c + [DacWrite(d.dacs[id].bus, d.dacs[id].address, DacBytes(d.dacs[id].channels, channel, code))]);
      if env.i2cStatus != 0 then (sent, false)
      else (sent.(dacs := d.dacs[id := d.dacs[id].(lastValue := code)]), true)
  }

  /** The scaling of a normalized value, in 32 bits and then cut to 16. */
  function NormalizedCode(normalized: u16, max: u16): u16 {
    Cut32(normalized * (max as int)) / 10000 % 0x1_0000
  }

  /** The answer to a read that is to hold n bytes: zeros where no byte can be read. */
  function ReadBytes(n: nat, received: seq<byte>): (payload: seq<byte>)
    ensures |payload| == n
  {
    if n <= |received| then received[..n] else received + Blank(n - |received|, 0)
  }

  function DacReply(d: (Dev, bool)): Reply {
    if d.1 then Acked(d.0) else Nacked(d.0, RESOURCE_UNAVAILABLE)
  }

  function I2c(b: Board, d: Dev, args: seq<byte>, env: Env): (r: Reply)
    requires DevOk(b, d) && args != []
    ensures Fits(r)
  {
    if args[0] == CONFIG_I2C_BUS then
      if |args| < 6 then Nacked(d, INVALID_PAYLOAD)
      else if args[1] >= MAX_I2C_BUSES || args[1] >= b.wires then Nacked(d, INVALID_PAYLOAD)
      else Acked(d.(i2cConfigured := d.i2cConfigured[args[1] := true]))
    else if args[0] == I2C_WRITE then
      if |args| < 4 then Nacked(d, INVALID_PAYLOAD)
      else if args[1] >= MAX_I2C_BUSES || !d.i2cConfigured[args[1]] || |args| < 4 + (args[3] as int) then Nacked(d, INVALID_PAYLOAD)
      else if args[1] >= b.wires then Nacked(d, INVALID_PAYLOAD)
      else
        var sent := d.(i2c := d.i2c + [RawWrite(args[1], args[2], args[4..4 + (args[3] as int)])]);
        if env.i2cStatus != 0 then Nacked(sent, RESOURCE_UNAVAILABLE) else Acked(sent)
    else if args[0] == I2C_READ then
      if |args| < 4 then Nacked(d, INVALID_PAYLOAD)
      else if args[1] >= MAX_I2C_BUSES || !d.i2cConfigured[args[1]] || args[3] > MAX_PAYLOAD_SIZE then Nacked(d, INVALID_PAYLOAD)
      else if args[1] >= b.wires then Nacked(d, INVALID_PAYLOAD)
      else Answered(d, ReadBytes(if env.i2cCount < args[3] then env.i2cCount else args[3], env.i2cReceived))
    else if args[0] == CONFIG_DAC then
      if |args| < 6 then Nacked(d, INVALID_PAYLOAD)
      else if args[1] >= MAX_DACS || args[2] >= MAX_I2C_BUSES || !d.i2cConfigured[args[2]]
              || args[4] == 0 || args[5] == 0 || args[5] > 16 then Nacked(d, INVALID_PAYLOAD)
      else Acked(d.(dacs := d.dacs[args[1] := DacSlot(true, args[2], args[3], args[4], args[5], 0)]))
    else if args[0] == DAC_WRITE_RAW then
      if |args| < 5 then Nacked(d, INVALID_PAYLOAD)
      else if !d.watch.OutputsAllowed() then Nacked(d, EMERGENCY_STOP_ACTIVE)
      else DacReply(WriteDacRaw(b, d, args[1], args[2], U16(args[3], args[4]), env))
    else if args[0] == DAC_WRITE_NORMALIZED then
      if |args| < 5 then Nacked(d, INVALID_PAYLOAD)
      else if !d.watch.OutputsAllowed() then Nacked(d, EMERGENCY_STOP_ACTIVE)
      else if args[1] >= MAX_DACS || !d.dacs[args[1]].active then Nacked(d, INVALID_PAYLOAD)
      else
        var code := NormalizedCode(U16(args[3], args[4]), MaxCode(d.dacs[args[1]].resolutionBits));
        DacReply(WriteDacRaw(b, d, args[1], args[2], code, env))
    else Nacked(d, UNKNOWN_COMMAND)
  }

  // ---- one packet ----

  predicate IsCommand(p: Packet, command: byte) {
    p.kind == COMMAND && p.payload != [] && p.payload[0] == command
  }

  predicate IsSystem(command: byte) {
    command in [PING, GET_INFO, HEARTBEAT, RESET_CONFIG, EMERGENCY_STOP, CLEAR_EMERGENCY_STOP]
  }

  function Handle(b: Board, d: Dev, p: Packet, env: Env): (r: Reply)
    requires BoardOk(b) && DevOk(b, d) && EnvOk(b, env)
    ensures Fits(r)
  {
    if p.kind != COMMAND || p.payload == [] then Nacked(d, INVALID_PAYLOAD)
    else
      var command, group := p.payload[0], p.payload[0] / 0x10;
      if IsSystem(command) then System(b, d, command, env)
      else if group == 1 then Digital(b, d, p.payload, env)
      else if group == 2 then Pwm(b, d, p.payload)
      else if group == 3 then Analog(b, d, p.payload, env)
      else if group == 4 then Counter(b, d, p.payload)
      else if group == 5 then Encoder(b, d, p.payload, env)
      else if group == 6 then Subscribing(b, d, p.payload, env)
      else if group == 7 then I2c(b, d, p.payload, env)
      else Nacked(d, UNKNOWN_COMMAND)
  }

  // ---- DAC codes ----

  /** The code a transmission to a DAC carries. */
  function CodeIn(bytes: seq<byte>): u16
    requires |bytes| >= 2
  {
    U16(bytes[|bytes| - 1], bytes[|bytes| - 2])
  }

  /** Something is transmitted if and only if the DAC, the channel and the bus are usable;
      it is then one write to that DAC of the value clamped to its resolution, and the slot
      reads as that code if and only if the bus confirmed it. */
  lemma CodeClamped(b: Board, d: Dev, id: byte, channel: byte, value: u16, env: Env)
    requires DevOk(b, d) && id < MAX_DACS
    ensures var r, s := WriteDacRaw(b, d, id, channel, value, env), d.dacs[id];
            var usable := s.active && channel < s.channels && s.bus < b.wires && d.i2cConfigured[s.bus];
            && r.1 == (usable && env.i2cStatus == 0)
            && (!r.1 ==> r.0.dacs == d.dacs)
            && (!usable ==> r.0 == d)
            && (usable ==>
                  exists bytes: seq<byte> ::
                    && |bytes| == (if s.channels > 1 then 3 else 2)
                    && (s.channels > 1 ==> bytes[0] == channel)
                    && r.0.i2c == d.i2c + [DacWrite(s.bus, s.address, bytes)]
                    && CodeIn(bytes) == Clamp(value, MaxCode(s.resolutionBits))
                    && (r.1 ==> r.0.dacs == d.dacs[id := s.(lastValue := CodeIn(bytes))]))
  {
    hide MaxCode;
    var s := d.dacs[id];
    var max := MaxCode(s.resolutionBits);
    var code: u16 := if value > max then max else value;
    var bytes := DacBytes(s.channels, channel, code);
    assert CodeIn(bytes) == code;
  }

  function Clamp(code: nat, max: nat): nat {
    if code > max then max else code
  }

  /** The exact quotient of the scaling. */
  function Quotient(normalized: u16, max: u16): nat {
    ProductFits(normalized, max);
    normalized * (max as int) / 10000
  }

  /** The values the 16-bit cast spoils, by the DAC's resolution: none up to 13 bits. */
  predicate Spoiled(normalized: u16, resolutionBits: byte) {
    if resolutionBits >= 16 then normalized > 10000
    else if resolutionBits == 15 then
      20001 <= normalized <= 30000 || 40002 <= normalized <= 50001 || normalized >= 60002
    else resolutionBits == 14 && 40003 <= normalized <= 50002
  }

  /** The code sent for a normalized value is the one the exact quotient clamps to if and
      only if the value is none of those. */
  lemma NormalizedExact(normalized: u16, resolutionBits: byte)
    ensures var max := MaxCode(resolutionBits);
            Clamp(NormalizedCode(normalized, max), max) == Clamp(Quotient(normalized, max), max)
            <==> !Spoiled(normalized, resolutionBits)
  {
    hide MaxCode, NormalizedCode;
    var max := MaxCode(resolutionBits);
    MaxCodeValues(resolutionBits);
    ProductFits(normalized, max);
    CodeOfProduct(normalized, max);
    if resolutionBits >= 16 {
      FullScaleSpoils(normalized);
    } else if resolutionBits == 15 {
      Bits15Spoil(normalized);
    } else if resolutionBits == 14 {
      Bits14Spoil(normalized);
    } else {
      SmallCodes(normalized, max);
    }
  }

  lemma MaxCodeValues(resolutionBits: byte)
    ensures resolutionBits >= 16 ==> MaxCode(resolutionBits) == 0xFFFF
    ensures resolutionBits == 15 ==> MaxCode(resolutionBits) == 0x7FFF
    ensures resolutionBits == 14 ==> MaxCode(resolutionBits) == 0x3FFF
    ensures resolutionBits < 14 ==> MaxCode(resolutionBits) <= 0x1FFF
  {
    hide Pow2;
    Pow2Values();
    Pow2Doubles(14);
    Pow2Doubles(13);
    if resolutionBits < 14 {
      Pow2Grows(if resolutionBits == 0 then 12 else resolutionBits, 13);
    }
  }

  lemma {:induction false} Pow2Grows(m: nat, n: nat)
    requires m <= n
    ensures Pow2(m) <= Pow2(n)
    decreases n
  {
    if m < n { Pow2Grows(m, n - 1); }
  }

  lemma CodeOfProduct(normalized: u16, max: u16)
    requires 0 <= normalized * (max as int) < 0x1_0000_0000
    ensures NormalizedCode(normalized, max) == normalized * (max as int) / 10000 % 0x1_0000
  {
    assert Cut32(normalized * (max as int)) == normalized * (max as int);
  }

  /** Up to 13 bits the quotient fits sixteen bits. */
  lemma SmallCodes(normalized: u16, max: u16)
    requires max <= 0x1FFF
    ensures 0 <= normalized * (max as int) / 10000 < 0x1_0000
  {
    Grows(normalized, 0xFFFF, max);
    Grows(max, 0x1FFF, 0xFFFF);
    ProductFits(normalized, max);
    QuotientBound(normalized * (max as int), 0xFFFF, 10000);
  }

  lemma FullScaleSpoils(n: u16)
    ensures Clamp(n * 0xFFFF / 10000 % 0x1_0000, 0xFFFF) == Clamp(n * 0xFFFF / 10000, 0xFFFF) <==> n <= 10000
  {
    var q, t := n * 0xFFFF / 10000, n * 0xFFFF / 10000 / 0x1_0000;
    if n <= 10000 {
      assert q <= 0xFFFF;
    } else {
      assert q > 0xFFFF && 1 <= t <= 6;
      assert q == 0x1_0000 * t + q % 0x1_0000;
      if q % 0x1_0000 == 0xFFFF { NoFullScale(n, t, n * 0xFFFF - 10000 * q); }
    }
  }

  /** No value above 10000 scales to a quotient whose low sixteen bits are all ones. */
  lemma NoFullScale(n: int, t: int, r: int)
    requires 1 <= t <= 6 && 0 <= r < 10000 && n <= 0xFFFF
    ensures n * 0xFFFF != 10000 * (0x1_0000 * t + 0xFFFF) + r
  {
    var z := n - 10000 * t - 10000;
    assert n * 0xFFFF - (10000 * (0x1_0000 * t + 0xFFFF) + r) == 0xFFFF * z - (10000 * t + r);
  }

  lemma Bits15Spoil(n: u16)
    ensures Clamp(n * 0x7FFF / 10000 % 0x1_0000, 0x7FFF) == Clamp(n * 0x7FFF / 10000, 0x7FFF) <==> !Spoiled(n, 15)
  {
  }

  lemma Bits14Spoil(n: u16)
    ensures Clamp(n * 0x3FFF / 10000 % 0x1_0000, 0x3FFF) == Clamp(n * 0x3FFF / 10000, 0x3FFF) <==> !Spoiled(n, 14)
  {
  }

  lemma ProductFits(a: u16, b: u16)
    ensures 0 <= a * (b as int) < 0x1_0000_0000
  {
    Grows(a, 0xFFFF, b);
  }

  /** In the documented range, up to 10000, scaling is exact and stays within the DAC. */
  lemma NormalizedInRange(normalized: u16, max: u16)
    requires normalized <= 10000
    ensures NormalizedCode(normalized, max) == Quotient(normalized, max) <= max
  {
    hide NormalizedCode;
    ProductFits(normalized, max);
    CodeOfProduct(normalized, max);
    Grows(normalized, 10000, max);
    QuotientBound(normalized * (max as int), max, 10000);
  }

  function NormalizedWrite(seqNo: u16, id: byte, channel: byte, normalized: u16): Packet {
    Packet(COMMAND, seqNo, [DAC_WRITE_NORMALIZED, id, channel, Lo(normalized), Hi(normalized)])
  }

  /** Whether a normalized write to the DAC gets as far as its bus. */
  predicate Reaches(b: Board, d: Dev, id: byte, channel: byte)
    requires DevOk(b, d)
  {
    && d.watch.OutputsAllowed() && id < MAX_DACS
    && var s := d.dacs[id]; s.active && channel < s.channels && s.bus < b.wires && d.i2cConfigured[s.bus]
  }

  /** A DacWriteNormalized packet that reaches the bus sends the DAC one write, and its code
      is the exact quotient, clamped to the resolution, if and only if the value is none of
      those the cast spoils for that DAC. */
  lemma NormalizedWriteSends(b: Board, d: Dev, seqNo: u16, id: byte, channel: byte, normalized: u16, env: Env)
    requires BoardOk(b) && DevOk(b, d) && EnvOk(b, env) && Reaches(b, d, id, channel)
    ensures var s, d2 := d.dacs[id], Handle(b, d, NormalizedWrite(seqNo, id, channel, normalized), env).dev;
            var max := MaxCode(s.resolutionBits);
            exists bytes: seq<byte> ::
              && |bytes| >= 2 && d2.i2c == d.i2c + [DacWrite(s.bus, s.address, bytes)]
              && (CodeIn(bytes) == Clamp(Quotient(normalized, max), max) <==> !Spoiled(normalized, s.resolutionBits))
  {
    hide MaxCode, NormalizedCode, WriteDacRaw, EnvOk, Clamp, Spoiled, CodeIn, Fits;
    var s := d.dacs[id];
    var max := MaxCode(s.resolutionBits);
    var code := NormalizedCode(normalized, max);
    NormalizedDispatch(b, d, seqNo, id, channel, normalized, env);
    CodeClamped(b, d, id, channel, code, env);
    NormalizedExact(normalized, s.resolutionBits);
  }

  lemma NormalizedDispatch(b: Board, d: Dev, seqNo: u16, id: byte, channel: byte, normalized: u16, env: Env)
    requires BoardOk(b) && DevOk(b, d) && EnvOk(b, env) && Reaches(b, d, id, channel)
    ensures Handle(b, d, NormalizedWrite(seqNo, id, channel, normalized), env).dev
         == WriteDacRaw(b, d, id, channel, NormalizedCode(normalized, MaxCode(d.dacs[id].resolutionBits)), env).0
  {
    hide MaxCode, NormalizedCode, WriteDacRaw, EnvOk, Fits;
    assert U16(Lo(normalized), Hi(normalized)) == normalized;
  }

  /** Asked for just over full scale, a 16-bit DAC is sent the code 5. */
  lemma NormalizedWraps(b: Board, d: Dev, seqNo: u16, id: byte, channel: byte, env: Env)
    requires BoardOk(b) && DevOk(b, d) && EnvOk(b, env) && Reaches(b, d, id, channel) && d.dacs[id].resolutionBits == 16
    ensures var s, d2 := d.dacs[id], Handle(b, d, NormalizedWrite(seqNo, id, channel, 10001), env).dev;
            d2.i2c == d.i2c + [DacWrite(s.bus, s.address, DacBytes(s.channels, channel, 5))]
  {
    hide MaxCode, EnvOk, Fits, Handle;
    NormalizedDispatch(b, d, seqNo, id, channel, 10001, env);
    MaxCodeValues(16);
    ProductFits(10001, 0xFFFF);
    CodeOfProduct(10001, 0xFFFF);
  }

  // ---- one update ----

  /** Visits the subscription slots from i on. */
  function ServeSlots(b: Board, d: Dev, i: nat, env: Env): Dev
    requires DevOk(b, d) && EnvOk(b, env) && i <= MAX_SUBSCRIPTIONS
    decreases MAX_SUBSCRIPTIONS - i
  {
    if i == MAX_SUBSCRIPTIONS then d
    else ServeSlots(b, ServeSlot(b, d, i, env), i + 1, env)
  }

  function ServeSlot(b: Board, d: Dev, i: nat, env: Env): (r: Dev)
    requires DevOk(b, d) && EnvOk(b, env) && i < MAX_SUBSCRIPTIONS
    ensures DevOk(b, r)
  {
    var s := d.subscriptions[i];
    var served := Serve(s, ReadResource(b, d, s.kind, s.id, env), Millis(env.time), env.micros);
    d.(subscriptions := d.subscriptions[i := served.slot], outbound := PutAll(d.outbound, served.packets))
  }

  /** The packets the slots from i on queue, in order. */
  function QueuedFrom(b: Board, d: Dev, i: nat, env: Env): seq<Packet>
    requires DevOk(b, d) && EnvOk(b, env) && i <= MAX_SUBSCRIPTIONS
    decreases MAX_SUBSCRIPTIONS - i
  {
    if i == MAX_SUBSCRIPTIONS then []
    else QueuedBySlot(b, d, i, env) + QueuedFrom(b, ServeSlot(b, d, i, env), i + 1, env)
  }

  function QueuedBySlot(b: Board, d: Dev, i: nat, env: Env): seq<Packet>
    requires DevOk(b, d) && EnvOk(b, env) && i < MAX_SUBSCRIPTIONS
  {
    var s := d.subscriptions[i];
    Serve(s, ReadResource(b, d, s.kind, s.id, env), Millis(env.time), env.micros).packets
  }

  /** The packets an update queues. */
  function UpdateQueues(b: Board, d: Dev, env: Env): seq<Packet>
    requires DevOk(b, d) && EnvOk(b, env)
  {
    QueuedFrom(b, Flushed(CheckWatchdog(b, d, env), env.rooms[..8]), 0, env)
  }

  function PutAll(queue: seq<Packet>, packets: seq<Packet>): (r: seq<Packet>)
    ensures |queue| <= Outbound.CAPACITY ==> |r| <= Outbound.CAPACITY
    decreases |packets|
  {
    if packets == [] then queue else PutAll(Outbound.Put(queue, packets[0]), packets[1..])
  }

  function CheckWatchdog(b: Board, d: Dev, env: Env): (r: Dev)
    requires DevOk(b, d)
    ensures DevOk(b, r)
  {
    var checked := d.(watch := d.watch.Check(Millis(env.time)));
    if d.watch.OutputsAllowed() && !checked.watch.OutputsAllowed() then SafeOutputs(b, checked) else checked
  }

  function Flushed(d: Dev, rooms: seq<int>): Dev
    requires |rooms| == 8
  {
    d.(outbound := d.outbound[Outbound.FlushCount(d.outbound, rooms, 8)..])
  }

  function Update(b: Board, d: Dev, env: Env): Dev
    requires DevOk(b, d) && EnvOk(b, env)
  {
    Flushed(ServeSlots(b, Flushed(CheckWatchdog(b, d, env), env.rooms[..8]), 0, env), env.rooms[8..])
  }

  /** The packets an update writes, before and after it visits the subscriptions. */
  function UpdateWrites(b: Board, d: Dev, env: Env): seq<Packet>
    requires DevOk(b, d) && EnvOk(b, env)
  {
    var d1 := CheckWatchdog(b, d, env);
    var d2 := ServeSlots(b, Flushed(d1, env.rooms[..8]), 0, env);
    WrittenBy(d1, env.rooms[..8]) + WrittenBy(d2, env.rooms[8..])
  }

  function WrittenBy(d: Dev, rooms: seq<int>): seq<Packet>
    requires |rooms| == 8
  {
    d.outbound[..Outbound.FlushCount(d.outbound, rooms, 8)]
  }
}
