/** The firmware's command handler as an object. */
module Handler {
  import opened Seqs
  import opened Wire
  import opened Frame
  import opened Firmware
  import opened Safety
  import opened Quadrature
  import opened Subscriptions
  import opened Outbound
  import D = Device
  import SafeRuns

  type Dev = D.Dev
  type Env = D.Env

  class CommandHandler {
    const board: D.Board
    const writer: PacketWriter
    const safety: SafetyState
    const outbound: OutboundRing
    var pwmConfigured: seq<bool>
    var analogConfigured: seq<bool>
    var analogSamples: seq<byte>
    var subscriptions: seq<Subscription>
    var i2cConfigured: seq<bool>
    var dacs: seq<D.DacSlot>
    var counters: seq<D.CounterSlot>
    var encoders: seq<EncoderSlot>
    // What the handler's calls made of the hardware.
    var duty: seq<byte>
    var level: seq<bool>
    var i2c: seq<D.Transmission>

    ghost function View(): Dev
      reads this, safety, outbound
    {
      D.Dev(safety.View(), pwmConfigured, analogConfigured, analogSamples, subscriptions, i2cConfigured,
            dacs, counters, encoders, outbound.queue, duty, level, i2c)
    }

    ghost predicate Valid()
      reads this, safety, outbound, outbound.slots
    {
      D.BoardOk(board) && D.DevOk(board, View()) && outbound.Valid()
    }

    /** A packet was answered as r says, once, with the packet's own sequence number. */
    ghost predicate Replied(stream: seq<byte>, seqNo: u16, r: D.Reply)
      reads this, safety, outbound, outbound.slots, writer
    {
      && Valid() && View() == r.dev && D.Fits(r)
      && writer.stream == stream + Encode(Packet(r.kind, seqNo, r.payload))
    }

    constructor (board: D.Board, writer: PacketWriter)
      requires D.BoardOk(board)
      ensures Valid() && View() == SafeRuns.PowerUp(board)
      ensures this.board == board && this.writer == writer
      ensures fresh(safety) && fresh(outbound) && fresh(outbound.slots)
    {
      this.board, this.writer := board, writer;
      safety := new SafetyState();
      outbound := new OutboundRing();
      pwmConfigured := D.Blank(board.numPins, false);
      analogConfigured := D.Blank(board.numPins, false);
      analogSamples := D.Blank(board.numPins, 0);
      subscriptions := D.Blank(D.MAX_SUBSCRIPTIONS, NO_SUBSCRIPTION);
      i2cConfigured := D.Blank(D.MAX_I2C_BUSES, false);
      dacs := D.Blank(D.MAX_DACS, D.NO_DAC);
      counters := D.Blank(D.MAX_COUNTERS, D.NO_COUNTER);
      encoders := D.Blank(D.MAX_ENCODERS, NO_ENCODER);
      duty := D.Blank(board.numPins, 0);
      level := D.Blank(board.numPins, false);
      i2c := [];
    }

    lemma BoardKept()
      requires Valid()
      ensures D.BoardOk(board)
    {
    }

    // ---- replies ----

    method Ack(seqNo: u16)
      modifies writer
      ensures writer.stream == old(writer.stream) + Encode(Packet(ACK, seqNo, [D.OK]))
    {
      writer.Write(ACK, seqNo, [D.OK], 1);
      assert [D.OK][..1] == [D.OK];
    }

    method Nack(seqNo: u16, code: byte)
      modifies writer
      ensures writer.stream == old(writer.stream) + Encode(Packet(NACK, seqNo, [code]))
    {
      writer.Write(NACK, seqNo, [code], 1);
      assert [code][..1] == [code];
    }

    method Data(seqNo: u16, payload: seq<byte>)
      requires |payload| <= MAX_PAYLOAD_SIZE
      modifies writer
      ensures writer.stream == old(writer.stream) + Encode(Packet(DATA, seqNo, payload))
    {
      writer.Write(DATA, seqNo, payload, |payload|);
      assert payload[..|payload|] == payload;
    }

    // ---- handlers ----

    method ApplySafeOutputs()
      requires Valid()
      modifies `duty
      ensures duty == D.Zeroed(old(duty), pwmConfigured)
      ensures Valid()
    {
      ghost var before := duty;
      for pin := 0 to board.numPins
        invariant |duty| == board.numPins
        invariant forall p | 0 <= p < board.numPins ::
                    duty[p] == if p < pin && pwmConfigured[p] then 0 else before[p]
      {
        if pwmConfigured[pin] {
          duty := duty[pin := 0];
        }
      }
      assert duty == D.Zeroed(before, pwmConfigured);
    }

    method HandleSystem(command: byte, p: Packet, env: Env)
      requires Valid() && D.IsSystem(command)
      modifies this, safety, outbound, outbound.slots, writer
      ensures Replied(old(writer.stream), p.seqNo, D.System(board, old(View()), command, env))
    {
      hide Encode, OutboundRing.Valid, D.Reset, D.Info, D.SafeOutputs, D.Blank;
      var now := Millis(env.time);
      if command == D.PING {
        Data(p.seqNo, [0x70, 0x6F, 0x6E, 0x67]);
      } else if command == D.GET_INFO {
        Data(p.seqNo, D.Info(board));
      } else if command == D.HEARTBEAT {
        safety.Heartbeat(now);
        Ack(p.seqNo);
      } else if command == D.EMERGENCY_STOP {
        StopOutputs();
        Ack(p.seqNo);
      } else if command == D.CLEAR_EMERGENCY_STOP {
        safety.ClearEmergencyStop(now);
        Ack(p.seqNo);
      } else {
        ResetConfig();
        Ack(p.seqNo);
      }
    }

    method StopOutputs()
      requires Valid()
      modifies this, safety
      ensures Valid() && View() == D.SafeOutputs(board, old(View())).(watch := old(View()).watch.Latch())
    {
      safety.EmergencyStop();
      ApplySafeOutputs();
    }

    method ResetConfig()
      requires Valid()
      modifies this, outbound, outbound.slots
      ensures Valid() && View() == D.Reset(board, old(View()))
    {
      hide D.DevOk, D.Blank, D.Zeroed, OutboundRing.Valid, D.BoardOk;
      D.ResetOk(board, View());
      ApplySafeOutputs();
      ClearTables();
      outbound.Reset();
      assert View() == D.Reset(board, old(View()));
    }

    /** Every table is as at power-up. */
    method ClearTables()
      modifies `counters, `pwmConfigured, `analogConfigured, `analogSamples, `encoders, `subscriptions, `i2cConfigured, `dacs
      ensures counters == D.Blank(D.MAX_COUNTERS, D.NO_COUNTER) && encoders == D.Blank(D.MAX_ENCODERS, NO_ENCODER)
      ensures pwmConfigured == D.Blank(board.numPins, false) && analogConfigured == D.Blank(board.numPins, false)
      ensures analogSamples == D.Blank(board.numPins, 0) && subscriptions == D.Blank(D.MAX_SUBSCRIPTIONS, NO_SUBSCRIPTION)
      ensures i2cConfigured == D.Blank(D.MAX_I2C_BUSES, false) && dacs == D.Blank(D.MAX_DACS, D.NO_DAC)
    {
      counters := D.Blank(D.MAX_COUNTERS, D.NO_COUNTER);
      pwmConfigured := D.Blank(board.numPins, false);
      analogConfigured := D.Blank(board.numPins, false);
      analogSamples := D.Blank(board.numPins, 0);
      encoders := D.Blank(D.MAX_ENCODERS, NO_ENCODER);
      subscriptions := D.Blank(D.MAX_SUBSCRIPTIONS, NO_SUBSCRIPTION);
      i2cConfigured := D.Blank(D.MAX_I2C_BUSES, false);
      dacs := D.Blank(D.MAX_DACS, D.NO_DAC);
    }

    method HandleDigital(command: byte, p: Packet, env: Env)
      requires Valid() && D.EnvOk(board, env) && p.payload != [] && command == p.payload[0]
      modifies this, writer
      ensures Replied(old(writer.stream), p.seqNo, D.Digital(board, old(View()), p.payload, env))
    {
      hide Encode, OutboundRing.Valid;
      if command == D.CONFIG_DIGITAL_OUTPUT {
        if |p.payload| < 3 { Nack(p.seqNo, D.INVALID_PAYLOAD); return; }
        var pin, initial := p.payload[1], p.payload[2] != 0;
        if initial && !safety.OutputsAllowed() { Nack(p.seqNo, D.EMERGENCY_STOP_ACTIVE); return; }
        if pin >= board.numPins { Nack(p.seqNo, D.INVALID_PIN); return; }
        level := level[pin := initial];
        Ack(p.seqNo);
      } else if command == D.CONFIG_DIGITAL_INPUT {
        if |p.payload| < 3 { Nack(p.seqNo, D.INVALID_PAYLOAD); return; }
        if p.payload[1] >= board.numPins { Nack(p.seqNo, D.INVALID_PIN); return; }
        Ack(p.seqNo);
      } else if command == D.DIGITAL_READ {
        if |p.payload| < 2 { Nack(p.seqNo, D.INVALID_PAYLOAD); return; }
        var pin := p.payload[1];
        if pin >= board.numPins { Nack(p.seqNo, D.INVALID_PIN); return; }
        Data(p.seqNo, [if env.high[pin] then 1 else 0]);
      } else if command == D.DIGITAL_WRITE {
        if |p.payload| < 3 { Nack(p.seqNo, D.INVALID_PAYLOAD); return; }
        if !safety.OutputsAllowed() { Nack(p.seqNo, D.EMERGENCY_STOP_ACTIVE); return; }
        var pin, value := p.payload[1], p.payload[2] != 0;
        if pin >= board.numPins { Nack(p.seqNo, D.INVALID_PIN); return; }
        level := level[pin := value];
        Ack(p.seqNo);
      } else {
        Nack(p.seqNo, D.UNKNOWN_COMMAND);
      }
    }

    method HandlePwm(command: byte, p: Packet)
      requires Valid() && p.payload != [] && command == p.payload[0]
      modifies this, writer
      ensures Replied(old(writer.stream), p.seqNo, D.Pwm(board, old(View()), p.payload))
    {
      hide Encode, OutboundRing.Valid;
      if command == D.CONFIG_PWM {
        if |p.payload| < 7 { Nack(p.seqNo, D.INVALID_PAYLOAD); return; }
        var pin, newDuty := p.payload[1], p.payload[6];
        if newDuty > 0 && !safety.OutputsAllowed() { Nack(p.seqNo, D.EMERGENCY_STOP_ACTIVE); return; }
        if !D.IsPwmPin(board, pin) { Nack(p.seqNo, D.INVALID_PIN); return; }
        duty := duty[pin := newDuty];
        pwmConfigured := pwmConfigured[pin := true];
        Ack(p.seqNo);
      } else if command == D.PWM_WRITE {
        if |p.payload| < 3 { Nack(p.seqNo, D.INVALID_PAYLOAD); return; }
        if !safety.OutputsAllowed() { Nack(p.seqNo, D.EMERGENCY_STOP_ACTIVE); return; }
        var pin, newDuty := p.payload[1], p.payload[2];
        if !D.IsPwmPin(board, pin) || !pwmConfigured[pin] { Nack(p.seqNo, D.INVALID_PIN); return; }
        duty := duty[pin := newDuty];
        Ack(p.seqNo);
      } else if command == D.PWM_DISABLE {
        if |p.payload| < 2 { Nack(p.seqNo, D.INVALID_PAYLOAD); return; }
        var pin := p.payload[1];
        if !D.IsPwmPin(board, pin) { Nack(p.seqNo, D.INVALID_PIN); return; }
        duty := duty[pin := 0];
        pwmConfigured := pwmConfigured[pin := false];
        Ack(p.seqNo);
      } else {
        Nack(p.seqNo, D.UNKNOWN_COMMAND);
      }
    }

    /** The mean of a pin's conversions. */
    method SampleAnalog(pin: byte, env: Env) returns (raw: nat)
      requires Valid() && D.EnvOk(board, env) && pin < board.numPins
      ensures raw == D.Average(board, View(), pin, env)
    {
      var samples := if analogSamples[pin] == 0 then 1 else analogSamples[pin];
      raw := MeanOf(D.Conversions(board, env, pin), samples);
    }

    method HandleAnalog(command: byte, p: Packet, env: Env)
      requires Valid() && D.EnvOk(board, env) && p.payload != [] && command == p.payload[0]
      modifies this, writer
      ensures Replied(old(writer.stream), p.seqNo, D.Analog(board, old(View()), p.payload, env))
    {
      hide Encode, OutboundRing.Valid, D.Average;
      if command == D.CONFIG_ANALOG {
        if |p.payload| < 3 { Nack(p.seqNo, D.INVALID_PAYLOAD); return; }
        var pin := p.payload[1];
        var samples := if p.payload[2] == 0 then 1 else p.payload[2];
        if pin >= board.numPins { Nack(p.seqNo, D.INVALID_PIN); return; }
        analogConfigured := analogConfigured[pin := true];
        analogSamples := analogSamples[pin := samples];
        Ack(p.seqNo);
      } else if command == D.ANALOG_READ {
        if |p.payload| < 2 { Nack(p.seqNo, D.INVALID_PAYLOAD); return; }
        var pin := p.payload[1];
        if pin >= board.numPins || !analogConfigured[pin] { Nack(p.seqNo, D.INVALID_PIN); return; }
        D.AverageBound(board, View(), pin, env);
        var raw := SampleAnalog(pin, env);
        var normalized := raw * 10000 / D.ADC_MAX_VALUE;
        Data(p.seqNo, [Lo(raw), Hi(raw), Lo(normalized), Hi(normalized)]);
      } else {
        Nack(p.seqNo, D.UNKNOWN_COMMAND);
      }
    }

    method HandleCounter(command: byte, p: Packet)
      requires Valid() && p.payload != [] && command == p.payload[0]
      modifies this, writer
      ensures Replied(old(writer.stream), p.seqNo, D.Counter(board, old(View()), p.payload))
    {
      hide Encode, OutboundRing.Valid, Bytes32;
      var valid := |p.payload| >= 2 && p.payload[1] < D.MAX_COUNTERS && counters[p.payload[1]].active;
      if command == D.CONFIG_COUNTER {
        if |p.payload| < 4 { Nack(p.seqNo, D.INVALID_PAYLOAD); return; }
        var id, pin, edge := p.payload[1], p.payload[2], p.payload[3];
        if id >= D.MAX_COUNTERS || pin >= board.numPins { Nack(p.seqNo, D.INVALID_PIN); return; }
        counters := counters[id := D.CounterSlot(true, pin, edge, 0, 0, 0)];
        Ack(p.seqNo);
      } else if command == D.COUNTER_READ {
        if !valid { Nack(p.seqNo, D.INVALID_PAYLOAD); return; }
        Data(p.seqNo, Bytes32(counters[p.payload[1]].count));
      } else if command == D.COUNTER_RESET {
        if !valid { Nack(p.seqNo, D.INVALID_PAYLOAD); return; }
        var id := p.payload[1];
        counters := counters[id := counters[id].(count := 0, lastEdgeUs := 0, periodUs := 0)];
        Ack(p.seqNo);
      } else if command == D.COUNTER_FREQUENCY {
        if !valid { Nack(p.seqNo, D.INVALID_PAYLOAD); return; }
        var periodUs := counters[p.payload[1]].periodUs;
        var milliHz := if periodUs == 0 then 0 else 1000000000 / periodUs;
        Data(p.seqNo, Bytes32(milliHz));
      } else {
        Nack(p.seqNo, D.UNKNOWN_COMMAND);
      }
    }

    method HandleEncoder(command: byte, p: Packet, env: Env)
      requires Valid() && D.EnvOk(board, env) && p.payload != [] && command == p.payload[0]
      modifies this, writer
      ensures Replied(old(writer.stream), p.seqNo, D.Encoder(board, old(View()), p.payload, env))
    {
      hide Encode, OutboundRing.Valid, Bytes32;
      var valid := |p.payload| >= 2 && p.payload[1] < D.MAX_ENCODERS && encoders[p.payload[1]].active;
      if command == D.CONFIG_ENCODER {
        if |p.payload| < 5 { Nack(p.seqNo, D.INVALID_PAYLOAD); return; }
        var id, pinA, pinB, mode := p.payload[1], p.payload[2], p.payload[3], p.payload[4];
        if id >= D.MAX_ENCODERS || pinA >= board.numPins || pinB >= board.numPins {
          Nack(p.seqNo, D.INVALID_PIN);
          return;
        }
        encoders := encoders[id := EncoderSlot(true, pinA, pinB, mode, 0, D.PhasesOf(board, env, pinA, pinB))];
        Ack(p.seqNo);
      } else if command == D.ENCODER_READ {
        if !valid { Nack(p.seqNo, D.INVALID_PAYLOAD); return; }
        Data(p.seqNo, Bytes32(encoders[p.payload[1]].position));
      } else if command == D.ENCODER_RESET {
        if !valid { Nack(p.seqNo, D.INVALID_PAYLOAD); return; }
        encoders := encoders[p.payload[1] := encoders[p.payload[1]].(position := 0)];
        Ack(p.seqNo);
      } else {
        Nack(p.seqNo, D.UNKNOWN_COMMAND);
      }
    }

    method ReadResourceValue(kind: byte, id: byte, env: Env) returns (value: Option<i32>)
      requires Valid() && D.EnvOk(board, env)
      ensures value == D.ReadResource(board, View(), kind, id, env)
    {
      hide D.Average;
      if kind == DIGITAL {
        if id >= board.numPins { return None; }
        return Some(if env.high[id] then 1 else 0);
      } else if kind == ANALOG {
        if id >= board.numPins || !analogConfigured[id] { return None; }
        D.AverageBound(board, View(), id, env);
        var raw := SampleAnalog(id, env);
        return Some(raw);
      } else if kind == COUNTER {
        if id >= D.MAX_COUNTERS || !counters[id].active { return None; }
        return Some(counters[id].count);
      } else if kind == ENCODER {
        if id >= D.MAX_ENCODERS || !encoders[id].active { return None; }
        return Some(encoders[id].position);
      } else if kind == DAC {
        if id >= D.MAX_DACS || !dacs[id].active { return None; }
        return Some(dacs[id].lastValue);
      } else {
        return None;
      }
    }

    method HandleSubscription(command: byte, p: Packet, env: Env)
      requires Valid() && D.EnvOk(board, env) && p.payload != [] && command == p.payload[0]
      modifies this, writer
      ensures Replied(old(writer.stream), p.seqNo, D.Subscribing(board, old(View()), p.payload, env))
    {
      hide Encode, OutboundRing.Valid, D.ReadResource;
      if command == D.SUBSCRIBE {
        if |p.payload| < 6 { Nack(p.seqNo, D.INVALID_PAYLOAD); return; }
        var kind, id := p.payload[1], p.payload[2];
        var rateHz, flags := U16(p.payload[3], p.payload[4]), p.payload[5];
        var value := ReadResourceValue(kind, id, env);
        if value.None? { Nack(p.seqNo, D.INVALID_PAYLOAD); return; }
        for i := 0 to D.MAX_SUBSCRIPTIONS
          invariant forall j | 0 <= j < i :: subscriptions[j].active
          invariant View() == old(View()) && writer.stream == old(writer.stream)
        {
          if !subscriptions[i].active {
            FreeSlotIs(subscriptions, i);
            subscriptions := subscriptions[i := subscriptions[i].(
              active := true, kind := kind, id := id, rateHz := rateHz, flags := flags,
              nextDueMs := Millis(env.time), hasLastValue := false)];
            Ack(p.seqNo);
            return;
          }
        }
        FreeSlotIs(subscriptions, D.MAX_SUBSCRIPTIONS);
        Nack(p.seqNo, D.RESOURCE_UNAVAILABLE);
      } else if command == D.UNSUBSCRIBE {
        if |p.payload| < 3 { Nack(p.seqNo, D.INVALID_PAYLOAD); return; }
        var kind, id := p.payload[1], p.payload[2];
        RemoveSubscriptions(kind, id);
        Ack(p.seqNo);
      } else {
        Nack(p.seqNo, D.UNKNOWN_COMMAND);
      }
    }

    /** The loop of Unsubscribe. */
    method RemoveSubscriptions(kind: byte, id: byte)
      modifies `subscriptions
      ensures subscriptions == D.Without(old(subscriptions), kind, id)
    {
      hide D.Without;
      ghost var before, after := subscriptions, D.Without(subscriptions, kind, id);
      for i := 0 to |subscriptions|
        invariant |subscriptions| == |before| == |after|
        invariant forall j | 0 <= j < i :: subscriptions[j] == after[j]
        invariant forall j | i <= j < |before| :: subscriptions[j] == before[j]
      {
        if subscriptions[i].active && subscriptions[i].kind == kind && subscriptions[i].id == id {
          subscriptions := subscriptions[i := NO_SUBSCRIPTION];
        }
      }
      assert subscriptions == after;
    }

    method WriteDacRaw(id: byte, channel: byte, value: u16, env: Env) returns (ok: bool)
      requires Valid()
      modifies `i2c, `dacs
      ensures Valid()
      ensures (View(), ok) == D.WriteDacRaw(board, old(View()), id, channel, value, env)
    {
      hide D.MaxCode, D.DacBytes;
      if id >= D.MAX_DACS || !dacs[id].active || channel >= dacs[id].channels { return false; }
      if dacs[id].bus >= board.wires || !i2cConfigured[dacs[id].bus] { return false; }
      var maxValue := D.MaxCode(dacs[id].resolutionBits);
      var code := if value > maxValue then maxValue else value;
      i2c := i2c + [D.DacWrite(dacs[id].bus, dacs[id].address, D.DacBytes(dacs[id].channels, channel, code))];
      if env.i2cStatus != 0 { return false; }
      dacs := dacs[id := dacs[id].(lastValue := code)];
      return true;
    }

    method HandleI2c(command: byte, p: Packet, env: Env)
      requires Valid() && D.EnvOk(board, env) && p.payload != [] && command == p.payload[0]
      modifies this, writer
      ensures Replied(old(writer.stream), p.seqNo, D.I2c(board, old(View()), p.payload, env))
    {
      hide Encode, OutboundRing.Valid, D.MaxCode, D.NormalizedCode, D.WriteDacRaw;
      if command == D.CONFIG_I2C_BUS {
        if |p.payload| < 6 { Nack(p.seqNo, D.INVALID_PAYLOAD); return; }
        var bus := p.payload[1];
        if bus >= D.MAX_I2C_BUSES || bus >= board.wires { Nack(p.seqNo, D.INVALID_PAYLOAD); return; }
        i2cConfigured := i2cConfigured[bus := true];
        Ack(p.seqNo);
      } else if command == D.I2C_WRITE {
        HandleI2cWrite(p, env);
      } else if command == D.I2C_READ {
        HandleI2cRead(p, env);
      } else if command == D.CONFIG_DAC {
        if |p.payload| < 6 { Nack(p.seqNo, D.INVALID_PAYLOAD); return; }
        var id, bus, address := p.payload[1], p.payload[2], p.payload[3];
        var channels, resolution := p.payload[4], p.payload[5];
        if id >= D.MAX_DACS || bus >= D.MAX_I2C_BUSES || !i2cConfigured[bus]
           || channels == 0 || resolution == 0 || resolution > 16 {
          Nack(p.seqNo, D.INVALID_PAYLOAD);
          return;
        }
        dacs := dacs[id := D.DacSlot(true, bus, address, channels, resolution, 0)];
        Ack(p.seqNo);
      } else if command == D.DAC_WRITE_RAW || command == D.DAC_WRITE_NORMALIZED {
        HandleDacWrite(command, p, env);
      } else {
        Nack(p.seqNo, D.UNKNOWN_COMMAND);
      }
    }

    method HandleI2cWrite(p: Packet, env: Env)
      requires Valid() && D.EnvOk(board, env) && p.payload != [] && p.payload[0] == D.I2C_WRITE
      modifies this, writer
      ensures Replied(old(writer.stream), p.seqNo, D.I2c(board, old(View()), p.payload, env))
    {
      hide Encode, OutboundRing.Valid, D.MaxCode, D.NormalizedCode, D.WriteDacRaw;
      if |p.payload| < 4 { Nack(p.seqNo, D.INVALID_PAYLOAD); return; }
      var bus, address, length: int := p.payload[1], p.payload[2], p.payload[3];
      if bus >= D.MAX_I2C_BUSES || !i2cConfigured[bus] || |p.payload| < 4 + length || bus >= board.wires {
        Nack(p.seqNo, D.INVALID_PAYLOAD);
        return;
      }
      i2c := i2c + [D.RawWrite(bus, address, p.payload[4..4 + length])];
      if env.i2cStatus != 0 { Nack(p.seqNo, D.RESOURCE_UNAVAILABLE); return; }
      Ack(p.seqNo);
    }

    method HandleI2cRead(p: Packet, env: Env)
      requires Valid() && D.EnvOk(board, env) && p.payload != [] && p.payload[0] == D.I2C_READ
      modifies this, writer
      ensures Replied(old(writer.stream), p.seqNo, D.I2c(board, old(View()), p.payload, env))
    {
      hide Encode, OutboundRing.Valid, D.MaxCode, D.NormalizedCode, D.WriteDacRaw, D.ReadBytes;
      if |p.payload| < 4 { Nack(p.seqNo, D.INVALID_PAYLOAD); return; }
      var bus, length := p.payload[1], p.payload[3];
      if bus >= D.MAX_I2C_BUSES || !i2cConfigured[bus] || length > MAX_PAYLOAD_SIZE || bus >= board.wires {
        Nack(p.seqNo, D.INVALID_PAYLOAD);
        return;
      }
      var received := if env.i2cCount < length then env.i2cCount else length;
      var payload := ReadInto(received, env.i2cReceived);
      Data(p.seqNo, payload[..received]);
    }

    method HandleDacWrite(command: byte, p: Packet, env: Env)
      requires Valid() && D.EnvOk(board, env) && p.payload != [] && p.payload[0] == command
      requires command == D.DAC_WRITE_RAW || command == D.DAC_WRITE_NORMALIZED
      modifies this, writer
      ensures Replied(old(writer.stream), p.seqNo, D.I2c(board, old(View()), p.payload, env))
    {
      hide Encode, OutboundRing.Valid, D.MaxCode, D.NormalizedCode, D.WriteDacRaw;
      if |p.payload| < 5 { Nack(p.seqNo, D.INVALID_PAYLOAD); return; }
      if !safety.OutputsAllowed() { Nack(p.seqNo, D.EMERGENCY_STOP_ACTIVE); return; }
      var id, channel := p.payload[1], p.payload[2];
      var value := U16(p.payload[3], p.payload[4]);
      if command == D.DAC_WRITE_NORMALIZED {
        if id >= D.MAX_DACS || !dacs[id].active { Nack(p.seqNo, D.INVALID_PAYLOAD); return; }
        value := D.NormalizedCode(value, D.MaxCode(dacs[id].resolutionBits));
      }
      var ok := WriteDacRaw(id, channel, value, env);
      if !ok { Nack(p.seqNo, D.RESOURCE_UNAVAILABLE); return; }
      Ack(p.seqNo);
    }

    /** Dispatches one packet; whatever it holds it is answered exactly once. */
    method Handle(p: Packet, env: Env)
      requires Valid() && D.EnvOk(board, env)
      modifies this, safety, outbound, outbound.slots, writer
      ensures Replied(old(writer.stream), p.seqNo, D.Handle(board, old(View()), p, env))
    {
      hide Encode, OutboundRing.Valid, D.System, D.Digital, D.Pwm, D.Analog, D.Counter, D.Encoder, D.Subscribing, D.I2c, D.EnvOk;
      if p.kind != COMMAND || |p.payload| == 0 {
        Nack(p.seqNo, D.INVALID_PAYLOAD);
        return;
      }
      var command := p.payload[0];
      var group := command / 0x10;
      if D.IsSystem(command) {
        HandleSystem(command, p, env);
      } else if group == 1 {
        HandleDigital(command, p, env);
      } else if group == 2 {
        HandlePwm(command, p);
      } else if group == 3 {
        HandleAnalog(command, p, env);
      } else if group == 4 {
        HandleCounter(command, p);
      } else if group == 5 {
        HandleEncoder(command, p, env);
      } else if group == 6 {
        HandleSubscription(command, p, env);
      } else if group == 7 {
        HandleI2c(command, p, env);
      } else {
        Nack(p.seqNo, D.UNKNOWN_COMMAND);
      }
    }

    // ---- update ----

    /** Queues the event a new value makes a slot report, if any. */
    method ReportChange(s: Subscription, value: i32, micros: u32)
      requires outbound.Valid()
      modifies outbound, outbound.slots
      ensures outbound.Valid()
      ensures outbound.queue == D.PutAll(old(outbound.queue), EventsFor(s, value, micros))
    {
      hide Bytes32, Put;
      if OnChange(s.flags) && s.hasLastValue && value != s.lastValue {
        var shouldEmit := true;
        if s.kind == DIGITAL {
          var rising := s.lastValue == 0 && value != 0;
          var falling := s.lastValue != 0 && value == 0;
          var wantsRising, wantsFalling := WantsRising(s.flags), WantsFalling(s.flags);
          shouldEmit := (rising && wantsRising) || (falling && wantsFalling) || (!wantsRising && !wantsFalling);
        }
        if shouldEmit {
          var _ := outbound.QueueAsync(EVENT, [s.kind, s.id] + Bytes32(value) + Bytes32(micros));
        }
      }
    }

    /** Visits one subscription slot. */
    method ServeSlot(i: nat, env: Env)
      requires Valid() && D.EnvOk(board, env) && i < D.MAX_SUBSCRIPTIONS
      modifies `subscriptions, outbound, outbound.slots
      ensures Valid() && View() == D.ServeSlot(board, old(View()), i, env)
    {
      hide D.ReadResource, Bytes32, D.EnvOk, Put, D.PutAll, EmitsEvent, OutboundRing.Valid;
      var s := subscriptions[i];
      var now := Millis(env.time);
      ghost var queue0 := outbound.queue;
      PutNothing(queue0);
      if !s.active { return; }
      var reading := ReadResourceValue(s.kind, s.id, env);
      if reading.None? {
        subscriptions := subscriptions[i := NO_SUBSCRIPTION];
        return;
      }
      var value := reading.value;
      ReportChange(s, value, env.micros);
      ghost var events := EventsFor(s, value, env.micros);
      var seen := s.(lastValue := value, hasLastValue := true);
      if s.rateHz != 0 && now >= s.nextDueMs {
        var _ := outbound.QueueAsync(TELEMETRY, [s.kind, s.id] + Bytes32(value));
        seen := seen.(nextDueMs := Cut32(now + if 1000 / s.rateHz == 0 then 1 else 1000 / s.rateHz));
        PutAllThenOne(queue0, events, TelemetryPacket(s, value));
      }
      subscriptions := subscriptions[i := seen];
    }

    method UpdateSubscriptions(env: Env)
      requires Valid() && D.EnvOk(board, env)
      modifies `subscriptions, outbound, outbound.slots
      ensures Valid() && View() == D.ServeSlots(board, old(View()), 0, env)
    {
      hide D.EnvOk, D.DevOk, D.ServeSlot, D.BoardOk;
      for i := 0 to D.MAX_SUBSCRIPTIONS
        invariant Valid()
        invariant D.DevOk(board, View()) && D.ServeSlots(board, View(), i, env) == D.ServeSlots(board, old(View()), 0, env)
      {
        ServeSlot(i, env);
      }
    }

    method CheckSafety(env: Env)
      requires Valid()
      modifies `duty, safety
      ensures Valid() && View() == D.CheckWatchdog(board, old(View()), env)
    {
      hide D.Zeroed, OutboundRing.Valid;
      var allowedBefore := safety.OutputsAllowed();
      safety.Update(Millis(env.time));
      if allowedBefore && !safety.OutputsAllowed() {
        ApplySafeOutputs();
      }
    }

    method Update(env: Env)
      requires Valid() && D.EnvOk(board, env)
      modifies this, safety, outbound, outbound.slots, writer
      ensures Valid() && View() == D.Update(board, old(View()), env)
      ensures var sent := D.UpdateWrites(board, old(View()), env);
              AllSendable(sent) && writer.stream == old(writer.stream) + Frames(sent)
    {
      hide D.ServeSlots, Encode, Frames, D.WrittenBy, D.CheckWatchdog, D.DevOk, D.BoardOk, OutboundRing.Valid, AllSendable, D.Flushed,
           D.Update, D.UpdateWrites;
      ghost var stream := writer.stream;
      UpdateInParts(board, View(), env);
      CheckSafety(env);
      ghost var first := D.WrittenBy(View(), env.rooms[..8]);
      FlushEight(env.rooms[..8]);
      UpdateSubscriptions(env);
      ghost var second := D.WrittenBy(View(), env.rooms[8..]);
      FlushEight(env.rooms[8..]);
      StreamInParts(stream, first, second);
    }

    method FlushEight(rooms: seq<int>)
      requires Valid() && |rooms| == 8
      modifies outbound, outbound.slots, writer
      ensures Valid() && View() == D.Flushed(old(View()), rooms)
      ensures var sent := D.WrittenBy(old(View()), rooms);
              AllSendable(sent) && writer.stream == old(writer.stream) + Frames(sent)
    {
      hide FlushCount, Encode, Frames;
      outbound.FlushAsync(writer, rooms, 8);
    }

    // ---- interrupts ----

    method CounterTick(id: byte, now: u32)
      requires Valid()
      modifies `counters
      ensures Valid() && View() == SafeRuns.Next(board, old(View()), SafeRuns.CounterEdge(id, now))
    {
      if id >= D.MAX_COUNTERS || !counters[id].active { return; }
      var c := counters[id];
      var previous := c.lastEdgeUs;
      c := c.(count := Wrap32(c.count + 1));
      if previous != 0 {
        c := c.(periodUs := Cut32(now - previous));
      }
      counters := counters[id := c.(lastEdgeUs := now)];
    }

    method EncoderTick(id: byte, env: Env)
      requires Valid() && D.EnvOk(board, env)
      modifies `encoders
      ensures Valid() && View() == SafeRuns.Next(board, old(View()), SafeRuns.EncoderEdge(id, env))
    {
      if id >= D.MAX_ENCODERS || !encoders[id].active { return; }
      var e := encoders[id];
      var current := D.PhasesOf(board, env, e.pinA, e.pinB);
      var delta := Delta(e.lastState, current);
      encoders := encoders[id := e.(position := Wrap32(e.position + delta), lastState := current)];
    }
  }

  function EventsFor(s: Subscription, value: i32, micros: u32): seq<Packet> {
    if EmitsEvent(s, value) then [EventPacket(s, value, micros)] else []
  }

  lemma PutNothing(queue: seq<Packet>)
    ensures D.PutAll(queue, []) == queue
  {
  }

  lemma {:induction false} PutAllThenOne(queue: seq<Packet>, packets: seq<Packet>, p: Packet)
    ensures D.PutAll(queue, packets + [p]) == Put(D.PutAll(queue, packets), p)
    decreases |packets|
  {
    hide Put;
    if packets == [] {
      assert [] + [p] == [p] && [p][1..] == [];
    } else {
      assert (packets + [p])[1..] == packets[1..] + [p];
      PutAllThenOne(Put(queue, packets[0]), packets[1..], p);
    }
  }

  /** The steps of an update, as values. */
  lemma UpdateInParts(b: D.Board, d: Dev, env: Env)
    requires D.DevOk(b, d) && D.EnvOk(b, env)
    ensures |env.rooms| == 16
    ensures var d1 := D.CheckWatchdog(b, d, env);
            var d2 := D.Flushed(d1, env.rooms[..8]);
            && D.DevOk(b, d2)
            && var d3 := D.ServeSlots(b, d2, 0, env);
               && D.Update(b, d, env) == D.Flushed(d3, env.rooms[8..])
               && D.UpdateWrites(b, d, env) == D.WrittenBy(d1, env.rooms[..8]) + D.WrittenBy(d3, env.rooms[8..])
  {
    hide D.ServeSlots, D.WrittenBy, D.CheckWatchdog;
  }

  lemma StreamInParts(stream: seq<byte>, first: seq<Packet>, second: seq<Packet>)
    requires AllSendable(first) && AllSendable(second)
    ensures AllSendable(first + second) && stream + Frames(first) + Frames(second) == stream + Frames(first + second)
  {
    hide Encode, Frames;
    FramesJoin(first, second);
    Associates(stream, Frames(first), Frames(second));
  }

  /** The loop that reads from the bus into a zeroed buffer. */
  method ReadInto(received: byte, available: seq<byte>) returns (payload: array<byte>)
    requires received <= MAX_PAYLOAD_SIZE
    ensures fresh(payload) && payload.Length == MAX_PAYLOAD_SIZE
    ensures payload[..received] == D.ReadBytes(received, available)
  {
    payload := new byte[128](_ => 0);
    var i := 0;
    while i < received && i < |available|
      invariant i <= received && i <= |available|
      invariant payload[..i] == available[..i]
      invariant forall k | i <= k < payload.Length :: payload[k] == 0
    {
      payload[i] := available[i];
      i := i + 1;
    }
    assert payload[..received] == payload[..i] + payload[i..received];
    assert received > |available| ==> payload[i..received] == D.Blank(received - |available|, 0);
  }

  /** The sampling loop. */
  method MeanOf(conversions: seq<nat>, samples: nat) returns (mean: nat)
    requires 0 < samples <= |conversions|
    ensures mean == D.Sum(conversions[..samples]) / samples
  {
    var total := 0;
    for i := 0 to samples
      invariant total == D.Sum(conversions[..i])
    {
      assert conversions[..i + 1][..i] == conversions[..i];
      total := total + conversions[i];
    }
    mean := total / samples;
  }

  lemma FreeSlotIs(subs: seq<Subscription>, i: nat)
    requires i <= |subs| && (forall j | 0 <= j < i :: subs[j].active) && (i < |subs| ==> !subs[i].active)
    ensures D.FreeSlot(subs) == i
  {
  }
}
