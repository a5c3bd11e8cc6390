/** What each command group, and an update, leaves alone. */
module Footprint {
  import opened Wire
  import opened Frame
  import opened Safety
  import opened Subscriptions
  import opened Device
  import Outbound

  lemma DigitalTouches(b: Board, d: Dev, args: seq<byte>, env: Env)
    requires DevOk(b, d) && EnvOk(b, env) && args != []
    ensures var d2 := Digital(b, d, args, env).dev; DevOk(b, d2) && d2 == d.(level := d2.level)
  {
    hide EnvOk, Fits;
  }

  lemma PwmTouches(b: Board, d: Dev, args: seq<byte>)
    requires BoardOk(b) && DevOk(b, d) && args != []
    ensures var d2 := Pwm(b, d, args).dev; DevOk(b, d2) && d2 == d.(duty := d2.duty, pwmConfigured := d2.pwmConfigured)
  {
    hide Fits;
  }

  lemma AnalogTouches(b: Board, d: Dev, args: seq<byte>, env: Env)
    requires DevOk(b, d) && EnvOk(b, env) && args != []
    ensures var d2 := Analog(b, d, args, env).dev;
            && DevOk(b, d2) && d2 == d.(analogConfigured := d2.analogConfigured, analogSamples := d2.analogSamples)
            && forall i | 0 <= i < b.numPins && d.analogConfigured[i] :: d2.analogConfigured[i]
  {
    hide Average, EnvOk, Fits;
  }

  lemma CounterTouches(b: Board, d: Dev, args: seq<byte>)
    requires DevOk(b, d) && args != []
    ensures var d2 := Counter(b, d, args).dev;
            && DevOk(b, d2) && d2 == d.(counters := d2.counters)
            && forall i | 0 <= i < MAX_COUNTERS ::
                 && (d.counters[i].active ==> d2.counters[i].active)
                 && (d2.counters[i] != d.counters[i] ==>
                       |args| >= 2 && args[1] == i && (args[0] == CONFIG_COUNTER || args[0] == COUNTER_RESET))
  {
    hide Bytes32, Fits;
  }

  lemma EncoderTouches(b: Board, d: Dev, args: seq<byte>, env: Env)
    requires DevOk(b, d) && EnvOk(b, env) && args != []
    ensures var d2 := Encoder(b, d, args, env).dev;
            && DevOk(b, d2) && d2 == d.(encoders := d2.encoders)
            && forall i | 0 <= i < MAX_ENCODERS ::
                 && (d.encoders[i].active ==> d2.encoders[i].active)
                 && (d2.encoders[i] != d.encoders[i] ==>
                       |args| >= 2 && args[1] == i && (args[0] == CONFIG_ENCODER || args[0] == ENCODER_RESET))
  {
    hide PhasesOf, EnvOk, Bytes32, Fits;
  }

  lemma SubscribingTouches(b: Board, d: Dev, args: seq<byte>, env: Env)
    requires DevOk(b, d) && EnvOk(b, env) && args != []
    ensures var d2 := Subscribing(b, d, args, env).dev;
            && DevOk(b, d2) && d2 == d.(subscriptions := d2.subscriptions)
            && (d2.subscriptions != d.subscriptions ==> args[0] == SUBSCRIBE || args[0] == UNSUBSCRIBE)
  {
    hide ReadResource, EnvOk, Fits;
  }

  lemma I2cTouches(b: Board, d: Dev, args: seq<byte>, env: Env)
    requires DevOk(b, d) && args != []
    ensures var d2 := I2c(b, d, args, env).dev;
            && DevOk(b, d2) && d2 == d.(i2cConfigured := d2.i2cConfigured, dacs := d2.dacs, i2c := d2.i2c)
            && forall i | 0 <= i < MAX_DACS && d.dacs[i].active :: d2.dacs[i].active
  {
    hide MaxCode, NormalizedCode, DacBytes, ReadBytes, WriteDacRaw, Fits;
    if args[0] == DAC_WRITE_RAW && |args| >= 5 {
      DacWriteTouches(b, d, args[1], args[2], U16(args[3], args[4]), env);
    } else if args[0] == DAC_WRITE_NORMALIZED && |args| >= 5 && args[1] < MAX_DACS {
      DacWriteTouches(b, d, args[1], args[2],
                      NormalizedCode(U16(args[3], args[4]), MaxCode(d.dacs[args[1]].resolutionBits)), env);
    }
  }

  lemma DacWriteTouches(b: Board, d: Dev, id: byte, channel: byte, value: u16, env: Env)
    requires DevOk(b, d)
    ensures var d2 := WriteDacRaw(b, d, id, channel, value, env).0;
            && DevOk(b, d2) && d2 == d.(dacs := d2.dacs, i2c := d2.i2c)
            && forall i | 0 <= i < MAX_DACS && d.dacs[i].active :: d2.dacs[i].active
  {
    hide MaxCode, DacBytes;
  }

  lemma SystemTouches(b: Board, d: Dev, command: byte, env: Env)
    requires BoardOk(b) && DevOk(b, d)
    ensures var d2 := System(b, d, command, env).dev;
            && DevOk(b, d2)
            && (command != RESET_CONFIG ==> d2 == d.(watch := d2.watch, duty := d2.duty))
  {
    hide Info, Fits;
  }

  lemma {:induction false} ServeSlotsTouches(b: Board, d: Dev, i: nat, env: Env)
    requires DevOk(b, d) && EnvOk(b, env) && i <= MAX_SUBSCRIPTIONS
    ensures var d2 := ServeSlots(b, d, i, env);
            && DevOk(b, d2) && d2 == d.(subscriptions := d2.subscriptions, outbound := d2.outbound)
    decreases MAX_SUBSCRIPTIONS - i
  {
    hide EnvOk, DevOk, Serve, ReadResource, PutAll;
    if i < MAX_SUBSCRIPTIONS {
      ServeSlotsTouches(b, ServeSlot(b, d, i, env), i + 1, env);
    }
  }

  lemma FlushedTouches(b: Board, d: Dev, rooms: seq<int>)
    requires DevOk(b, d) && |rooms| == 8
    ensures var d2 := Flushed(d, rooms); DevOk(b, d2) && d2 == d.(outbound := d2.outbound)
  {
    hide Outbound.FlushCount;
  }

  lemma CheckTouches(b: Board, d: Dev, env: Env)
    requires DevOk(b, d)
    ensures var d2 := CheckWatchdog(b, d, env); DevOk(b, d2) && d2 == d.(watch := d2.watch, duty := d2.duty)
  {
  }

  /** An update touches only latch, duties, subscriptions and the queue of frames. */
  lemma UpdateTouches(b: Board, d: Dev, env: Env)
    requires DevOk(b, d) && EnvOk(b, env)
    ensures var d1 := CheckWatchdog(b, d, env);
            var d2 := Update(b, d, env);
            && DevOk(b, d2) && d2 == d1.(subscriptions := d2.subscriptions, outbound := d2.outbound)
            && d1 == d.(watch := d1.watch, duty := d1.duty)
  {
    hide DevOk, Flushed, ServeSlots, CheckWatchdog;
    CheckTouches(b, d, env);
    var d1 := CheckWatchdog(b, d, env);
    FlushedTouches(b, d1, env.rooms[..8]);
    var d2 := Flushed(d1, env.rooms[..8]);
    ServeSlotsTouches(b, d2, 0, env);
    FlushedTouches(b, ServeSlots(b, d2, 0, env), env.rooms[8..]);
  }

  /** A packet other than a reset of the configuration leaves the queue of frames alone,
      subscriptions but for commands on them, and every counter and encoder but those it
      names; and no resource that can be read stops being readable. */
  lemma HandleTouches(b: Board, d: Dev, p: Packet, env: Env)
    requires BoardOk(b) && DevOk(b, d) && EnvOk(b, env)
    ensures var d2 := Handle(b, d, p, env).dev;
            && DevOk(b, d2)
            && (IsCommand(p, RESET_CONFIG) ==> d2 == Reset(b, d))
            && (!IsCommand(p, RESET_CONFIG) ==>
                  && d2.outbound == d.outbound
                  && ResourcesKept(b, d, d2)
                  && (d2.subscriptions != d.subscriptions ==> IsCommand(p, SUBSCRIBE) || IsCommand(p, UNSUBSCRIBE))
                  && (forall i | 0 <= i < MAX_COUNTERS && d2.counters[i] != d.counters[i] ::
                        |p.payload| >= 2 && p.payload[1] == i && (IsCommand(p, CONFIG_COUNTER) || IsCommand(p, COUNTER_RESET)))
                  && (forall i | 0 <= i < MAX_ENCODERS && d2.encoders[i] != d.encoders[i] ::
                        |p.payload| >= 2 && p.payload[1] == i && (IsCommand(p, CONFIG_ENCODER) || IsCommand(p, ENCODER_RESET))))
  {
    hide System, Digital, Pwm, Analog, Counter, Encoder, Subscribing, I2c, EnvOk, Reset, Fits;
    ResourcesSame(b, d, d);
    if p.kind == COMMAND && p.payload != [] {
      var args, group, d2 := p.payload, p.payload[0] / 0x10, Handle(b, d, p, env).dev;
      if IsSystem(args[0]) {
        SystemTouches(b, d, args[0], env);
        ResetIs(b, d, env);
        if args[0] != RESET_CONFIG { ResourcesSame(b, d, d2); }
      } else if group == 1 {
        DigitalTouches(b, d, args, env);
        ResourcesSame(b, d, d2);
      } else if group == 2 {
        PwmTouches(b, d, args);
        ResourcesSame(b, d, d2);
      } else if group == 3 {
        AnalogTouches(b, d, args, env);
      } else if group == 4 {
        CounterTouches(b, d, args);
      } else if group == 5 {
        EncoderTouches(b, d, args, env);
      } else if group == 6 {
        SubscribingTouches(b, d, args, env);
        ResourcesSame(b, d, d2);
      } else if group == 7 {
        I2cTouches(b, d, args, env);
      }
    }
  }

  /** Resources readable in d are readable in d2. */
  predicate ResourcesKept(b: Board, d: Dev, d2: Dev)
    requires DevOk(b, d) && DevOk(b, d2)
  {
    && (forall i | 0 <= i < b.numPins && d.analogConfigured[i] :: d2.analogConfigured[i])
    && (forall i | 0 <= i < MAX_COUNTERS && d.counters[i].active :: d2.counters[i].active)
    && (forall i | 0 <= i < MAX_ENCODERS && d.encoders[i].active :: d2.encoders[i].active)
    && (forall i | 0 <= i < MAX_DACS && d.dacs[i].active :: d2.dacs[i].active)
  }

  lemma ResetIs(b: Board, d: Dev, env: Env)
    requires BoardOk(b) && DevOk(b, d)
    ensures System(b, d, RESET_CONFIG, env).dev == Reset(b, d)
  {
    hide Reset, Info, Fits;
  }

  lemma ResourcesSame(b: Board, d: Dev, d2: Dev)
    requires DevOk(b, d) && DevOk(b, d2)
    requires d2.analogConfigured == d.analogConfigured && d2.counters == d.counters
    requires d2.encoders == d.encoders && d2.dacs == d.dacs
    ensures ResourcesKept(b, d, d2)
  {
  }
}
