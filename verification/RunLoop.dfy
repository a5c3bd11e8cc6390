/** The firmware's run loop: bytes in, packets handled, interrupts served, updates made. */
module RunLoop {
  import opened Seqs
  import opened Wire
  import opened Frame
  import opened Firmware
  import opened Device
  import opened SafeRuns
  import opened Answers
  import Handler
  import Outbound

  /** What reaches the firmware: a byte on the serial port, an interrupt, or its own call of
      update(). */
  datatype Input =
    | Byte(byte: byte, env: Env)
    | CounterPulse(id: byte, micros: u32)
    | EncoderPulse(id: byte, env: Env)
    | UpdateCall(env: Env)

  predicate InputOk(b: Board, input: Input) {
    input.CounterPulse? || EnvOk(b, input.env)
  }

  predicate InputsOk(b: Board, inputs: seq<Input>) {
    forall i | 0 <= i < |inputs| :: InputOk(b, inputs[i])
  }

  /** What an input is to the device: a byte is something only if it completes a packet. */
  function Happenings(pending: seq<byte>, input: Input): seq<Happening>
    requires Pending(pending)
  {
    match input
    case Byte(byte, env) =>
      var packet := Push(pending, byte).packet;
      if packet.Some? then [Received(packet.value, env)] else []
    case CounterPulse(id, micros) => [CounterEdge(id, micros)]
    case EncoderPulse(id, env) => [EncoderEdge(id, env)]
    case UpdateCall(env) => [Updating(env)]
  }

  function PendingAfter(pending: seq<byte>, input: Input): (r: seq<byte>)
    requires Pending(pending)
    ensures Pending(r)
  {
    if input.Byte? then Push(pending, input.byte).pending else pending
  }

  // ---- device, parser and stream, as a value ----

  datatype State = State(dev: Dev, pending: seq<byte>, stream: seq<byte>)

  ghost predicate StateOk(b: Board, s: State) {
    DeviceReady(b, s.dev) && Pending(s.pending)
  }

  /** One happening at the device. */
  ghost function Happens(b: Board, s: State, h: Happening): (s2: State)
    requires StateOk(b, s) && HappeningOk(b, h)
    ensures StateOk(b, s2)
  {
    StepSendable(b, s.dev, h);
    State(Next(b, s.dev, h), s.pending, s.stream + Frames(Emits(b, s.dev, h)))
  }

  /** What an input makes of the state. */
  ghost function Takes(b: Board, s: State, input: Input): (s2: State)
    requires StateOk(b, s) && InputOk(b, input)
    ensures StateOk(b, s2)
  {
    var hs := Happenings(s.pending, input);
    (if hs == [] then s else Happens(b, s, hs[0])).(pending := PendingAfter(s.pending, input))
  }

  ghost function TakesAll(b: Board, s: State, inputs: seq<Input>): (s2: State)
    requires StateOk(b, s) && InputsOk(b, inputs)
    ensures StateOk(b, s2)
    decreases |inputs|
  {
    if inputs == [] then s else TakesAll(b, Takes(b, s, inputs[0]), inputs[1..])
  }

  lemma {:induction false} TakesOneMore(b: Board, s: State, inputs: seq<Input>, input: Input)
    requires StateOk(b, s) && InputsOk(b, inputs) && InputOk(b, input)
    ensures InputsOk(b, inputs + [input])
    ensures TakesAll(b, s, inputs + [input]) == Takes(b, TakesAll(b, s, inputs), input)
    decreases |inputs|
  {
    hide StateOk, InputOk, Takes;
    if inputs == [] {
      assert inputs + [input] == [input] && [input][1..] == [];
    } else {
      assert (inputs + [input])[1..] == inputs[1..] + [input];
      TakesOneMore(b, Takes(b, s, inputs[0]), inputs[1..], input);
    }
  }

  // ---- the loop ----

  class MainLoop {
    const parser: PacketParser
    const handler: Handler.CommandHandler

    ghost predicate Valid()
      reads handler, handler.safety, handler.outbound, handler.outbound.slots, parser, parser.payload
    {
      handler.Valid() && parser.Valid() && DeviceReady(handler.board, handler.View()) && Pending(parser.pending)
    }

    ghost function View(): State
      reads handler, handler.safety, handler.outbound, parser, handler.writer
    {
      State(handler.View(), parser.pending, handler.writer.stream)
    }

    constructor (parser: PacketParser, handler: Handler.CommandHandler)
      requires parser.Valid() && handler.Valid() && handler.View() == PowerUp(handler.board)
      ensures this.parser == parser && this.handler == handler && Valid()
    {
      hide OutputsSafe, DevOk, Handler.CommandHandler.Valid, PacketParser.Valid, Pending;
      parser.PendingKept();
      this.parser, this.handler := parser, handler;
      assert BoardOk(handler.board) by { handler.BoardKept(); }
    }

    lemma Ready()
      requires Valid()
      ensures StateOk(handler.board, View())
    {
      hide DeviceReady, Pending, PacketParser.Valid, Handler.CommandHandler.Valid;
    }

    /** Takes one byte off the serial port. */
    method TakeByte(byte: byte, env: Env)
      requires Valid() && EnvOk(handler.board, env)
      modifies parser, parser.payload
      modifies handler, handler.safety, handler.outbound, handler.outbound.slots, handler.writer
      ensures Valid() && parser.payload == old(parser.payload)
      ensures StateOk(handler.board, old(View()))
      ensures View() == Takes(handler.board, old(View()), Byte(byte, env))
    {
      hide EnvOk, DevOk, Push, Pending, Handle, OutputsSafe, Handler.CommandHandler.View, Outbound.OutboundRing.Valid,
           PacketParser.Valid, Encode, AllUnasked, Frames;
      ghost var b, s := handler.board, View();
      var packet := parser.PushByte(byte);
      parser.PendingKept();
      if packet.Some? {
        ghost var p := packet.value;
        StepSendable(b, s.dev, Received(p, env));
        handler.Handle(packet.value, env);
        AnswerIs(b, s, p, env);
      }
    }

    /** Serves one interrupt. */
    method Interrupted(input: Input)
      requires Valid() && InputOk(handler.board, input) && (input.CounterPulse? || input.EncoderPulse?)
      modifies handler
      ensures Valid() && StateOk(handler.board, old(View()))
      ensures View() == Takes(handler.board, old(View()), input)
    {
      hide EnvOk, DevOk, Pending, OutputsSafe, Handler.CommandHandler.View, Handler.CommandHandler.Valid,
           PacketParser.Valid, AllUnasked, Next;
      ghost var b, s := handler.board, View();
      ghost var h := Happenings(s.pending, input)[0];
      assert HappeningOk(b, h);
      StepSendable(b, s.dev, h);
      InterruptWritesNothing(b, s, h);
      match input
      case CounterPulse(id, micros) => handler.CounterTick(id, micros);
      case EncoderPulse(id, env) => handler.EncoderTick(id, env);
    }

    /** One turn of `loop`: drains the bytes that have arrived, interrupted at any point
        between them, then updates. */
    method Loop(inputs: seq<Input>, updateEnv: Env)
      requires Valid() && InputsOk(handler.board, inputs) && EnvOk(handler.board, updateEnv)
      requires forall i | 0 <= i < |inputs| :: !inputs[i].UpdateCall?
      modifies parser, parser.payload
      modifies handler, handler.safety, handler.outbound, handler.outbound.slots, handler.writer
      ensures Valid() && parser.payload == old(parser.payload)
      ensures StateOk(handler.board, old(View())) && InputsOk(handler.board, inputs + [UpdateCall(updateEnv)])
      ensures View() == TakesAll(handler.board, old(View()), inputs + [UpdateCall(updateEnv)])
    {
      hide EnvOk, DevOk, Pending, Update, DeviceReady, Takes, TakesAll, StateOk, Handler.CommandHandler.View,
           Outbound.OutboundRing.Valid, PacketParser.Valid, Encode, UpdateWrites, Frames, Handler.CommandHandler.Valid;
      Ready();
      ghost var b, s := handler.board, View();
      TakesNothing(b, s);
      assert inputs[..0] == [];
      for i := 0 to |inputs|
        invariant Valid() && parser.payload == old(parser.payload)
        invariant View() == TakesAll(b, s, inputs[..i])
      {
        ghost var before := View();
        if inputs[i].Byte? {
          TakeByte(inputs[i].byte, inputs[i].env);
        } else {
          Interrupted(inputs[i]);
        }
        assert InputsOk(b, inputs[..i]) && InputOk(b, inputs[i]);
        assert View() == Takes(b, before, inputs[i]);
        TakesOneMore(b, s, inputs[..i], inputs[i]);
        assert inputs[..i + 1] == inputs[..i] + [inputs[i]];
      }
      assert inputs[..|inputs|] == inputs;
      ghost var s2 := View();
      TakesOneMore(b, s, inputs, UpdateCall(updateEnv));
      UpdateIs(b, s2, updateEnv);
      handler.Update(updateEnv);
    }
  }

  lemma TakesNothing(b: Board, s: State)
    requires StateOk(b, s)
    ensures TakesAll(b, s, []) == s
  {
    hide StateOk;
  }

  lemma AnswerIs(b: Board, s: State, p: Packet, env: Env)
    requires StateOk(b, s) && EnvOk(b, env)
    ensures var r := Handle(b, s.dev, p, env);
            Fits(r) && Happens(b, s, Received(p, env))
            == State(r.dev, s.pending, s.stream + Encode(Packet(r.kind, p.seqNo, r.payload)))
    ensures DeviceReady(b, Handle(b, s.dev, p, env).dev)
  {
    hide Handle, EnvOk, DevOk, OutputsSafe, AllUnasked, Encode, Frames, Pending;
    SafeIsOk(b, s.dev);
    StepSendable(b, s.dev, Received(p, env));
    FramesOfOne(ReplyTo(b, s.dev, p, env));
  }

  lemma InterruptWritesNothing(b: Board, s: State, h: Happening)
    requires StateOk(b, s) && HappeningOk(b, h) && (h.CounterEdge? || h.EncoderEdge?)
    ensures Happens(b, s, h) == s.(dev := Next(b, s.dev, h))
    ensures DeviceReady(b, Next(b, s.dev, h))
  {
    hide Next, DevOk, OutputsSafe, AllUnasked, Pending, HappeningOk;
    SafeIsOk(b, s.dev);
    StepSendable(b, s.dev, h);
    assert s.stream + Frames([]) == s.stream;
  }

  lemma UpdateIs(b: Board, s: State, env: Env)
    requires StateOk(b, s) && EnvOk(b, env)
    ensures DevOk(b, s.dev) && AllSendable(UpdateWrites(b, s.dev, env))
    ensures Takes(b, s, UpdateCall(env))
         == State(Update(b, s.dev, env), s.pending, s.stream + Frames(UpdateWrites(b, s.dev, env)))
    ensures DeviceReady(b, Update(b, s.dev, env)) && Pending(s.pending)
  {
    hide Update, UpdateWrites, EnvOk, DevOk, OutputsSafe, AllUnasked, Frames, AllSendable, Pending;
    SafeIsOk(b, s.dev);
    StepSendable(b, s.dev, Updating(env));
  }
}
