/** Which answer a command gets: sequence numbers over whole-frame FIFO channels. */
module Correlation {
  import opened Seqs
  import opened Wire
  import opened Frame
  import opened Device
  import opened SafeRuns
  import opened Answers
  import opened Calls
  import HostReceive

  /** What travels to the host: the device's answer to a command, given in some state, or a
      frame it sent of its own accord. */
  datatype Message = Answer(call: Call, dev: Dev, env: Env, packet: Packet) | Async(packet: Packet)

  predicate MessageOk(b: Board, m: Message) {
    match m
    case Answer(call, d, env, p) => DeviceReady(b, d) && EnvOk(b, env) && AnswersCall(b, d, env, call, p)
    case Async(p) => Unasked(p)
  }

  /** p is what the device answers the command with in that state. */
  predicate AnswersCall(b: Board, d: Dev, env: Env, call: Call, p: Packet)
    requires DeviceReady(b, d) && EnvOk(b, env)
  {
    SafeIsOk(b, d);
    p == ReplyTo(b, d, PacketOf(call), env)
  }

  /** A direct command that was answered, and with what. */
  datatype Returned = Returned(call: Call, message: Message)

  datatype Link = Link(
    dev: Dev,
    next: nat,                    // the counter, which starts at one
    given: map<nat, seq<byte>>,   // what every command numbered so far says
    issued: set<Call>,            // commands given a number and not yet written
    down: seq<Call>,              // commands on their way to the firmware
    up: seq<Message>,             // messages on their way to the host
    awaiting: Option<Call>,       // the direct command that holds the transport lock
    returned: seq<Returned>)

  function AtPowerUp(b: Board): Link
    requires BoardOk(b)
  {
    Link(PowerUp(b), 1, map[], {}, [], [], None, [])
  }

  datatype Step =
    | Issue(args: seq<byte>)      // a thread takes a sequence number
    | WriteQueued(call: Call)     // flush writes a command nobody waits for
    | WriteDirect(call: Call)     // a thread writes a command and begins to wait
    | Happens(happening: Happening) // the firmware gets the next command, updates or is interrupted
    | Examine                     // the waiting thread looks at the next message
    | TimeOut
    | Discard                     // polling, or the rest of a chunk, eats the next message

  function Outstanding(l: Link): set<Call> {
    (set n | n in l.down) + (set m | m in l.up && m.Answer? :: m.call)
  }

  predicate Can(b: Board, l: Link, step: Step) {
    match step
    case Issue(_) => true
    case WriteQueued(call) => call in l.issued && l.awaiting.None?
    case WriteDirect(call) => call in l.issued && l.awaiting.None?
    case Happens(h) => HappeningOk(b, h) && (h.Received? ==> l.down != [] && h.packet == PacketOf(l.down[0]))
    case Examine => l.awaiting.Some? && l.up != []
    case TimeOut => l.awaiting.Some?
    case Discard => l.awaiting.None? && l.up != []
  }

  function Asyncs(packets: seq<Packet>): (messages: seq<Message>)
    ensures |messages| == |packets| && forall i | 0 <= i < |packets| :: messages[i] == Async(packets[i])
  {
    if packets == [] then [] else [Async(packets[0])] + Asyncs(packets[1..])
  }

  /** What the firmware sends when something happens. */
  function Sends(b: Board, l: Link, h: Happening): seq<Message>
    requires DeviceReady(b, l.dev) && Can(b, l, Happens(h))
  {
    SafeIsOk(b, l.dev);
    if h.Received? then [Answer(l.down[0], l.dev, h.env, ReplyTo(b, l.dev, h.packet, h.env))]
    else Asyncs(Emits(b, l.dev, h))
  }

  function Do(b: Board, l: Link, step: Step): (l2: Link)
    requires DeviceReady(b, l.dev) && Can(b, l, step)
    ensures DeviceReady(b, l2.dev)
  {
    match step
    case Issue(args) =>
      l.(next := l.next + 1, given := l.given[l.next := args], issued := l.issued + {Call(l.next, args)})
    case WriteQueued(call) => l.(issued := l.issued - {call}, down := l.down + [call])
    case WriteDirect(call) => l.(issued := l.issued - {call}, down := l.down + [call], awaiting := Some(call))
    case Happens(h) =>
      StepSendable(b, l.dev, h);
      l.(dev := Next(b, l.dev, h), up := l.up + Sends(b, l, h), down := if h.Received? then l.down[1..] else l.down)
    case Examine =>
      var m, call := l.up[0], l.awaiting.value;
      if m.packet.seqNo == SeqOf(call.number)
      then l.(up := l.up[1..], awaiting := None, returned := l.returned + [Returned(call, m)])
      else l.(up := l.up[1..])
    case TimeOut => l.(awaiting := None)
    case Discard => l.(up := l.up[1..])
  }

  /** What a direct command needs to be told apart: its sequence number is not zero, and
      every command whose answer is still to come is less than a full turn of the counter
      away. */
  predicate Distinct(l: Link, call: Call) {
    && SeqOf(call.number) != 0
    && forall m | m in Outstanding(l) :: call.number < m.number + SEQUENCES && m.number < call.number + SEQUENCES
  }

  /** A command says what was said when its number was given. */
  predicate Known(l: Link, call: Call) {
    call.number in l.given && l.given[call.number] == call.args
  }

  predicate AllKnown(l: Link) {
    && (forall n | n in l.given :: n < l.next)
    && (forall call | call in l.issued :: Known(l, call))
    && (forall i | 0 <= i < |l.down| :: Known(l, l.down[i]))
    && (forall i | 0 <= i < |l.up| && l.up[i].Answer? :: Known(l, l.up[i].call))
    && (l.awaiting.Some? ==> Known(l, l.awaiting.value))
  }

  predicate MessagesOk(b: Board, l: Link) {
    forall i | 0 <= i < |l.up| :: MessageOk(b, l.up[i])
  }

  predicate ReturnedOk(b: Board, l: Link) {
    forall i | 0 <= i < |l.returned| ::
      var r := l.returned[i]; r.message.Answer? && r.message.call == r.call && MessageOk(b, r.message)
  }

  predicate Inv(b: Board, l: Link) {
    && AllKnown(l) && MessagesOk(b, l) && ReturnedOk(b, l)
    && (l.awaiting.Some? ==> Distinct(l, l.awaiting.value))
  }

  lemma SendsOk(b: Board, l: Link, h: Happening)
    requires DeviceReady(b, l.dev) && Can(b, l, Happens(h))
    ensures forall i | 0 <= i < |Sends(b, l, h)| ::
              var m := Sends(b, l, h)[i]; MessageOk(b, m) && (m.Answer? ==> h.Received? && m.call == l.down[0])
  {
    hide OutputsSafe, DevOk, EnvOk, Next, Emits, ReplyTo, Unasked, Wellformed, IsReply, Replies;
    SafeIsOk(b, l.dev);
    StepAnswers(b, l.dev, h);
  }

  lemma OwnMessage(b: Board, l: Link, m: Message, call: Call)
    requires MessageOk(b, m) && m.packet.seqNo == SeqOf(call.number) && Known(l, call)
    requires m.Answer? ==> Known(l, m.call) && m.call in Outstanding(l)
    requires Distinct(l, call)
    ensures m.Answer? && m.call == call
  {
    hide SeqOf, Outstanding, OutputsSafe, EnvOk, Handle, DevOk, AllUnasked;
    if m.Answer? {
      SafeIsOk(b, m.dev);
      SameSequence(m.call.number, call.number);
    }
  }

  lemma KnownKept(b: Board, l: Link, step: Step)
    requires DeviceReady(b, l.dev) && AllKnown(l) && Can(b, l, step)
    ensures AllKnown(Do(b, l, step))
  {
    hide DeviceReady, HappeningOk, Next, PacketOf, Sends, MessageOk, SeqOf;
    if step.Happens? { SendsOk(b, l, step.happening); }
  }

  lemma MessagesKept(b: Board, l: Link, step: Step)
    requires DeviceReady(b, l.dev) && MessagesOk(b, l) && Can(b, l, step)
    ensures MessagesOk(b, Do(b, l, step))
  {
    hide DeviceReady, HappeningOk, Next, PacketOf, Sends, MessageOk, SeqOf;
    if step.Happens? { SendsOk(b, l, step.happening); }
  }

  /** Only writing a command makes more of them outstanding. */
  lemma OutstandingAfter(b: Board, l: Link, step: Step)
    requires DeviceReady(b, l.dev) && Can(b, l, step)
    ensures var l2 := Do(b, l, step);
            Outstanding(l2) <= Outstanding(l) + if step.WriteDirect? || step.WriteQueued? then {step.call} else {}
  {
    hide DeviceReady, HappeningOk, Next, PacketOf, Sends, MessageOk, SeqOf;
    if step.Happens? {
      SendsOk(b, l, step.happening);
      assert step.happening.Received? ==> l.down[0] in Outstanding(l);
    }
  }

  lemma DistinctKept(b: Board, l: Link, step: Step)
    requires DeviceReady(b, l.dev) && (l.awaiting.Some? ==> Distinct(l, l.awaiting.value)) && Can(b, l, step)
    requires step.WriteDirect? ==> Distinct(l, step.call)
    ensures var l2 := Do(b, l, step); l2.awaiting.Some? ==> Distinct(l2, l2.awaiting.value)
  {
    hide DeviceReady, HappeningOk, Next, PacketOf, Sends, MessageOk, SeqOf, Outstanding;
    OutstandingAfter(b, l, step);
  }

  lemma ReturnedKept(b: Board, l: Link, step: Step)
    requires DeviceReady(b, l.dev) && Inv(b, l) && Can(b, l, step)
    ensures ReturnedOk(b, Do(b, l, step))
  {
    hide DeviceReady, HappeningOk, Next, PacketOf, Sends, MessageOk, SeqOf, Distinct;
    if step.Examine? {
      var m, call := l.up[0], l.awaiting.value;
      if m.packet.seqNo == SeqOf(call.number) {
        assert m.Answer? ==> m.call in Outstanding(l);
        OwnMessage(b, l, m, call);
      }
    }
  }

  lemma StepKeeps(b: Board, l: Link, step: Step)
    requires DeviceReady(b, l.dev) && Inv(b, l) && Can(b, l, step)
    requires step.WriteDirect? ==> Distinct(l, step.call)
    ensures Inv(b, Do(b, l, step))
  {
    hide AllKnown, MessagesOk, ReturnedOk, Distinct, Can, Do, DeviceReady;
    KnownKept(b, l, step);
    MessagesKept(b, l, step);
    DistinctKept(b, l, step);
    ReturnedKept(b, l, step);
  }

  // ---- runs ----

  /** Steps that can be taken, each direct command being written only when it can be told
      apart. */
  predicate CanAll(b: Board, l: Link, steps: seq<Step>)
    requires DeviceReady(b, l.dev)
    decreases |steps|
  {
    steps != [] ==>
      && Can(b, l, steps[0])
      && (steps[0].WriteDirect? ==> Distinct(l, steps[0].call))
      && CanAll(b, Do(b, l, steps[0]), steps[1..])
  }

  function DoAll(b: Board, l: Link, steps: seq<Step>): Link
    requires DeviceReady(b, l.dev) && CanAll(b, l, steps)
    decreases |steps|
  {
    if steps == [] then l else DoAll(b, Do(b, l, steps[0]), steps[1..])
  }

  lemma {:induction false} RunKeeps(b: Board, l: Link, steps: seq<Step>)
    requires DeviceReady(b, l.dev) && Inv(b, l) && CanAll(b, l, steps)
    ensures Inv(b, DoAll(b, l, steps))
    decreases |steps|
  {
    hide Inv, Can, Do, Distinct, DeviceReady;
    if steps != [] {
      StepKeeps(b, l, steps[0]);
      RunKeeps(b, Do(b, l, steps[0]), steps[1..]);
    }
  }

  /** Over any run with time-outs, late answers to batched commands, telemetry in between
      and discarded messages, every direct command that was answered was answered with the
      device's reply to that very command, in the state in which the device handled it. */
  lemma AnsweredWithOwnAnswer(b: Board, steps: seq<Step>)
    requires BoardOk(b)
    ensures DeviceReady(b, PowerUp(b))
    ensures CanAll(b, AtPowerUp(b), steps) ==>
            forall i | 0 <= i < |DoAll(b, AtPowerUp(b), steps).returned| ::
              var r := DoAll(b, AtPowerUp(b), steps).returned[i];
              && r.message.Answer? && r.message.call == r.call
              && DeviceReady(b, r.message.dev) && EnvOk(b, r.message.env)
              && AnswersCall(b, r.message.dev, r.message.env, r.call, r.message.packet)
  {
    hide Can, Do, CanAll, DoAll, Distinct, OutputsSafe, EnvOk, AnswersCall, AllUnasked;
    ReadyAtPowerUp(b);
    if CanAll(b, AtPowerUp(b), steps) {
      RunKeeps(b, AtPowerUp(b), steps);
    }
  }

  // ---- the condition is the right one ----

  function Packets(up: seq<Message>): (packets: seq<Packet>)
    ensures |packets| == |up| && forall i | 0 <= i < |up| :: packets[i] == up[i].packet
  {
    if up == [] then [] else [up[0].packet] + Packets(up[1..])
  }

  /** Messages a command waiting for its answer can mistake for it: asynchronous ones if
      the command's number is a multiple of 65536, and answers to commands whose numbers
      differ from it by a multiple of 65536. */
  predicate Mistakable(m: Message, n: nat) {
    match m
    case Async(_) => n % SEQUENCES == 0
    case Answer(call, _, _, _) => (call.number - n) % SEQUENCES == 0
  }

  lemma MistakableExactly(b: Board, m: Message, n: nat)
    requires MessageOk(b, m)
    ensures m.packet.seqNo == SeqOf(n) <==> Mistakable(m, n)
  {
    hide SeqOf, OutputsSafe, DevOk, EnvOk, Handle, AllUnasked;
    SequenceMeaning(n, 0);
    if m.Answer? { SequenceMeaning(n, m.call.number); }
  }

  /** Of the messages that arrive, a waiting command gets its own answer, at position k, if
      and only if no message before it is mistakable. */
  lemma FirstMatchIsOwn(b: Board, up: seq<Message>, n: nat, k: nat)
    requires forall i | 0 <= i < |up| :: MessageOk(b, up[i])
    requires k < |up| && up[k].Answer? && up[k].call.number == n
    ensures HostReceive.FirstWith(Packets(up), SeqOf(n)) == k <==> forall i | 0 <= i < k :: !Mistakable(up[i], n)
  {
    hide SeqOf, Mistakable, HostReceive.FirstWith, MessageOk, Packets;
    MistakableExactly(b, up[k], n);
    assert Mistakable(up[k], n) by { OwnAnswerMatches(up[k], n); }
    forall i | 0 <= i < k
      ensures Packets(up)[i].seqNo == SeqOf(n) <==> Mistakable(up[i], n)
    {
      assert MessageOk(b, up[i]);
      MistakableExactly(b, up[i], n);
    }
  }

  lemma OwnAnswerMatches(m: Message, n: nat)
    requires m.Answer? && m.call.number == n
    ensures Mistakable(m, n)
  {
  }

  lemma SequenceMeaning(n: nat, m: nat)
    ensures SeqOf(m) == SeqOf(n) <==> (m - n) % SEQUENCES == 0
    ensures SeqOf(n) == 0 <==> n % SEQUENCES == 0
  {
    var a, b := m / SEQUENCES, n / SEQUENCES;
    assert m - n == SEQUENCES * (a - b) + (SeqOf(m) - SeqOf(n));
  }
}
