/** From the host's threads over the wire to the device, and back to the host's decoder. */
module EndToEnd {
  import opened Seqs
  import opened Wire
  import opened Frame
  import opened Calls
  import opened Device
  import opened SafeRuns
  import opened Answers
  import opened RunLoop
  import Firmware
  import HostDecoder
  import HostReceive
  import HostThreads
  import Telemetry

  function BytesRead(inputs: seq<Input>): seq<byte> {
    if inputs == [] then [] else (if inputs[0].Byte? then [inputs[0].byte] else []) + BytesRead(inputs[1..])
  }

  /** Everything that happens to the device as inputs reach the firmware. */
  function History(pending: seq<byte>, inputs: seq<Input>): seq<Happening>
    requires Firmware.Pending(pending)
    decreases |inputs|
  {
    if inputs == [] then []
    else Happenings(pending, inputs[0]) + History(PendingAfter(pending, inputs[0]), inputs[1..])
  }

  // ---- inputs are one run ----

  lemma HappeningsOk(b: Board, pending: seq<byte>, input: Input)
    requires Firmware.Pending(pending) && InputOk(b, input)
    ensures AllOk(b, Happenings(pending, input)) && |Happenings(pending, input)| <= 1
  {
    hide EnvOk, Firmware.Push, Firmware.Pending;
  }

  lemma {:induction false} HistoryOk(b: Board, pending: seq<byte>, inputs: seq<Input>)
    requires Firmware.Pending(pending) && InputsOk(b, inputs)
    ensures AllOk(b, History(pending, inputs))
    decreases |inputs|
  {
    hide InputOk, HappeningOk, Happenings, Firmware.Pending, PendingAfter;
    if inputs != [] {
      HappeningsOk(b, pending, inputs[0]);
      HistoryOk(b, PendingAfter(pending, inputs[0]), inputs[1..]);
    }
  }

  /** However bytes, interrupts and updates follow each other, device, parser and stream end
      as one run over the whole history leaves them. */
  lemma {:induction false} InputsAreRun(b: Board, s: State, inputs: seq<Input>)
    requires StateOk(b, s) && InputsOk(b, inputs)
    ensures var hs := History(s.pending, inputs);
            && AllOk(b, hs) && Firmware.AllSendable(RunEmits(b, s.dev, hs))
            && TakesAll(b, s, inputs) ==
               State(Run(b, s.dev, hs), Firmware.PushAll(s.pending, BytesRead(inputs)).pending,
                     s.stream + Firmware.Frames(RunEmits(b, s.dev, hs)))
    decreases |inputs|
  {
    hide InputOk, HappeningOk, OutputsSafe, AllUnasked, Firmware.PushAll, Firmware.Pending, Firmware.Frames, Firmware.AllSendable,
         AllOk, Run, RunEmits, Happenings, PendingAfter, Takes;
    HistoryOk(b, s.pending, inputs);
    EmitsSendable(b, s.dev, History(s.pending, inputs));
    if inputs == [] {
      NothingRuns(b, s.dev);
      Firmware.PushNothing(s.pending);
      assert s.stream + Firmware.Frames([]) == s.stream by { Firmware.NoFrames(); }
    } else {
      InputsAreRun(b, Takes(b, s, inputs[0]), inputs[1..]);
      FirstInput(b, s, inputs);
    }
  }

  /** The first input, and the rest of a history. */
  lemma FirstInput(b: Board, s: State, inputs: seq<Input>)
    requires StateOk(b, s) && InputsOk(b, inputs) && inputs != []
    ensures var s2, later := Takes(b, s, inputs[0]), History(PendingAfter(s.pending, inputs[0]), inputs[1..]);
            var hs := History(s.pending, inputs);
            && s2.pending == PendingAfter(s.pending, inputs[0])
            && AllOk(b, hs) && AllOk(b, later)
            && Firmware.AllSendable(RunEmits(b, s.dev, hs)) && Firmware.AllSendable(RunEmits(b, s2.dev, later))
            && Run(b, s.dev, hs) == Run(b, s2.dev, later)
            && s.stream + Firmware.Frames(RunEmits(b, s.dev, hs)) == s2.stream + Firmware.Frames(RunEmits(b, s2.dev, later))
            && Firmware.PushAll(s.pending, BytesRead(inputs)).pending
               == Firmware.PushAll(s2.pending, BytesRead(inputs[1..])).pending
  {
    hide InputOk, HappeningOk, OutputsSafe, AllUnasked, Firmware.Pending, Firmware.Frames, Firmware.AllSendable, Next, Emits,
         Run, RunEmits, Happenings, PendingAfter, Firmware.PushAll, DevOk;
    var s2, first := Takes(b, s, inputs[0]), Happenings(s.pending, inputs[0]);
    var later := History(s2.pending, inputs[1..]);
    HappeningsOk(b, s.pending, inputs[0]);
    HistoryOk(b, s.pending, inputs);
    HistoryOk(b, s2.pending, inputs[1..]);
    EmitsSendable(b, s.dev, first + later);
    EmitsSendable(b, s2.dev, later);
    ParsesFirst(s.pending, inputs);
    if first == [] {
      assert first + later == later;
    } else {
      var h := first[0];
      assert first == [h];
      StepSendable(b, s.dev, h);
      RunUnfolds(b, s.dev, h, later);
      Firmware.FramesJoin(Emits(b, s.dev, h), RunEmits(b, s2.dev, later));
      Associates(s.stream, Firmware.Frames(Emits(b, s.dev, h)), Firmware.Frames(RunEmits(b, s2.dev, later)));
    }
  }

  /** Only a byte reaches the parser, and it may complete a packet. */
  lemma ParsesFirst(pending: seq<byte>, inputs: seq<Input>)
    requires Firmware.Pending(pending) && inputs != []
    ensures var all, later := Firmware.PushAll(pending, BytesRead(inputs)),
                              Firmware.PushAll(PendingAfter(pending, inputs[0]), BytesRead(inputs[1..]));
            all.pending == later.pending && all.packets == Requests(Happenings(pending, inputs[0])) + later.packets
  {
    hide Firmware.Push, Firmware.Pending, Firmware.PushAll, Happenings, Requests;
    RequestsOf(pending, inputs[0]);
    if inputs[0].Byte? {
      Firmware.PushAllJoins(pending, [inputs[0].byte], BytesRead(inputs[1..]));
      Firmware.PushOne(pending, inputs[0].byte);
    } else {
      assert BytesRead(inputs) == BytesRead(inputs[1..]);
    }
  }

  lemma RequestsOf(pending: seq<byte>, input: Input)
    requires Firmware.Pending(pending)
    ensures Requests(Happenings(pending, input))
         == if input.Byte? && Firmware.Push(pending, input.byte).packet.Some?
            then [Firmware.Push(pending, input.byte).packet.value] else []
  {
    hide Firmware.Push, Firmware.Pending;
    assert Requests([]) == [];
  }

  // ---- the requests are what was parsed ----

  lemma RequestsJoin(a: seq<Happening>, c: seq<Happening>)
    requires |a| <= 1
    ensures Requests(a + c) == Requests(a) + Requests(c)
  {
    assert Requests([]) == [];
    if a == [] {
      assert a + c == c;
    } else {
      assert (a + c)[1..] == c && a[1..] == [];
    }
  }

  lemma {:induction false} HistoryIsParsed(b: Board, pending: seq<byte>, inputs: seq<Input>)
    requires Firmware.Pending(pending) && InputsOk(b, inputs)
    ensures Requests(History(pending, inputs)) == Firmware.PushAll(pending, BytesRead(inputs)).packets
    decreases |inputs|
  {
    hide InputOk, Firmware.PushAll, Firmware.Pending, Happenings, PendingAfter, Requests;
    if inputs == [] {
      Firmware.PushNothing(pending);
      NoRequests();
    } else {
      HappeningsOk(b, pending, inputs[0]);
      HistoryIsParsed(b, PendingAfter(pending, inputs[0]), inputs[1..]);
      ParsesFirst(pending, inputs);
      RequestsJoin(Happenings(pending, inputs[0]), History(PendingAfter(pending, inputs[0]), inputs[1..]));
    }
  }

  lemma NoRequests()
    ensures Requests([]) == []
  {
  }

  // ---- there and back ----

  /** All the firmware writes from power-up on. */
  ghost function Written(b: Board, inputs: seq<Input>): seq<byte>
    requires BoardOk(b) && InputsOk(b, inputs)
  {
    ReadyAtPowerUp(b);
    TakesAll(b, State(PowerUp(b), [], []), inputs).stream
  }

  /** What the host's decoder makes of it. */
  ghost function HostDecodes(b: Board, inputs: seq<Input>): HostDecoder.Outcome
    requires BoardOk(b) && InputsOk(b, inputs)
  {
    HostDecoder.Scan(Written(b, inputs), 0)
  }

  /** The host decodes exactly what the device writes, keeps nothing back and never raises;
      the replies in it are the answers to the packets the firmware parsed, one each and in
      order, given in the states those packets were handled in. */
  lemma HostReadsAnswers(b: Board, inputs: seq<Input>)
    requires BoardOk(b) && InputsOk(b, inputs)
    ensures var o, hs := HostDecodes(b, inputs), History([], inputs);
            && o.rest == [] && !o.raised
            && AllOk(b, hs) && Requests(hs) == Firmware.PushAll([], BytesRead(inputs)).packets
            && HostDecoder.Packets(o.hits) == RunEmits(b, PowerUp(b), hs)
            && Replies(HostDecoder.Packets(o.hits)) == AnswersTo(b, PowerUp(b), hs)
            && Wellformed(HostDecoder.Packets(o.hits))
  {
    hide InputOk, OutputsSafe, AllUnasked, HappeningOk, Run, RunEmits, TakesAll, HostDecoder.Scan, HostDecoder.Packets, AllOk, AnswersTo,
         Firmware.Frames, Firmware.PushAll, History, Replies, Requests, PowerUp, Wellformed;
    ReadyAtPowerUp(b);
    var hs := History([], inputs);
    InputsAreRun(b, State(PowerUp(b), [], []), inputs);
    EveryPacketAnsweredOnce(b, PowerUp(b), hs);
    HistoryIsParsed(b, [], inputs);
    var out := RunEmits(b, PowerUp(b), hs);
    Telemetry.WellformedIsKnown(out);
    assert [] + Firmware.Frames(out) == Firmware.Frames(out);
    Telemetry.FramesDecode(out, 0);
  }

  /** For any interleaving of the host's threads and of bytes, interrupts and updates at the
      firmware: the packets the firmware has handled are, in order, the first packets the
      host has written, all of them once it has read the whole wire; and the replies the
      host decodes are the device's answers to exactly those, in that order. */
  lemma CommandsAnswered(c: HostThreads.Config, steps: seq<HostThreads.Step>, b: Board, inputs: seq<Input>)
    requires HostThreads.CanAll(c, HostThreads.INITIAL, steps) && BoardOk(b) && InputsOk(b, inputs)
    requires BytesRead(inputs) <= HostThreads.DoAll(c, HostThreads.INITIAL, steps).wire
    ensures var h, hs := HostThreads.DoAll(c, HostThreads.INITIAL, steps), History([], inputs);
            && Requests(hs) <= PacketsOf(h.written) && (BytesRead(inputs) == h.wire ==> Requests(hs) == PacketsOf(h.written))
            && AllOk(b, hs) && Replies(HostDecoder.Packets(HostDecodes(b, inputs).hits)) == AnswersTo(b, PowerUp(b), hs)
  {
    hide HostThreads.CanAll, HostThreads.DoAll, HostThreads.InFlight, InputOk, HappeningOk, HostDecodes, HostDecoder.Packets, PacketsOf,
         Firmware.PushAll, History, Replies, Requests, HostThreads.EncodeAll, HostThreads.Sendables, PowerUp, PacketOf, AllOk, AnswersTo,
         BytesRead, RunEmits, Wellformed, Unique;
    var h := HostThreads.DoAll(c, HostThreads.INITIAL, steps);
    HostThreads.EndToEndDelivery(c, steps);
    HostReadsAnswers(b, inputs);
    FirstParsed(BytesRead(inputs), h.wire, PacketsOf(h.written));
  }

  /** What is parsed of the first bytes of a wire comes first of all that is on it. */
  lemma FirstParsed(read: seq<byte>, wire: seq<byte>, packets: seq<Packet>)
    requires read <= wire && Firmware.PushAll([], wire) == Firmware.Parse(packets, [])
    ensures Firmware.PushAll([], read).packets <= packets && (read == wire ==> Firmware.PushAll([], read).packets == packets)
  {
    hide Firmware.PushAll;
    var rest := wire[|read|..];
    assert wire == read + rest;
    Firmware.PushAllJoins([], read, rest);
  }

  // ---- a waiting thread gets the answer to its command ----

  function DecodedFrom(read: seq<byte>): seq<Packet> {
    HostDecoder.Packets(HostDecoder.Scan(read, 0).hits)
  }

  /** The first packet with a nonzero sequence number is the first such reply. */
  lemma {:induction false} FirstIsReply(packets: seq<Packet>, seqNo: u16)
    requires Wellformed(packets) && seqNo != 0
    ensures var i, r := HostReceive.FirstWith(packets, seqNo), HostReceive.FirstWith(Replies(packets), seqNo);
            if r < |Replies(packets)| then i < |packets| && packets[i] == Replies(packets)[r] else i == |packets|
  {
    hide IsReply, Replies, HostReceive.FirstWith, Wellformed;
    if packets == [] {
      NoReplies(seqNo);
    } else {
      LaterWellformed(packets, 1);
      FirstIsReply(packets[1..], seqNo);
      ReplyInFront(packets);
      FirstWithUnfolds(packets, seqNo);
      FirstWithUnfolds([packets[0]] + Replies(packets[1..]), seqNo);
      assert ([packets[0]] + Replies(packets[1..]))[1..] == Replies(packets[1..]);
    }
  }

  lemma NoReplies(seqNo: u16)
    ensures Replies([]) == [] && HostReceive.FirstWith([], seqNo) == 0
  {
  }

  /** A packet is a reply, or carries the number zero. */
  lemma ReplyInFront(packets: seq<Packet>)
    requires packets != [] && Wellformed(packets)
    ensures || Replies(packets) == [packets[0]] + Replies(packets[1..])
            || (Replies(packets) == Replies(packets[1..]) && packets[0].seqNo == 0)
  {
    hide IsReply;
    if !IsReply(packets[0]) {
      assert Unasked(packets[0]);
      assert [] + Replies(packets[1..]) == Replies(packets[1..]);
    }
  }

  lemma FirstWithUnfolds(packets: seq<Packet>, seqNo: u16)
    requires packets != []
    ensures HostReceive.FirstWith(packets, seqNo)
         == if packets[0].seqNo == seqNo then 0 else 1 + HostReceive.FirstWith(packets[1..], seqNo)
  {
  }

  lemma FirstNumber(packets: seq<Packet>, seqNo: u16, k: nat)
    requires k <= |packets| && forall j | 0 <= j < k :: packets[j].seqNo != seqNo
    requires k < |packets| ==> packets[k].seqNo == seqNo
    ensures HostReceive.FirstWith(packets, seqNo) == k
  {
    HostReceive.FirstWithIs(packets, seqNo, k);
  }

  /** Of the answers from the r-th on, the first that carries the number of the command
      written last is the answer to it, if it has been handled. */
  lemma FirstAnswer(b: Board, hs: seq<Happening>, written: seq<Call>, r: nat)
    requires BoardOk(b) && AllOk(b, hs) && Unique(written) && written != [] && r < |written|
    requires Requests(hs) <= PacketsOf(written) && r <= |Requests(hs)|
    requires var n := written[|written| - 1].number;
             forall j | r <= j < |written| :: n < written[j].number + SEQUENCES && written[j].number < n + SEQUENCES
    ensures var k, answers := |written| - 1, AnswersTo(b, PowerUp(b), hs);
            && |answers| == |Requests(hs)|
            && HostReceive.FirstWith(answers[r..], SeqOf(written[k].number)) == if k < |answers| then k - r else |answers| - r
  {
    hide AllOk, Requests, AnswersTo, PowerUp, OutputsSafe, SeqOf, HostReceive.FirstWith, PacketsOf;
    var k, answers := |written| - 1, AnswersTo(b, PowerUp(b), hs);
    AnswersNumbered(b, hs, written);
    forall j | r <= j < |answers| && j != k ensures answers[j].seqNo != SeqOf(written[k].number) {
      if SeqOf(written[j].number) == SeqOf(written[k].number) {
        SameSequence(written[j].number, written[k].number);
      }
    }
    FirstNumber(answers[r..], SeqOf(written[k].number), if k < |answers| then k - r else |answers| - r);
  }

  lemma AnswersNumbered(b: Board, hs: seq<Happening>, written: seq<Call>)
    requires BoardOk(b) && AllOk(b, hs) && Requests(hs) <= PacketsOf(written)
    ensures var answers := AnswersTo(b, PowerUp(b), hs);
            && |answers| == |Requests(hs)| <= |written|
            && forall j | 0 <= j < |answers| :: answers[j].seqNo == SeqOf(written[j].number)
  {
    hide AllOk, Requests, AnswersTo, PowerUp, OutputsSafe, ReplyTo, SeqOf, Run, DevOk, HappeningOk;
    var answers := AnswersTo(b, PowerUp(b), hs);
    AnswersCounted(b, PowerUp(b), hs);
    forall j | 0 <= j < |answers| ensures answers[j].seqNo == SeqOf(written[j].number) {
      var m := AnswerAt(b, PowerUp(b), hs, j);
      assert Requests(hs)[j] == PacketOf(written[j]);
    }
  }

  /** p is the device's reply to the command, in the state in which it handled it: after
      exactly the commands written before. */
  ghost predicate OwnAnswer(b: Board, hs: seq<Happening>, written: seq<Call>, p: Packet)
    requires BoardOk(b) && AllOk(b, hs) && written != []
  {
    exists m: nat ::
      && m < |hs| && hs[m].Received? && hs[m].packet == PacketOf(written[|written| - 1])
      && Requests(hs[..m]) == PacketsOf(written[..|written| - 1])
      && AllOk(b, hs[..m]) && HappeningOk(b, hs[m]) && DevOk(b, Run(b, PowerUp(b), hs[..m]))
      && p == ReplyTo(b, Run(b, PowerUp(b), hs[..m]), hs[m].packet, hs[m].env)
  }

  lemma AnswerIsOwn(b: Board, hs: seq<Happening>, written: seq<Call>)
    requires BoardOk(b) && AllOk(b, hs) && written != []
    requires Requests(hs) <= PacketsOf(written) && |Requests(hs)| == |written|
    ensures |AnswersTo(b, PowerUp(b), hs)| == |written|
    ensures OwnAnswer(b, hs, written, AnswersTo(b, PowerUp(b), hs)[|written| - 1])
  {
    hide AllOk, Requests, AnswersTo, PowerUp, OutputsSafe, ReplyTo, Run, DevOk, HappeningOk, PacketOf, PacketsOf;
    var k := |written| - 1;
    AnswersCounted(b, PowerUp(b), hs);
    var m := AnswerAt(b, PowerUp(b), hs, k);
    LastPacket(written, Requests(hs));
  }

  lemma LastPacket(written: seq<Call>, packets: seq<Packet>)
    requires written != [] && packets <= PacketsOf(written) && |packets| == |written|
    ensures packets[|written| - 1] == PacketOf(written[|written| - 1])
    ensures packets[..|written| - 1] == PacketsOf(written[..|written| - 1])
  {
    hide PacketOf;
  }

  /** Among the packets decoded from some point on, the first with the number of the command
      written last is its own answer. */
  lemma FirstIsOwn(b: Board, hs: seq<Happening>, written: seq<Call>, decoded: seq<Packet>, from: nat)
    requires BoardOk(b) && AllOk(b, hs) && Unique(written) && written != [] && Requests(hs) <= PacketsOf(written)
    requires Wellformed(decoded) && Replies(decoded) == AnswersTo(b, PowerUp(b), hs) && from <= |decoded|
    requires var n, r := written[|written| - 1].number, |Replies(decoded[..from])|;
             && SeqOf(n) != 0 && r < |written|
             && forall j | r <= j < |written| :: n < written[j].number + SEQUENCES && written[j].number < n + SEQUENCES
    ensures var i := HostReceive.FirstWith(decoded[from..], SeqOf(written[|written| - 1].number));
            if |Requests(hs)| < |written| then i == |decoded| - from
            else i < |decoded| - from && OwnAnswer(b, hs, written, decoded[from + i])
  {
    hide SeqOf, Requests, PowerUp, PacketOf, PacketsOf, AllOk, AnswersTo, HostReceive.FirstWith, OwnAnswer, Wellformed, Replies, OutputsSafe,
         Unique;
    var seqNo, k := SeqOf(written[|written| - 1].number), |written| - 1;
    var answers, r := AnswersTo(b, PowerUp(b), hs), |Replies(decoded[..from])|;
    AnswersCounted(b, PowerUp(b), hs);
    RepliesFrom(decoded, from);
    FirstAnswer(b, hs, written, r);
    FirstIsReply(decoded[from..], seqNo);
    if |Requests(hs)| == |written| {
      AnswerIsOwn(b, hs, written);
      assert Replies(decoded[from..])[k - r] == answers[k];
    }
  }

  /** The replies from some point on are the replies without those before it. */
  lemma RepliesFrom(packets: seq<Packet>, from: nat)
    requires from <= |packets| && Wellformed(packets)
    ensures |Replies(packets[..from])| <= |Replies(packets)|
    ensures Replies(packets[from..]) == Replies(packets)[|Replies(packets[..from])|..] && Wellformed(packets[from..])
  {
    hide Replies, Wellformed;
    assert packets == packets[..from] + packets[from..];
    RepliesJoin(packets[..from], packets[from..]);
    SplitReplies(Replies(packets), Replies(packets[..from]), Replies(packets[from..]));
    LaterWellformed(packets, from);
  }

  /** A thread waits for the response to a direct command. The host had decoded `from`
      packets when the command was written, among them no reply to it; its number is not
      zero, and every command whose reply was then unread is less than a full turn of the
      counter away. */
  ghost predicate Awaits(h: HostThreads.Host, t: HostThreads.Thread, packets: seq<Packet>, from: nat) {
    && t in h.pc && h.pc[t].AwaitsResponse? && SeqOf(h.pc[t].call.number) != 0
    && from <= |packets| && |Replies(packets[..from])| < |h.written|
    && forall j | |Replies(packets[..from])| <= j < |h.written| ::
         var n, m := h.pc[t].call.number, h.written[j].number; n < m + SEQUENCES && m < n + SEQUENCES
  }

  /** The first packet decoded since with the sequence number of a waiting thread's command is
      the device's own answer to that very command, and until the device has handled it there
      is no such packet. */
  lemma DirectCommandAnswered(c: HostThreads.Config, steps: seq<HostThreads.Step>, b: Board, inputs: seq<Input>,
                              t: HostThreads.Thread, from: nat)
    requires HostThreads.CanAll(c, HostThreads.INITIAL, steps) && BoardOk(b) && InputsOk(b, inputs)
    requires var h := HostThreads.DoAll(c, HostThreads.INITIAL, steps);
             BytesRead(inputs) <= h.wire && Awaits(h, t, DecodedFrom(Written(b, inputs)), from)
    ensures var h, decoded := HostThreads.DoAll(c, HostThreads.INITIAL, steps), DecodedFrom(Written(b, inputs));
            var hs, i := History([], inputs), HostReceive.FirstWith(decoded[from..], SeqOf(h.pc[t].call.number));
            && AllOk(b, hs) && h.written != [] && h.written[|h.written| - 1] == h.pc[t].call
            && (if |Requests(hs)| < |h.written| then i == |decoded| - from
                else i < |decoded| - from && OwnAnswer(b, hs, h.written, decoded[from + i]))
  {
    hide HostThreads.CanAll, HostThreads.DoAll, HostThreads.InFlight, InputOk, HappeningOk, HostDecodes, DecodedFrom, SeqOf, Written,
         Firmware.PushAll, History, Requests, HostThreads.EncodeAll, HostThreads.Sendables, PowerUp, PacketOf, AllOk, AnswersTo,
         HostReceive.FirstWith, OwnAnswer, Wellformed, Replies, OutputsSafe, RunEmits, PacketsOf, Unique;
    HostThreads.EndToEndDelivery(c, steps);
    CommandsAnswered(c, steps, b, inputs);
    HostReadsAnswers(b, inputs);
    DecodedAre(b, inputs);
    FirstIsOwn(b, History([], inputs), HostThreads.DoAll(c, HostThreads.INITIAL, steps).written, DecodedFrom(Written(b, inputs)), from);
  }

  lemma DecodedAre(b: Board, inputs: seq<Input>)
    requires BoardOk(b) && InputsOk(b, inputs)
    ensures DecodedFrom(Written(b, inputs)) == HostDecoder.Packets(HostDecodes(b, inputs).hits)
  {
    hide Written, HostDecoder.Scan;
  }

  /** What `_read_response` makes of the packets decoded since: those handled, the first with
      the sequence number, and those after it. */
  predicate Splits(packets: seq<Packet>, seqNo: u16, handled: seq<Packet>, response: Packet, lost: seq<Packet>) {
    && packets == handled + [response] + lost && response.seqNo == seqNo
    && forall j | 0 <= j < |handled| :: handled[j].seqNo != seqNo
  }

  /** The response a waiting thread takes from the bytes the host has read is the device's
      own answer to the thread's command. */
  lemma ResponseIsOwn(c: HostThreads.Config, steps: seq<HostThreads.Step>, b: Board, inputs: seq<Input>, t: HostThreads.Thread,
                      from: nat, read: seq<byte>, handled: seq<Packet>, response: Packet, lost: seq<Packet>)
    requires HostThreads.CanAll(c, HostThreads.INITIAL, steps) && BoardOk(b) && InputsOk(b, inputs)
    requires var h := HostThreads.DoAll(c, HostThreads.INITIAL, steps);
             && BytesRead(inputs) <= h.wire && read <= Written(b, inputs) && Awaits(h, t, DecodedFrom(read), from)
             && Splits(DecodedFrom(read)[from..], SeqOf(h.pc[t].call.number), handled, response, lost)
    ensures var h, hs := HostThreads.DoAll(c, HostThreads.INITIAL, steps), History([], inputs);
            && AllOk(b, hs) && h.written != [] && h.written[|h.written| - 1] == h.pc[t].call
            && OwnAnswer(b, hs, h.written, response)
  {
    hide HostThreads.CanAll, HostThreads.DoAll, InputOk, HappeningOk, SeqOf, HostDecoder.Scan, HostDecoder.Packets, TakesAll, StateOk,
         History, Requests, PowerUp, AllOk, HostReceive.FirstWith, OwnAnswer, Replies;
    var packets, decoded := DecodedFrom(read), DecodedFrom(Written(b, inputs));
    var stream := Written(b, inputs);
    assert stream == read + stream[|read|..];
    Telemetry.DecodedGrows(read, stream[|read|..]);
    var later := decoded[|packets|..];
    assert decoded == packets + later && decoded[..from] == packets[..from];
    DirectCommandAnswered(c, steps, b, inputs, t, from);
    assert decoded[from..] == packets[from..] + later == handled + [response] + lost + later;
    assert decoded[from..][|handled|] == response;
    FirstNumber(decoded[from..], response.seqNo, |handled|);
  }

  /** When a thread that sent an emergency stop has its response, the device has handled the
      stop; every PWM duty has been zero ever since and nothing was energised, whatever was
      queued or in flight, for as long as no clear command was handled after it. */
  lemma StopConfirmed(c: HostThreads.Config, steps: seq<HostThreads.Step>, b: Board, inputs: seq<Input>, t: HostThreads.Thread,
                      from: nat, read: seq<byte>, handled: seq<Packet>, response: Packet, lost: seq<Packet>) returns (m: nat)
    requires HostThreads.CanAll(c, HostThreads.INITIAL, steps) && BoardOk(b) && InputsOk(b, inputs)
    requires var h := HostThreads.DoAll(c, HostThreads.INITIAL, steps);
             && BytesRead(inputs) <= h.wire && read <= Written(b, inputs) && Awaits(h, t, DecodedFrom(read), from)
             && Splits(DecodedFrom(read)[from..], SeqOf(h.pc[t].call.number), handled, response, lost)
             && h.pc[t].call.args != [] && h.pc[t].call.args[0] == EMERGENCY_STOP
    ensures var h, hs := HostThreads.DoAll(c, HostThreads.INITIAL, steps), History([], inputs);
            && AllOk(b, hs) && m < |hs| && hs[m].Received? && hs[m].packet == PacketOf(h.pc[t].call) && AllOk(b, hs[..m + 1])
            && (forall e | m < e <= |hs| && NoClear(hs[m + 1..e]) ::
                  && AllOk(b, hs[..e])
                  && Run(b, PowerUp(b), hs[..e]).watch.stop && AllZero(Run(b, PowerUp(b), hs[..e]).duty)
                  && NothingEnergised(Run(b, PowerUp(b), hs[..m + 1]), Run(b, PowerUp(b), hs[..e])))
  {
    hide HostThreads.CanAll, HostThreads.DoAll, InputOk, HappeningOk, SeqOf, TakesAll, StateOk, DecodedFrom, Splits,
         History, Requests, PowerUp, AllOk, Replies, Run, NoClear, NothingEnergised, AllZero, PacketsOf, OwnAnswer;
    ResponseIsOwn(c, steps, b, inputs, t, from, read, handled, response, lost);
    var h, hs := HostThreads.DoAll(c, HostThreads.INITIAL, steps), History([], inputs);
    m := HandledAt(b, hs, h.written, response);
    PrefixOk(b, hs, m + 1);
    forall e | m < e <= |hs| && NoClear(hs[m + 1..e])
      ensures AllOk(b, hs[..e])
              && Run(b, PowerUp(b), hs[..e]).watch.stop && AllZero(Run(b, PowerUp(b), hs[..e]).duty)
              && NothingEnergised(Run(b, PowerUp(b), hs[..m + 1]), Run(b, PowerUp(b), hs[..e]))
    {
      StoppedSince(b, hs, m, e);
    }
  }

  lemma HandledAt(b: Board, hs: seq<Happening>, written: seq<Call>, p: Packet) returns (m: nat)
    requires BoardOk(b) && AllOk(b, hs) && written != [] && OwnAnswer(b, hs, written, p)
    ensures m < |hs| && hs[m].Received? && hs[m].packet == PacketOf(written[|written| - 1])
  {
    hide Run, PowerUp, ReplyTo, Requests, AllOk, HappeningOk, DevOk, PacketOf, PacketsOf;
    m :| m < |hs| && hs[m].Received? && hs[m].packet == PacketOf(written[|written| - 1])
         && Requests(hs[..m]) == PacketsOf(written[..|written| - 1]);
  }

  lemma PrefixOk(b: Board, hs: seq<Happening>, n: nat)
    requires AllOk(b, hs) && n <= |hs|
    ensures AllOk(b, hs[..n])
  {
    hide HappeningOk;
  }

  lemma SplitReplies(all: seq<Packet>, a: seq<Packet>, b: seq<Packet>)
    requires all == a + b
    ensures |a| <= |all| && all[|a|..] == b
  {
  }

  lemma LaterWellformed(packets: seq<Packet>, from: nat)
    requires from <= |packets| && Wellformed(packets)
    ensures Wellformed(packets[from..])
  {
    hide IsReply, Unasked;
  }
}
