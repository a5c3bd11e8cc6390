/** What the firmware sends over whole runs: one answer to every packet, and frames of its
    own accord. */
module Answers {
  import opened Seqs
  import opened Wire
  import opened Frame
  import opened Safety
  import opened Subscriptions
  import opened Device
  import opened Footprint
  import opened SafeRuns
  import Firmware
  import Outbound

  /** A frame nobody asked for: an event or telemetry, with sequence number zero. */
  predicate Unasked(p: Packet) {
    p.seqNo == 0 && (p.kind == EVENT || p.kind == TELEMETRY) && Sendable(p)
  }

  predicate AllUnasked(packets: seq<Packet>) {
    forall i | 0 <= i < |packets| :: Unasked(packets[i])
  }

  /** The firmware's answer to a packet. */
  function ReplyTo(b: Board, d: Dev, p: Packet, env: Env): (reply: Packet)
    requires BoardOk(b) && DevOk(b, d) && EnvOk(b, env)
    ensures reply.seqNo == p.seqNo
  {
    var r := Handle(b, d, p, env);
    Packet(r.kind, p.seqNo, r.payload)
  }

  /** What a happening is answered with: a packet by its reply, anything else by nothing. */
  function Answer(b: Board, d: Dev, h: Happening): seq<Packet>
    requires BoardOk(b) && DevOk(b, d) && HappeningOk(b, h)
  {
    if h.Received? then [ReplyTo(b, d, h.packet, h.env)] else []
  }

  /** The packets one happening makes the firmware write. */
  function Emits(b: Board, d: Dev, h: Happening): seq<Packet>
    requires BoardOk(b) && DevOk(b, d) && HappeningOk(b, h)
  {
    match h
    case Received(p, env) => [ReplyTo(b, d, p, env)]
    case Updating(env) => UpdateWrites(b, d, env)
    case _ => []
  }

  /** The packets one happening makes the firmware queue. */
  function Queues(b: Board, d: Dev, h: Happening): seq<Packet>
    requires BoardOk(b) && DevOk(b, d) && HappeningOk(b, h)
  {
    if h.Updating? then UpdateQueues(b, d, h.env) else []
  }

  function RunEmits(b: Board, d: Dev, hs: seq<Happening>): seq<Packet>
    requires BoardOk(b) && OutputsSafe(b, d) && AllOk(b, hs)
    decreases |hs|
  {
    if hs == [] then []
    else
      StepIsSafe(b, d, hs[0]);
      Emits(b, d, hs[0]) + RunEmits(b, Next(b, d, hs[0]), hs[1..])
  }

  function RunQueues(b: Board, d: Dev, hs: seq<Happening>): seq<Packet>
    requires BoardOk(b) && OutputsSafe(b, d) && AllOk(b, hs)
    decreases |hs|
  {
    if hs == [] then []
    else
      StepIsSafe(b, d, hs[0]);
      Queues(b, d, hs[0]) + RunQueues(b, Next(b, d, hs[0]), hs[1..])
  }

  // ---- the outbound queue holds only unasked frames ----

  lemma HandleKeepsQueue(b: Board, d: Dev, p: Packet, env: Env)
    requires BoardOk(b) && DevOk(b, d) && EnvOk(b, env)
    ensures var q := Handle(b, d, p, env).dev.outbound; q == d.outbound || q == []
  {
    hide DevOk, EnvOk, Handle;
    HandleTouches(b, d, p, env);
  }

  lemma {:induction false} PutAllKeepsQueue(queue: seq<Packet>, packets: seq<Packet>)
    requires AllUnasked(queue) && AllUnasked(packets)
    ensures AllUnasked(PutAll(queue, packets))
    decreases |packets|
  {
    hide Unasked;
    if packets != [] { PutAllKeepsQueue(Outbound.Put(queue, packets[0]), packets[1..]); }
  }

  lemma {:induction false} ServeSlotsKeepQueue(b: Board, d: Dev, i: nat, env: Env)
    requires DevOk(b, d) && EnvOk(b, env) && i <= MAX_SUBSCRIPTIONS && AllUnasked(d.outbound)
    ensures AllUnasked(ServeSlots(b, d, i, env).outbound)
    decreases MAX_SUBSCRIPTIONS - i
  {
    hide EnvOk, DevOk, ServeSlot, AllUnasked;
    if i < MAX_SUBSCRIPTIONS {
      ServeSlotKeepsQueue(b, d, i, env);
      ServeSlotsKeepQueue(b, ServeSlot(b, d, i, env), i + 1, env);
    }
  }

  lemma ServeSlotKeepsQueue(b: Board, d: Dev, i: nat, env: Env)
    requires DevOk(b, d) && EnvOk(b, env) && i < MAX_SUBSCRIPTIONS && AllUnasked(d.outbound)
    ensures AllUnasked(ServeSlot(b, d, i, env).outbound)
  {
    hide EnvOk, ReadResource, PutAll, AllUnasked, Serve;
    var s := d.subscriptions[i];
    var value := ReadResource(b, d, s.kind, s.id, env);
    ServedUnasked(s, value, Millis(env.time), env.micros);
    PutAllKeepsQueue(d.outbound, Serve(s, value, Millis(env.time), env.micros).packets);
  }

  lemma ServedUnasked(s: Subscription, value: Option<i32>, now: u32, micros: u32)
    ensures AllUnasked(Serve(s, value, now, micros).packets)
  {
    hide Bytes32, EmitsEvent, EmitsTelemetry, Cut32, Interval;
  }

  lemma FlushKeepsQueue(d: Dev, rooms: seq<int>)
    requires |rooms| == 8 && AllUnasked(d.outbound)
    ensures AllUnasked(Flushed(d, rooms).outbound) && AllUnasked(WrittenBy(d, rooms))
  {
    hide Unasked, Outbound.FlushCount;
  }

  lemma UpdateKeepsQueue(b: Board, d: Dev, env: Env)
    requires DevOk(b, d) && EnvOk(b, env) && AllUnasked(d.outbound)
    ensures AllUnasked(Update(b, d, env).outbound) && AllUnasked(UpdateWrites(b, d, env))
  {
    hide Unasked, ServeSlots, Flushed, WrittenBy, DevOk;
    var d1 := CheckWatchdog(b, d, env);
    FlushKeepsQueue(d1, env.rooms[..8]);
    var d2 := Flushed(d1, env.rooms[..8]);
    FlushedTouches(b, d1, env.rooms[..8]);
    ServeSlotsKeepQueue(b, d2, 0, env);
    FlushKeepsQueue(ServeSlots(b, d2, 0, env), env.rooms[8..]);
  }

  // ---- whole runs ----

  /** The replies among some packets. */
  function Replies(packets: seq<Packet>): seq<Packet> {
    if packets == [] then []
    else (if IsReply(packets[0]) then [packets[0]] else []) + Replies(packets[1..])
  }

  /** The packets received in a run. */
  function Requests(hs: seq<Happening>): seq<Packet> {
    if hs == [] then [] else (if hs[0].Received? then [hs[0].packet] else []) + Requests(hs[1..])
  }

  /** The answers to them, each given in the state in which its packet was received. */
  function AnswersTo(b: Board, d: Dev, hs: seq<Happening>): seq<Packet>
    requires BoardOk(b) && OutputsSafe(b, d) && AllOk(b, hs)
    decreases |hs|
  {
    if hs == [] then []
    else
      StepIsSafe(b, d, hs[0]);
      Answer(b, d, hs[0]) + AnswersTo(b, Next(b, d, hs[0]), hs[1..])
  }

  /** The k-th answer is the reply to the k-th packet, in the state the device was in when
      it came, and carries that packet's sequence number. */
  lemma {:induction false} AnswerAt(b: Board, d: Dev, hs: seq<Happening>, k: nat) returns (m: nat)
    requires BoardOk(b) && OutputsSafe(b, d) && AllOk(b, hs) && k < |Requests(hs)|
    ensures |AnswersTo(b, d, hs)| == |Requests(hs)|
    ensures m < |hs| && hs[m].Received? && hs[m].packet == Requests(hs)[k] && Requests(hs[..m]) == Requests(hs)[..k]
    ensures AllOk(b, hs[..m]) && HappeningOk(b, hs[m]) && DevOk(b, Run(b, d, hs[..m]))
    ensures AnswersTo(b, d, hs)[k] == ReplyTo(b, Run(b, d, hs[..m]), hs[m].packet, hs[m].env)
    ensures AnswersTo(b, d, hs)[k].seqNo == Requests(hs)[k].seqNo
    decreases |hs|
  {
    hide Next, OutputsSafe, HappeningOk, StepSafe, ReplyTo, DevOk, Run, AnswersTo, Requests, AllOk;
    NothingRequested(b, d);
    var h, later := hs[0], hs[1..];
    var next := AnswersUnfold(b, d, hs);
    AnswersCounted(b, next, later);
    if h.Received? && k == 0 {
      m := 0;
      assert hs[..0] == [];
      SafeIsOk(b, d);
    } else {
      var j := if h.Received? then k - 1 else k;
      var n := AnswerAt(b, next, later, j);
      m := n + 1;
      PrefixUnfolds(b, d, hs, m);
    }
  }

  /** The first happening, and the rest of a run. */
  lemma AnswersUnfold(b: Board, d: Dev, hs: seq<Happening>) returns (next: Dev)
    requires BoardOk(b) && OutputsSafe(b, d) && AllOk(b, hs) && hs != []
    ensures DevOk(b, d) && HappeningOk(b, hs[0]) && next == Next(b, d, hs[0]) && OutputsSafe(b, next) && AllOk(b, hs[1..])
    ensures AnswersTo(b, d, hs) == Answer(b, d, hs[0]) + AnswersTo(b, next, hs[1..])
    ensures Requests(hs) == (if hs[0].Received? then [hs[0].packet] else []) + Requests(hs[1..])
  {
    hide Next, OutputsSafe, HappeningOk, StepSafe, Answer;
    StepIsSafe(b, d, hs[0]);
    SafeIsOk(b, d);
    next := Next(b, d, hs[0]);
    SafeAfter(b, d, next);
  }

  lemma NothingRequested(b: Board, d: Dev)
    requires BoardOk(b) && OutputsSafe(b, d)
    ensures AllOk(b, []) && Requests([]) == [] && Run(b, d, []) == d
  {
    hide OutputsSafe;
  }

  lemma PrefixUnfolds(b: Board, d: Dev, hs: seq<Happening>, m: nat)
    requires BoardOk(b) && OutputsSafe(b, d) && AllOk(b, hs) && 0 < m <= |hs|
    ensures DevOk(b, d) && HappeningOk(b, hs[0]) && OutputsSafe(b, Next(b, d, hs[0]))
    ensures AllOk(b, hs[..m]) && AllOk(b, hs[1..][..m - 1])
    ensures Run(b, d, hs[..m]) == Run(b, Next(b, d, hs[0]), hs[1..][..m - 1])
    ensures Requests(hs[..m]) == (if hs[0].Received? then [hs[0].packet] else []) + Requests(hs[1..][..m - 1])
  {
    hide Next, OutputsSafe, HappeningOk, StepSafe;
    assert hs[..m][0] == hs[0] && hs[..m][1..] == hs[1..][..m - 1];
    StepIsSafe(b, d, hs[0]);
    SafeIsOk(b, d);
    SafeAfter(b, d, Next(b, d, hs[0]));
  }

  lemma {:induction false} AnswersCounted(b: Board, d: Dev, hs: seq<Happening>)
    requires BoardOk(b) && OutputsSafe(b, d) && AllOk(b, hs)
    ensures |AnswersTo(b, d, hs)| == |Requests(hs)|
    decreases |hs|
  {
    hide Next, OutputsSafe, HappeningOk, StepSafe, Handle;
    if hs != [] {
      StepIsSafe(b, d, hs[0]);
      SafeIsOk(b, d);
      SafeAfter(b, d, Next(b, d, hs[0]));
      AnswersCounted(b, Next(b, d, hs[0]), hs[1..]);
    }
  }

  lemma {:induction false} RepliesJoin(a: seq<Packet>, b: seq<Packet>)
    ensures Replies(a + b) == Replies(a) + Replies(b)
  {
    hide IsReply;
    if a == [] {
      assert a + b == b;
    } else {
      assert (a + b)[1..] == a[1..] + b;
      RepliesJoin(a[1..], b);
      Associates(if IsReply(a[0]) then [a[0]] else [], Replies(a[1..]), Replies(b));
    }
  }

  lemma {:induction false} UnaskedAreNoReplies(packets: seq<Packet>)
    requires AllUnasked(packets)
    ensures Replies(packets) == [] && Wellformed(packets)
  {
    if packets != [] {
      assert Unasked(packets[0]);
      UnaskedAreNoReplies(packets[1..]);
    }
  }

  /** Everything the firmware writes is a reply or an unasked frame. */
  predicate Wellformed(packets: seq<Packet>) {
    forall i | 0 <= i < |packets| :: Sendable(packets[i]) && (IsReply(packets[i]) || Unasked(packets[i]))
  }

  /** A happening keeps the queue to unasked frames. A packet makes the firmware write its
      answer, one reply with its sequence number; nothing else makes it reply. */
  lemma StepAnswers(b: Board, d: Dev, h: Happening)
    requires BoardOk(b) && DevOk(b, d) && HappeningOk(b, h) && AllUnasked(d.outbound)
    ensures AllUnasked(Next(b, d, h).outbound)
    ensures var out := Emits(b, d, h);
            && Wellformed(out) && Replies(out) == Answer(b, d, h)
            && (h.Received? ==> |out| == 1 && IsReply(out[0]) && out[0].seqNo == h.packet.seqNo)
            && (!h.Received? ==> AllUnasked(out))
  {
    hide Handle, Update, UpdateWrites, DevOk, EnvOk, Unasked;
    match h
    case Received(p, env) =>
      HandleKeepsQueue(b, d, p, env);
      assert Replies([]) == [];
    case Updating(env) =>
      UpdateKeepsQueue(b, d, env);
      UnaskedAreNoReplies(UpdateWrites(b, d, env));
    case _ =>
  }

  /** Over any run of packets, updates and interrupts the firmware's replies are the answers
      to the packets received, one each and in order, whatever events and telemetry are
      written in between, all of which carry sequence number zero. */
  lemma {:induction false} EveryPacketAnsweredOnce(b: Board, d: Dev, hs: seq<Happening>)
    requires BoardOk(b) && OutputsSafe(b, d) && AllOk(b, hs) && AllUnasked(d.outbound)
    ensures Replies(RunEmits(b, d, hs)) == AnswersTo(b, d, hs)
    ensures Wellformed(RunEmits(b, d, hs)) && AllUnasked(Run(b, d, hs).outbound)
    decreases |hs|
  {
    hide Emits, Next, OutputsSafe, HappeningOk, StepSafe, AllUnasked, Wellformed, Replies, Answer;
    if hs == [] {
      NothingAnswered();
    } else {
      var h := hs[0];
      StepIsSafe(b, d, h);
      SafeIsOk(b, d);
      SafeAfter(b, d, Next(b, d, h));
      StepAnswers(b, d, h);
      var next := Next(b, d, h);
      EveryPacketAnsweredOnce(b, next, hs[1..]);
      RepliesJoin(Emits(b, d, h), RunEmits(b, next, hs[1..]));
      WellformedJoins(Emits(b, d, h), RunEmits(b, next, hs[1..]));
    }
  }

  lemma NothingAnswered()
    ensures Replies([]) == [] && Wellformed([])
  {
  }

  lemma WellformedJoins(a: seq<Packet>, b: seq<Packet>)
    requires Wellformed(a) && Wellformed(b)
    ensures Wellformed(a + b)
  {
    hide IsReply, Unasked;
  }

  // ---- what it writes can be sent ----

  /** The device is safe, and what it has queued is of its own accord. */
  predicate DeviceReady(b: Board, d: Dev) {
    BoardOk(b) && OutputsSafe(b, d) && AllUnasked(d.outbound)
  }

  lemma EmitsSendable(b: Board, d: Dev, hs: seq<Happening>)
    requires DeviceReady(b, d) && AllOk(b, hs)
    ensures Firmware.AllSendable(RunEmits(b, d, hs)) && DeviceReady(b, Run(b, d, hs))
  {
    hide RunEmits, OutputsSafe, HappeningOk, Unasked, Run;
    EveryPacketAnsweredOnce(b, d, hs);
  }

  lemma StepSendable(b: Board, d: Dev, h: Happening)
    requires DeviceReady(b, d) && HappeningOk(b, h)
    ensures DevOk(b, d) && AllOk(b, [h])
    ensures Firmware.AllSendable(Emits(b, d, h)) && DeviceReady(b, Next(b, d, h))
  {
    hide Emits, OutputsSafe, DevOk, HappeningOk, Next, StepSafe, IsReply;
    SafeIsOk(b, d);
    StepIsSafe(b, d, h);
    SafeAfter(b, d, Next(b, d, h));
    StepAnswers(b, d, h);
  }

  lemma ReadyAtPowerUp(b: Board)
    requires BoardOk(b)
    ensures DeviceReady(b, PowerUp(b))
  {
    hide OutputsSafe;
  }

  lemma NothingRuns(b: Board, d: Dev)
    requires BoardOk(b) && OutputsSafe(b, d)
    ensures AllOk(b, []) && Run(b, d, []) == d && RunEmits(b, d, []) == RunQueues(b, d, []) == []
  {
    hide OutputsSafe;
  }

  lemma RunUnfolds(b: Board, d: Dev, h: Happening, hs: seq<Happening>)
    requires BoardOk(b) && OutputsSafe(b, d) && HappeningOk(b, h) && AllOk(b, hs)
    ensures AllOk(b, [h] + hs) && DevOk(b, d) && OutputsSafe(b, Next(b, d, h))
    ensures Run(b, d, [h] + hs) == Run(b, Next(b, d, h), hs)
    ensures RunEmits(b, d, [h] + hs) == Emits(b, d, h) + RunEmits(b, Next(b, d, h), hs)
    ensures RunQueues(b, d, [h] + hs) == Queues(b, d, h) + RunQueues(b, Next(b, d, h), hs)
  {
    hide Next, OutputsSafe, DevOk, HappeningOk, Emits, Queues, Run;
    SafeIsOk(b, d);
    RunFrom(b, d, h, hs);
    assert ([h] + hs)[1..] == hs;
  }

  // ---- nothing is written that was not queued or asked for ----

  lemma {:induction false} PutAllAmong(queue: seq<Packet>, packets: seq<Packet>)
    ensures Subsequence(PutAll(queue, packets), queue + packets)
    decreases |packets|
  {
    hide Subsequence;
    if packets == [] {
      assert queue + packets == queue;
      SubsequenceRefl(queue);
    } else {
      var p, later := packets[0], packets[1..];
      var put := Outbound.Put(queue, p);
      PutAllAmong(put, later);
      PutAmong(queue, p);
      JoinRight(put, queue + [p], later);
      assert queue + [p] + later == queue + packets;
      SubsequenceTransitive(PutAll(put, later), put + later, queue + packets);
    }
  }

  lemma PutAmong(queue: seq<Packet>, p: Packet)
    ensures Subsequence(Outbound.Put(queue, p), queue + [p])
  {
    hide Subsequence;
    SubsequenceRefl(queue + [p]);
    if |queue| >= Outbound.CAPACITY {
      SubsequenceRefl(queue[1..] + [p]);
      GrowLeft([queue[0]], queue[1..] + [p], queue[1..] + [p]);
      assert [queue[0]] + (queue[1..] + [p]) == queue + [p];
    }
  }

  lemma {:induction false} PutAllJoins(queue: seq<Packet>, a: seq<Packet>, b: seq<Packet>)
    ensures PutAll(queue, a + b) == PutAll(PutAll(queue, a), b)
    decreases |a|
  {
    hide Outbound.Put;
    if a == [] {
      assert a + b == b;
    } else {
      assert (a + b)[1..] == a[1..] + b;
      PutAllJoins(Outbound.Put(queue, a[0]), a[1..], b);
    }
  }

  lemma {:induction false} ServeSlotsQueue(b: Board, d: Dev, i: nat, env: Env)
    requires DevOk(b, d) && EnvOk(b, env) && i <= MAX_SUBSCRIPTIONS
    ensures ServeSlots(b, d, i, env).outbound == PutAll(d.outbound, QueuedFrom(b, d, i, env))
    decreases MAX_SUBSCRIPTIONS - i
  {
    hide EnvOk, DevOk, PutAll, QueuedBySlot, ServeSlot;
    if i == MAX_SUBSCRIPTIONS {
      NothingPut(d.outbound);
    } else {
      var next := ServeSlot(b, d, i, env);
      ServeSlotsQueue(b, next, i + 1, env);
      ServeSlotPuts(b, d, i, env);
      PutAllJoins(d.outbound, QueuedBySlot(b, d, i, env), QueuedFrom(b, next, i + 1, env));
    }
  }

  lemma NothingPut(queue: seq<Packet>)
    ensures PutAll(queue, []) == queue
  {
  }

  lemma ServeSlotPuts(b: Board, d: Dev, i: nat, env: Env)
    requires DevOk(b, d) && EnvOk(b, env) && i < MAX_SUBSCRIPTIONS
    ensures ServeSlot(b, d, i, env).outbound == PutAll(d.outbound, QueuedBySlot(b, d, i, env))
  {
    hide EnvOk, PutAll, Serve, ReadResource;
  }

  /** What an update writes, and then what it leaves queued, is in order among what was
      queued and what it queued itself. */
  lemma UpdateBalance(b: Board, d: Dev, env: Env)
    requires DevOk(b, d) && EnvOk(b, env)
    ensures Subsequence(UpdateWrites(b, d, env) + Update(b, d, env).outbound, d.outbound + UpdateQueues(b, d, env))
  {
    hide Subsequence, DevOk, PutAll, CheckWatchdog, ServeSlots, QueuedFrom, Outbound.FlushCount;
    var d1 := CheckWatchdog(b, d, env);
    CheckTouches(b, d, env);
    var d2 := Flushed(d1, env.rooms[..8]);
    FlushedTouches(b, d1, env.rooms[..8]);
    var d3 := ServeSlots(b, d2, 0, env);
    var w1, w2 := WrittenBy(d1, env.rooms[..8]), WrittenBy(d3, env.rooms[8..]);
    assert d.outbound == w1 + d2.outbound;
    assert d3.outbound == w2 + Update(b, d, env).outbound;
    ServeSlotsQueue(b, d2, 0, env);
    PutAllAmong(d2.outbound, UpdateQueues(b, d, env));
    SubsequenceRefl(w1);
    SubsequenceJoins(w1, w1, d3.outbound, d2.outbound + UpdateQueues(b, d, env));
    Associates(w1, w2, Update(b, d, env).outbound);
    Associates(w1, d2.outbound, UpdateQueues(b, d, env));
  }

  // ---- the queue keeps the newest, and an update drains it ----

  /** The last n of a sequence, or all of it. */
  function Newest<T>(s: seq<T>, n: nat): seq<T> {
    if |s| <= n then s else s[|s| - n..]
  }

  lemma NewestOfMore<T>(s: seq<T>, t: seq<T>, n: nat)
    ensures Newest(Newest(s, n) + t, n) == Newest(s + t, n)
  {
  }

  lemma {:induction false} PutAllKeepsNewest(queue: seq<Packet>, packets: seq<Packet>)
    requires |queue| <= 64
    ensures PutAll(queue, packets) == Newest(queue + packets, 64)
    decreases |packets|
  {
    hide Newest;
    if packets == [] {
      assert queue + packets == queue;
      AllNewest(queue);
    } else {
      var p, later := packets[0], packets[1..];
      PutKeepsNewest(queue, p);
      PutAllKeepsNewest(Outbound.Put(queue, p), later);
      NewestOfMore(queue + [p], later, 64);
      assert queue + [p] + later == queue + packets;
    }
  }

  lemma AllNewest<T>(s: seq<T>)
    requires |s| <= 64
    ensures Newest(s, 64) == s
  {
  }

  lemma PutKeepsNewest(queue: seq<Packet>, p: Packet)
    requires |queue| <= 64
    ensures Outbound.Put(queue, p) == Newest(queue + [p], 64) && |Outbound.Put(queue, p)| <= 64
  {
  }

  /** With room for any frame whenever the stream is asked, a flush of up to eight writes
      eight frames, or all there are. */
  lemma {:induction false} FlushTakes(queue: seq<Packet>, rooms: seq<int>, max: nat)
    requires |rooms| >= max && Firmware.AllSendable(queue) && forall i | 0 <= i < max :: rooms[i] >= 137
    ensures Outbound.FlushCount(queue, rooms, max) == if |queue| < max then |queue| else max
    decreases max
  {
    if queue != [] && max > 0 { FlushTakes(queue[1..], rooms[1..], max - 1); }
  }

  function AtMost8(n: nat): nat {
    if n < 8 then n else 8
  }

  /** With room on the stream, an update writes up to eight of the frames it finds queued,
      then puts what the subscriptions report behind the rest, of which the newest 64 are
      kept, and then writes up to eight of those; the others stay queued. */
  lemma UpdateDrains(b: Board, d: Dev, env: Env)
    requires DevOk(b, d) && EnvOk(b, env) && AllUnasked(d.outbound) && forall i | 0 <= i < 16 :: env.rooms[i] >= 137
    ensures var first := AtMost8(|d.outbound|);
            var waiting := Newest(d.outbound[first..] + UpdateQueues(b, d, env), 64);
            var second := AtMost8(|waiting|);
            && UpdateWrites(b, d, env) == d.outbound[..first] + waiting[..second]
            && Update(b, d, env).outbound == waiting[second..]
  {
    hide CheckWatchdog, ServeSlots, QueuedFrom, Outbound.FlushCount, PutAll, Unasked, Newest;
    var d1 := CheckWatchdog(b, d, env);
    CheckTouches(b, d, env);
    var d2 := Flushed(d1, env.rooms[..8]);
    FlushedTouches(b, d1, env.rooms[..8]);
    var d3 := ServeSlots(b, d2, 0, env);
    UnaskedSendable(d.outbound);
    FlushTakes(d.outbound, env.rooms[..8], 8);
    FlushKeepsQueue(d1, env.rooms[..8]);
    ServeSlotsKeepQueue(b, d2, 0, env);
    ServeSlotsQueue(b, d2, 0, env);
    PutAllKeepsNewest(d2.outbound, UpdateQueues(b, d, env));
    UnaskedSendable(d3.outbound);
    LaterRooms(env);
    FlushTakes(d3.outbound, env.rooms[8..], 8);
  }

  lemma LaterRooms(env: Env)
    requires |env.rooms| == 16 && forall i | 0 <= i < 16 :: env.rooms[i] >= 137
    ensures forall i | 0 <= i < 8 :: env.rooms[8..][i] >= 137
  {
  }

  lemma UnaskedSendable(packets: seq<Packet>)
    requires AllUnasked(packets)
    ensures Firmware.AllSendable(packets)
  {
  }
}
