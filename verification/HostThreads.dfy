/** The host client's threads, interleaved at the granularity of its two locks, and the
    firmware parser at the other end of the wire. */
module HostThreads {
  import opened Seqs
  import opened Wire
  import opened Frame
  import opened HostQueue
  import opened Calls
  import Firmware

  datatype Config = Config(
    autoFlush: bool,
    flushRate: Option<int>,       // flush_rate_hz, where None and zero differ
    queueMaxBytes: Option<int>,
    flushChunkSize: int)

  /** Where a thread is in `_command`, `batch` or `flush`. */
  datatype Pc =
    | Idle
    | Drawn(call: Call, encoded: seq<byte>, respond: bool)         // has a number and a frame
    | WillQueue(call: Call, encoded: seq<byte>)                    // saw that it should queue
    | HasQueued                                                    // will look at the batch depth again
    | WillFlush                                                    // waits for the transport lock
    | Flushing                                                     // has the transport lock
    | WritesChunk(chunk: seq<byte>, group: seq<Call>)
    | WillSend(call: Call, encoded: seq<byte>, respond: bool)      // waits for the transport lock
    | Sends(call: Call, encoded: seq<byte>, respond: bool)
    | AwaitsResponse(call: Call)

  type Thread = nat

  datatype Host = Host(
    pc: map<Thread, Pc>,
    transportLock: Option<Thread>,
    batchDepth: nat,
    queued: seq<seq<byte>>,
    queuedBytes: int,
    next: nat,                    // the counter the sequence numbers come from
    wire: seq<byte>,
    // The commands behind the bytes, and what happened to them so far.
    queuedCalls: seq<Call>,
    accepted: seq<Call>,          // commands the queue took
    flushed: seq<Call>,           // commands flush has written
    written: seq<Call>)           // commands on the wire, from flush or sent directly

  const INITIAL := Host(map[], None, 0, [], 0, 1, [], [], [], [], [])

  function PcOf(h: Host, t: Thread): Pc {
    if t in h.pc then h.pc[t] else Idle
  }

  function At(h: Host, t: Thread, pc: Pc): Host {
    h.(pc := h.pc[t := pc])
  }

  datatype Step =
    | Command(t: Thread, command: byte, payload: seq<byte>, respond: bool)
    | Decide(t: Thread)
    | Enqueue(t: Thread)
    | Recheck(t: Thread)
    | BeginBatch(t: Thread)
    | EndBatch(t: Thread)
    | CallFlush(t: Thread)
    | LockToFlush(t: Thread)
    | TakeChunk(t: Thread)
    | WriteChunk(t: Thread)
    | LockToSend(t: Thread)
    | Send(t: Thread)
    | Answered(t: Thread)

  predicate Can(h: Host, step: Step) {
    match step
    case Command(t, _, _, _) => PcOf(h, t).Idle?
    case Decide(t) => PcOf(h, t).Drawn?
    case Enqueue(t) => PcOf(h, t).WillQueue?
    case Recheck(t) => PcOf(h, t).HasQueued?
    case BeginBatch(t) => PcOf(h, t).Idle?
    case EndBatch(t) => PcOf(h, t).Idle? && h.batchDepth > 0
    case CallFlush(t) => PcOf(h, t).Idle?
    case LockToFlush(t) => PcOf(h, t).WillFlush? && h.transportLock.None?
    case TakeChunk(t) => PcOf(h, t).Flushing?
    case WriteChunk(t) => PcOf(h, t).WritesChunk?
    case LockToSend(t) => PcOf(h, t).WillSend? && h.transportLock.None?
    case Send(t) => PcOf(h, t).Sends?
    case Answered(t) => PcOf(h, t).AwaitsResponse?
  }

  function Do(c: Config, h: Host, step: Step): Host
    requires Can(h, step)
  {
    match step
    case Command(t, command, payload, respond) =>
      var call := Call(h.next, [command] + payload);
      (match EncodePacket(PacketOf(call))
       case PayloadTooLarge => h
       case Encoded(encoded) => At(h, t, Drawn(call, encoded, respond)))
      .(next := h.next + 1)
    case Decide(t) =>
      var pc := PcOf(h, t);
      At(h, t, if h.batchDepth > 0 || (c.flushRate.Some? && !pc.respond)
               then WillQueue(pc.call, pc.encoded) else WillSend(pc.call, pc.encoded, pc.respond))
    case Enqueue(t) =>
      var pc := PcOf(h, t);
      var nextSize := h.queuedBytes + |pc.encoded|;
      if c.queueMaxBytes.Some? && nextSize > c.queueMaxBytes.value
      then At(h, t, Idle)
      else At(h, t, HasQueued)
             .(queued := h.queued + [pc.encoded], queuedBytes := nextSize,
               queuedCalls := h.queuedCalls + [pc.call], accepted := h.accepted + [pc.call])
    case Recheck(t) =>
      At(h, t, if c.autoFlush && !Truthy(c.flushRate) && h.batchDepth == 0 then WillFlush else Idle)
    case BeginBatch(t) => h.(batchDepth := h.batchDepth + 1)
    case EndBatch(t) =>
      At(h, t, if h.batchDepth == 1 then WillFlush else Idle).(batchDepth := h.batchDepth - 1)
    case CallFlush(t) => At(h, t, WillFlush)
    case LockToFlush(t) => At(h, t, Flushing).(transportLock := Some(t))
    case TakeChunk(t) =>
      if h.queued == [] then At(h, t, Idle).(transportLock := None)
      else
        var n := ChunkCount(h.queued, c.flushChunkSize);
        At(h, t, WritesChunk(Flatten(h.queued[..n]), First(h.queuedCalls, n)))
          .(queued := h.queued[n..], queuedBytes := h.queuedBytes - Total(h.queued[..n]),
            queuedCalls := After(h.queuedCalls, n))
    case WriteChunk(t) =>
      var pc := PcOf(h, t);
      At(h, t, Flushing)
        .(wire := h.wire + pc.chunk, flushed := h.flushed + pc.group, written := h.written + pc.group)
    case LockToSend(t) =>
      var pc := PcOf(h, t);
      At(h, t, Sends(pc.call, pc.encoded, pc.respond)).(transportLock := Some(t))
    case Send(t) =>
      var pc := PcOf(h, t);
      var sent := h.(wire := h.wire + pc.encoded, written := h.written + [pc.call]);
      if pc.respond then At(sent, t, AwaitsResponse(pc.call)) else At(sent, t, Idle).(transportLock := None)
    case Answered(t) => At(h, t, Idle).(transportLock := None)
  }

  /** Python's `not self.flush_rate_hz` is false exactly for a rate other than None and 0. */
  predicate Truthy(rate: Option<int>) {
    rate.Some? && rate.value != 0
  }

  function First<T>(s: seq<T>, n: nat): seq<T> {
    if n <= |s| then s[..n] else s
  }

  function After<T>(s: seq<T>, n: nat): seq<T> {
    if n <= |s| then s[n..] else []
  }

  // ---- the invariant ----

  predicate Sendables(calls: seq<Call>) {
    forall i | 0 <= i < |calls| :: Sendable(PacketOf(calls[i]))
  }

  function FramesOf(calls: seq<Call>): seq<byte>
    requires Sendables(calls)
  {
    Firmware.Frames(PacketsOf(calls))
  }

  lemma FramesOfJoin(a: seq<Call>, b: seq<Call>)
    requires Sendables(a) && Sendables(b)
    ensures Sendables(a + b) && FramesOf(a + b) == FramesOf(a) + FramesOf(b)
  {
    hide Firmware.Frames, PacketOf;
    PacketsJoin(a, b);
    Firmware.FramesJoin(PacketsOf(a), PacketsOf(b));
  }

  lemma FramesOfOne(call: Call)
    requires Sendable(PacketOf(call))
    ensures Sendables([call]) && FramesOf([call]) == Encode(PacketOf(call))
  {
    hide Encode, PacketOf, Firmware.Frames;
    assert PacketsOf([call]) == [PacketOf(call)];
    Firmware.FramesOfOne(PacketOf(call));
  }

  function EncodeAll(calls: seq<Call>): (frames: seq<seq<byte>>)
    requires Sendables(calls)
    ensures |frames| == |calls|
  {
    if calls == [] then []
    else [Encode(PacketOf(calls[0]))] + EncodeAll(calls[1..])
  }

  predicate Holds(pc: Pc) {
    pc.Flushing? || pc.WritesChunk? || pc.Sends? || pc.AwaitsResponse?
  }

  /** Exactly the holder of the transport lock is between taking and releasing it. */
  predicate LockKept(h: Host) {
    && (forall t | t in h.pc :: Holds(h.pc[t]) <==> h.transportLock == Some(t))
    && (h.transportLock.Some? ==> h.transportLock.value in h.pc)
  }

  predicate PcKept(pc: Pc) {
    match pc
    case Drawn(call, encoded, _) => Sendable(PacketOf(call)) && encoded == Encode(PacketOf(call))
    case WillQueue(call, encoded) => Sendable(PacketOf(call)) && encoded == Encode(PacketOf(call))
    case WillSend(call, encoded, _) => Sendable(PacketOf(call)) && encoded == Encode(PacketOf(call))
    case Sends(call, encoded, _) => Sendable(PacketOf(call)) && encoded == Encode(PacketOf(call))
    case WritesChunk(chunk, group) => Sendables(group) && chunk == FramesOf(group)
    case _ => true
  }

  predicate PcsKept(h: Host) {
    forall t | t in h.pc :: PcKept(h.pc[t])
  }

  /** The commands taken from the queue and not yet written. */
  function InFlight(h: Host): seq<Call> {
    if h.transportLock.Some? && PcOf(h, h.transportLock.value).WritesChunk?
    then PcOf(h, h.transportLock.value).group else []
  }

  /** accepted = flushed, then in flight, then queued, and the queue holds their frames. */
  predicate QueueKept(h: Host) {
    && h.accepted == h.flushed + InFlight(h) + h.queuedCalls
    && Sendables(h.queuedCalls)
    && h.queued == EncodeAll(h.queuedCalls)
  }

  predicate BytesCounted(c: Config, h: Host) {
    && h.queuedBytes == Total(h.queued)
    && (c.queueMaxBytes.Some? && h.queued != [] ==> h.queuedBytes <= c.queueMaxBytes.value)
  }

  predicate WireKept(h: Host) {
    Sendables(h.written) && h.wire == FramesOf(h.written)
  }

  predicate Inv(c: Config, h: Host) {
    LockKept(h) && PcsKept(h) && QueueKept(h) && BytesCounted(c, h) && WireKept(h)
  }

  lemma {:induction false} EncodeAllJoins(a: seq<Call>, b: seq<Call>)
    requires Sendables(a) && Sendables(b)
    ensures Sendables(a + b) && EncodeAll(a + b) == EncodeAll(a) + EncodeAll(b)
  {
    hide Encode, PacketOf;
    if a == [] {
      assert a + b == b;
    } else {
      assert (a + b)[1..] == a[1..] + b;
      EncodeAllJoins(a[1..], b);
      Associates([Encode(PacketOf(a[0]))], EncodeAll(a[1..]), EncodeAll(b));
    }
  }

  lemma {:induction false} FramesAreFlattened(calls: seq<Call>)
    requires Sendables(calls)
    ensures FramesOf(calls) == Flatten(EncodeAll(calls))
  {
    hide Encode, PacketOf;
    if calls != [] {
      assert PacketsOf(calls)[1..] == PacketsOf(calls[1..]);
      FramesAreFlattened(calls[1..]);
      assert EncodeAll(calls)[1..] == EncodeAll(calls[1..]);
    }
  }

  /** A thread moved on: the others are where they were, and the lock went with it. */
  lemma MoveKeeps(h: Host, h2: Host, t: Thread, pc: Pc)
    requires LockKept(h) && PcsKept(h) && PcKept(pc) && h2.pc == h.pc[t := pc]
    requires Holds(PcOf(h, t)) || !Holds(pc) || h.transportLock.None?
    requires h2.transportLock == if Holds(pc) == Holds(PcOf(h, t)) then h.transportLock
                                 else if Holds(pc) then Some(t) else None
    ensures LockKept(h2) && PcsKept(h2)
    ensures h.transportLock == Some(t) <==> Holds(PcOf(h, t))
    ensures InFlight(h2) == if pc.WritesChunk? then pc.group
                            else if PcOf(h, t).WritesChunk? then [] else InFlight(h)
  {
    hide PcKept;
  }

  lemma EnqueueKeeps(c: Config, h: Host, t: Thread)
    requires Inv(c, h) && Can(h, Enqueue(t))
    ensures Inv(c, Do(c, h, Enqueue(t)))
  {
    hide Encode, FramesOf, PcsKept, LockKept, InFlight;
    var pc, h2 := PcOf(h, t), Do(c, h, Enqueue(t));
    assert PcKept(pc) by { PcAt(h, t); }
    MoveKeeps(h, h2, t, h2.pc[t]);
    if h2.queued != h.queued {
      TotalJoins(h.queued, [pc.encoded]);
      assert Total([pc.encoded]) == |pc.encoded|;
      EncodeAllJoins(h.queuedCalls, [pc.call]);
      EncodeOne(pc.call);
    }
  }

  lemma EncodeOne(call: Call)
    requires Sendable(PacketOf(call))
    ensures Sendables([call]) && EncodeAll([call]) == [Encode(PacketOf(call))]
  {
    hide Encode, PacketOf;
    FramesOfOne(call);
    assert [call][1..] == [];
  }

  lemma PcAt(h: Host, t: Thread)
    requires PcsKept(h)
    ensures PcKept(PcOf(h, t))
  {
  }

  lemma TakeKeeps(c: Config, h: Host, t: Thread)
    requires Inv(c, h) && Can(h, TakeChunk(t))
    ensures Inv(c, Do(c, h, TakeChunk(t)))
  {
    hide Encode, FramesOf, ChunkCount, Flatten, PcsKept, LockKept, Sendables, EncodeAll, Total, QueueKept, BytesCounted, InFlight;
    var h2 := Do(c, h, TakeChunk(t));
    assert QueueKept(h) && BytesCounted(c, h);
    if h.queued == [] {
      MoveKeeps(h, h2, t, Idle);
      SameQueue(c, h, h2);
    } else {
      var n := ChunkCount(h.queued, c.flushChunkSize);
      QueueTaken(c, h, n);
      var group := h.queuedCalls[..n];
      NothingFlies(h, t);
      SplitQueue(h.queuedCalls, n);
      MoveKeeps(h, h2, t, WritesChunk(Flatten(h.queued[..n]), group));
      Associates(h.flushed, group, h.queuedCalls[n..]);
      TakenKeepsQueue(c, h, h2, n);
    }
  }

  lemma NothingFlies(h: Host, t: Thread)
    requires LockKept(h) && t in h.pc && h.pc[t].Flushing?
    ensures InFlight(h) == []
  {
  }

  lemma SameQueue(c: Config, h: Host, h2: Host)
    requires QueueKept(h) && BytesCounted(c, h) && InFlight(h2) == InFlight(h)
    requires h2.queued == h.queued && h2.queuedBytes == h.queuedBytes && h2.queuedCalls == h.queuedCalls
    requires h2.accepted == h.accepted && h2.flushed == h.flushed
    ensures QueueKept(h2) && BytesCounted(c, h2)
  {
    hide EncodeAll, InFlight, Total, Sendables;
  }

  /** The bytes of the packets taken leave the count. */
  lemma QueueTaken(c: Config, h: Host, n: nat)
    requires QueueKept(h) && BytesCounted(c, h) && n <= |h.queued|
    ensures Sendables(h.queuedCalls) && h.queued == EncodeAll(h.queuedCalls) && |h.queuedCalls| == |h.queued|
    ensures h.queuedBytes - Total(h.queued[..n]) == Total(h.queued[n..]) <= Total(h.queued)
  {
    hide EncodeAll, InFlight, Sendables;
    assert h.queued == h.queued[..n] + h.queued[n..];
    TotalJoins(h.queued[..n], h.queued[n..]);
  }

  lemma TakenKeepsQueue(c: Config, h: Host, h2: Host, n: nat)
    requires QueueKept(h) && BytesCounted(c, h) && InFlight(h) == [] && n <= |h.queued| == |h.queuedCalls|
    requires h2.queued == h.queued[n..] && h2.queuedBytes == h.queuedBytes - Total(h.queued[..n])
    requires h2.queuedCalls == h.queuedCalls[n..] && InFlight(h2) == h.queuedCalls[..n]
    requires h2.accepted == h.accepted && h2.flushed == h.flushed
    ensures QueueKept(h2) && BytesCounted(c, h2)
  {
    hide EncodeAll, InFlight, Total, Sendables, Flatten, FramesOf;
    QueueTaken(c, h, n);
    SplitQueue(h.queuedCalls, n);
    assert h.flushed + [] == h.flushed;
    Associates(h.flushed, h.queuedCalls[..n], h.queuedCalls[n..]);
  }

  lemma SplitQueue(calls: seq<Call>, n: nat)
    requires Sendables(calls) && n <= |calls|
    ensures Sendables(calls[..n]) && Sendables(calls[n..])
    ensures EncodeAll(calls)[..n] == EncodeAll(calls[..n])
    ensures EncodeAll(calls)[n..] == EncodeAll(calls[n..])
    ensures Flatten(EncodeAll(calls)[..n]) == FramesOf(calls[..n])
    ensures calls == calls[..n] + calls[n..]
  {
    hide Encode, EncodeAll, Flatten, FramesOf, Sendables;
    assert calls == calls[..n] + calls[n..];
    SplitSendables(calls, n);
    EncodeAllJoins(calls[..n], calls[n..]);
    FramesAreFlattened(calls[..n]);
    SplitAt(EncodeAll(calls), EncodeAll(calls[..n]), EncodeAll(calls[n..]));
  }

  lemma SplitSendables(calls: seq<Call>, n: nat)
    requires Sendables(calls) && n <= |calls|
    ensures Sendables(calls[..n]) && Sendables(calls[n..])
  {
    hide PacketOf;
  }

  lemma SplitAt<T>(all: seq<T>, a: seq<T>, b: seq<T>)
    requires all == a + b
    ensures all[..|a|] == a && all[|a|..] == b
  {
  }

  lemma WriteKeeps(c: Config, h: Host, t: Thread)
    requires Inv(c, h) && Can(h, WriteChunk(t))
    ensures Inv(c, Do(c, h, WriteChunk(t)))
  {
    hide Encode, FramesOf, EncodeAll, PcsKept, LockKept;
    var h2 := Do(c, h, WriteChunk(t));
    PcAt(h, t);
    MoveKeeps(h, h2, t, Flushing);
    FramesOfJoin(h.written, PcOf(h, t).group);
  }

  lemma SendKeeps(c: Config, h: Host, t: Thread)
    requires Inv(c, h) && Can(h, Send(t))
    ensures Inv(c, Do(c, h, Send(t)))
  {
    hide Encode, EncodeAll, FramesOf, PcsKept, LockKept;
    var h2 := Do(c, h, Send(t));
    PcAt(h, t);
    MoveKeeps(h, h2, t, h2.pc[t]);
    var call := PcOf(h, t).call;
    FramesOfOne(call);
    FramesOfJoin(h.written, [call]);
  }

  lemma StepKeeps(c: Config, h: Host, step: Step)
    requires Inv(c, h) && Can(h, step)
    ensures Inv(c, Do(c, h, step))
  {
    hide Encode, FramesOf, ChunkCount, Flatten, Total, EncodeAll, Sendables, PcsKept, LockKept, InFlight;
    match step
    case Enqueue(t) => EnqueueKeeps(c, h, t);
    case TakeChunk(t) => TakeKeeps(c, h, t);
    case WriteChunk(t) => WriteKeeps(c, h, t);
    case Send(t) => SendKeeps(c, h, t);
    case _ => OtherKeeps(c, h, step);
  }

  /** The steps that only move a thread on. */
  lemma OtherKeeps(c: Config, h: Host, step: Step)
    requires Inv(c, h) && Can(h, step) && !step.Enqueue? && !step.TakeChunk? && !step.WriteChunk? && !step.Send?
    ensures Inv(c, Do(c, h, step))
  {
    hide Encode, FramesOf, ChunkCount, Flatten, Total, EncodeAll, Sendables, PcsKept, LockKept, InFlight;
    var h2 := Do(c, h, step);
    if step.BeginBatch? || (h2.pc == h.pc && h2.transportLock == h.transportLock) {
      SameThreads(h, h2);
    } else {
      PcAt(h, step.t);
      MoveKeeps(h, h2, step.t, PcOf(h2, step.t));
    }
  }

  lemma SameThreads(h: Host, h2: Host)
    requires LockKept(h) && PcsKept(h) && h2.pc == h.pc && h2.transportLock == h.transportLock
    ensures LockKept(h2) && PcsKept(h2) && InFlight(h2) == InFlight(h)
  {
  }

  // ---- every command has its own number ----

  /** The commands on the wire, in flight and queued, in this order. */
  function Settled(h: Host): seq<Call> {
    h.written + InFlight(h) + h.queuedCalls
  }

  /** The command a thread has and has neither queued nor written yet. */
  function Held(pc: Pc): Option<Call> {
    match pc
    case Drawn(call, _, _) => Some(call)
    case WillQueue(call, _) => Some(call)
    case WillSend(call, _, _) => Some(call)
    case Sends(call, _, _) => Some(call)
    case _ => None
  }

  predicate Below(calls: seq<Call>, n: nat) {
    forall i | 0 <= i < |calls| :: calls[i].number < n
  }

  predicate Absent(n: nat, calls: seq<Call>) {
    forall i | 0 <= i < |calls| :: calls[i].number != n
  }

  predicate HeldKept(h: Host) {
    && (forall t | t in h.pc && Held(h.pc[t]).Some? ::
          Held(h.pc[t]).value.number < h.next && Absent(Held(h.pc[t]).value.number, Settled(h)))
    && (forall t, u | t in h.pc && u in h.pc && t != u && Held(h.pc[t]).Some? && Held(h.pc[u]).Some? ::
          Held(h.pc[t]).value.number != Held(h.pc[u]).value.number)
  }

  /** A thread that waits for a response waits for the one to the command written last. */
  predicate AwaitKept(h: Host) {
    forall t | t in h.pc && h.pc[t].AwaitsResponse? :: h.written != [] && h.written[|h.written| - 1] == h.pc[t].call
  }

  predicate Numbered(h: Host) {
    Unique(Settled(h)) && Below(Settled(h), h.next) && HeldKept(h) && AwaitKept(h)
  }

  /** What a step does to the commands settled: it leaves them, or settles the one that its
      thread held. */
  lemma StepSettles(c: Config, h: Host, step: Step)
    requires Inv(c, h) && Can(h, step)
    ensures !step.Enqueue? && !step.Send? ==> Settled(Do(c, h, step)) == Settled(h)
    ensures step.Enqueue? ==>
            var h2 := Do(c, h, step);
            || Settled(h2) == Settled(h)
            || (Settled(h2) == Settled(h) + [PcOf(h, step.t).call] && PcOf(h2, step.t).HasQueued?)
    ensures step.Send? ==>
            && Settled(h) == h.written + h.queuedCalls
            && Settled(Do(c, h, step)) == h.written + [PcOf(h, step.t).call] + h.queuedCalls
  {
    hide Encode, FramesOf, ChunkCount, Flatten, Total, EncodeAll, Sendables, BytesCounted, WireKept, PcsKept, LockKept, InFlight, PacketOf;
    var h2 := Do(c, h, step);
    StepFlies(c, h, step);
    match step
    case Enqueue(t) =>
      if h2.queuedCalls != h.queuedCalls { Associates(h.written + InFlight(h), h.queuedCalls, [PcOf(h, t).call]); }
    case TakeChunk(t) =>
      if h.queued != [] {
        var n := ChunkCount(h.queued, c.flushChunkSize);
        assert h.queuedCalls == h.queuedCalls[..n] + h.queuedCalls[n..];
        assert h.written + [] == h.written;
        Associates(h.written, h.queuedCalls[..n], h.queuedCalls[n..]);
      }
    case WriteChunk(t) =>
      assert h.written + InFlight(h) + [] == h.written + InFlight(h);
    case Send(t) =>
      assert h.written + [] == h.written && h.written + [PcOf(h, t).call] + [] == h.written + [PcOf(h, t).call];
    case _ =>
  }

  /** A thread between taking and releasing the lock is the only one. */
  lemma FlightOf(h: Host, t: Thread)
    requires LockKept(h) && t in h.pc && Holds(h.pc[t])
    ensures h.transportLock == Some(t) && InFlight(h) == if h.pc[t].WritesChunk? then h.pc[t].group else []
  {
  }

  /** A thread that writes no chunk and takes none leaves what is in flight. */
  lemma FlightStays(h: Host, h2: Host, t: Thread)
    requires LockKept(h) && h2.pc == h.pc[t := PcOf(h2, t)]
    requires !PcOf(h, t).WritesChunk? && !PcOf(h2, t).WritesChunk?
    requires h2.transportLock == h.transportLock || h.transportLock == None || h.transportLock == Some(t)
    requires h2.transportLock == h.transportLock || h2.transportLock == None || h2.transportLock == Some(t)
    ensures InFlight(h2) == InFlight(h)
  {
  }

  /** What is in flight before and after a step. */
  lemma StepFlies(c: Config, h: Host, step: Step)
    requires Inv(c, h) && Can(h, step)
    ensures step.TakeChunk? ==> InFlight(h) == []
    ensures step.TakeChunk? && h.queued == [] ==> InFlight(Do(c, h, step)) == []
    ensures step.TakeChunk? && h.queued != [] ==>
            var n := ChunkCount(h.queued, c.flushChunkSize);
            n <= |h.queuedCalls| && InFlight(Do(c, h, step)) == h.queuedCalls[..n]
    ensures step.WriteChunk? ==> InFlight(h) == PcOf(h, step.t).group && InFlight(Do(c, h, step)) == []
    ensures step.Send? ==> InFlight(h) == [] && InFlight(Do(c, h, step)) == []
    ensures !step.TakeChunk? && !step.WriteChunk? && !step.Send? ==> InFlight(Do(c, h, step)) == InFlight(h)
  {
    hide Encode, FramesOf, ChunkCount, Flatten, Total, EncodeAll, Sendables, BytesCounted, WireKept, PcKept, PcsKept, PacketOf, InFlight,
         LockKept, QueueKept;
    var h2, t := Do(c, h, step), step.t;
    assert LockKept(h) && QueueKept(h);
    match step
    case TakeChunk(_) =>
      FlightOf(h, t);
      CallsMatch(h);
      if h.queued == [] { NoFlight(h2); } else { FlightIs(h2, t); }
    case WriteChunk(_) =>
      FlightOf(h, t);
      FlightIs(h2, t);
    case Send(_) =>
      FlightOf(h, t);
      if h2.transportLock.None? { NoFlight(h2); } else { FlightIs(h2, t); }
    case BeginBatch(_) => SameFlight(h, h2);
    case Answered(_) =>
      FlightOf(h, t);
      NoFlight(h2);
    case _ =>
      if h2.pc == h.pc && h2.transportLock == h.transportLock { SameFlight(h, h2); } else { FlightStays(h, h2, t); }
  }

  lemma CallsMatch(h: Host)
    requires QueueKept(h)
    ensures |h.queuedCalls| == |h.queued|
  {
  }

  lemma NoFlight(h: Host)
    requires h.transportLock.None?
    ensures InFlight(h) == []
  {
  }

  lemma FlightIs(h: Host, t: Thread)
    requires h.transportLock == Some(t) && t in h.pc
    ensures InFlight(h) == if h.pc[t].WritesChunk? then h.pc[t].group else []
  {
  }

  lemma SameFlight(h: Host, h2: Host)
    requires h2.pc == h.pc && h2.transportLock == h.transportLock
    ensures InFlight(h2) == InFlight(h)
  {
  }

  lemma SettleOne(calls: seq<Call>, later: seq<Call>, call: Call, n: nat)
    requires Unique(calls + later) && Below(calls + later, n) && call.number < n && Absent(call.number, calls + later)
    ensures Unique(calls + [call] + later) && Below(calls + [call] + later, n)
    ensures forall m: nat | m != call.number && Absent(m, calls + later) :: Absent(m, calls + [call] + later)
  {
    var all, more := calls + later, calls + [call] + later;
    assert forall i | 0 <= i < |calls| :: more[i] == all[i];
    assert more[|calls|] == call;
    forall i | |calls| < i < |more| ensures more[i] == all[i - 1] {
      assert more[i] == later[i - 1 - |calls|];
    }
    forall m: nat | m != call.number && Absent(m, all) ensures Absent(m, more) {
      forall i | 0 <= i < |more| ensures more[i].number != m {
        if i > |calls| { assert all[i - 1].number != m; }
      }
    }
    forall i | 0 <= i < |more| ensures more[i].number < n {
      if i > |calls| { assert all[i - 1].number < n; }
    }
    forall i, j | 0 <= i < j < |more| ensures more[i].number != more[j].number {
      var k, l := if i > |calls| then i - 1 else i, if j > |calls| then j - 1 else j;
      if i != |calls| && j != |calls| {
        assert all[k].number != all[l].number;
      } else {
        assert i != |calls| ==> all[k].number != call.number;
        assert j != |calls| ==> all[l].number != call.number;
      }
    }
  }

  /** The threads other than t are where they were, and what t holds it held before. */
  predicate Moved(h: Host, h2: Host, t: Thread) {
    forall u | u in h2.pc ::
      if u == t then Held(h2.pc[u]).Some? ==> u in h.pc && Held(h2.pc[u]) == Held(h.pc[u])
      else u in h.pc && h2.pc[u] == h.pc[u]
  }

  lemma MoveKeepsHeld(h: Host, h2: Host, t: Thread)
    requires HeldKept(h) && Moved(h, h2, t) && h2.next == h.next && Settled(h2) == Settled(h)
    ensures HeldKept(h2)
  {
    hide Settled, Absent, Held;
  }

  /** One command is settled that its thread no longer holds. */
  lemma SettlingKeepsHeld(h: Host, h2: Host, t: Thread)
    requires HeldKept(h) && Moved(h, h2, t) && h2.next == h.next
    requires t in h.pc && Held(h.pc[t]).Some? && (t in h2.pc ==> Held(h2.pc[t]).None?)
    requires forall m: nat | m != Held(h.pc[t]).value.number && Absent(m, Settled(h)) :: Absent(m, Settled(h2))
    ensures HeldKept(h2)
  {
    hide Settled, Absent, Held;
  }

  lemma StepNumbers(c: Config, h: Host, step: Step)
    requires Inv(c, h) && Numbered(h) && Can(h, step)
    ensures Numbered(Do(c, h, step))
  {
    hide Encode, FramesOf, ChunkCount, Flatten, Total, EncodeAll, Sendables, Settled, Unique, Below, Absent, Inv, HeldKept,
         AwaitKept, Firmware.Frames, PacketOf;
    var h2 := Do(c, h, step);
    StepSettles(c, h, step);
    StepAwaits(c, h, step);
    match step
    case Enqueue(t) =>
      if Settled(h2) != Settled(h) {
        var call := PcOf(h, t).call;
        HeldIs(h, t);
        assert Settled(h) + [] == Settled(h) && Settled(h) + [call] + [] == Settled(h2);
        SettleOne(Settled(h), [], call, h.next);
        SettlingKeepsHeld(h, h2, t);
      } else {
        MoveKeepsHeld(h, h2, t);
      }
    case Send(t) =>
      HeldIs(h, t);
      SettleOne(h.written, h.queuedCalls, PcOf(h, t).call, h.next);
      SettlingKeepsHeld(h, h2, t);
    case Command(t, _, _, _) =>
      NewNumber(Settled(h), h.next);
      CommandKeepsHeld(c, h, step);
    case _ =>
      MoveKeepsHeld(h, h2, step.t);
  }

  lemma HeldIs(h: Host, t: Thread)
    requires HeldKept(h) && t in h.pc && Held(h.pc[t]).Some?
    ensures var n := Held(h.pc[t]).value.number; n < h.next && Absent(n, Settled(h))
  {
  }

  lemma CommandKeepsHeld(c: Config, h: Host, step: Step)
    requires HeldKept(h) && step.Command? && Can(h, step) && Settled(Do(c, h, step)) == Settled(h) && Absent(h.next, Settled(h))
    ensures HeldKept(Do(c, h, step))
  {
    hide Encode, Settled, Absent, PacketOf;
  }

  lemma StepAwaits(c: Config, h: Host, step: Step)
    requires Inv(c, h) && AwaitKept(h) && Can(h, step)
    ensures AwaitKept(Do(c, h, step))
  {
    hide Encode, FramesOf, ChunkCount, Flatten, Total, EncodeAll, Sendables, QueueKept, BytesCounted, WireKept, PcsKept, PacketOf;
    var h2 := Do(c, h, step);
    forall t | t in h2.pc && h2.pc[t].AwaitsResponse?
      ensures h2.written != [] && h2.written[|h2.written| - 1] == h2.pc[t].call
    {
      if step.WriteChunk? || step.Send? {
        if t != step.t { OneHolder(h, t, step.t); }
      } else {
        assert t in h.pc && h.pc[t].AwaitsResponse?;
      }
    }
  }

  lemma OneHolder(h: Host, t: Thread, u: Thread)
    requires LockKept(h) && t in h.pc && u in h.pc && Holds(h.pc[t]) && Holds(h.pc[u])
    ensures t == u
  {
  }

  lemma NewNumber(calls: seq<Call>, n: nat)
    requires Below(calls, n)
    ensures Below(calls, n + 1) && Absent(n, calls)
  {
  }

  // ---- runs ----

  /** steps can be taken one after the other from h. */
  predicate CanAll(c: Config, h: Host, steps: seq<Step>)
    decreases |steps|
  {
    steps != [] ==> Can(h, steps[0]) && CanAll(c, Do(c, h, steps[0]), steps[1..])
  }

  function DoAll(c: Config, h: Host, steps: seq<Step>): Host
    requires CanAll(c, h, steps)
    decreases |steps|
  {
    if steps == [] then h else DoAll(c, Do(c, h, steps[0]), steps[1..])
  }

  lemma {:induction false} RunKeeps(c: Config, h: Host, steps: seq<Step>)
    requires Inv(c, h) && Numbered(h) && CanAll(c, h, steps)
    ensures Inv(c, DoAll(c, h, steps)) && Numbered(DoAll(c, h, steps))
    decreases |steps|
  {
    hide Inv, Do, Can, Numbered;
    if steps != [] {
      StepKeeps(c, h, steps[0]);
      StepNumbers(c, h, steps[0]);
      RunKeeps(c, Do(c, h, steps[0]), steps[1..]);
    }
  }

  /** After any interleaving of any threads' commands, batches and flushes, a firmware
      parser that has read the wire has delivered exactly the packets written, in order;
      the commands the queue took are those flushed, in flight and queued, in order; the
      byte count is right and within the limit; no two commands written have the same
      count; and a thread waits for the response to the command written last. */
  lemma EndToEndDelivery(c: Config, steps: seq<Step>)
    requires CanAll(c, INITIAL, steps)
    ensures var h := DoAll(c, INITIAL, steps);
            && Firmware.PushAll([], h.wire) == Firmware.Parse(PacketsOf(h.written), [])
            && h.accepted == h.flushed + InFlight(h) + h.queuedCalls
            && Sendables(h.queuedCalls) && h.queued == EncodeAll(h.queuedCalls)
            && h.queuedBytes == Total(h.queued)
            && (c.queueMaxBytes.Some? && h.queued != [] ==> h.queuedBytes <= c.queueMaxBytes.value)
            && (forall t | t in h.pc && h.pc[t].WritesChunk? ::
                  && h.transportLock == Some(t)
                  && Sendables(h.pc[t].group) && h.pc[t].chunk == FramesOf(h.pc[t].group))
            && Unique(h.written)
            && (forall t | t in h.pc && h.pc[t].AwaitsResponse? ::
                  h.written != [] && h.written[|h.written| - 1] == h.pc[t].call)
  {
    hide Do, Can, Firmware.PushAll, Firmware.Frames, Encode, PacketOf, CanAll, DoAll, Inv, Numbered, EncodeAll, Sendables, Unique;
    AtFirst(c);
    RunKeeps(c, INITIAL, steps);
    var h := DoAll(c, INITIAL, steps);
    WhatIsKept(c, h);
    Firmware.FramesArrive(PacketsOf(h.written));
  }

  lemma AtFirst(c: Config)
    ensures Inv(c, INITIAL) && Numbered(INITIAL)
  {
  }

  /** What the invariants say of a host. */
  lemma WhatIsKept(c: Config, h: Host)
    requires Inv(c, h) && Numbered(h)
    ensures Firmware.AllSendable(PacketsOf(h.written)) && h.wire == Firmware.Frames(PacketsOf(h.written))
    ensures h.accepted == h.flushed + InFlight(h) + h.queuedCalls
    ensures Sendables(h.queuedCalls) && h.queued == EncodeAll(h.queuedCalls)
    ensures BytesCounted(c, h) && Unique(h.written) && AwaitKept(h)
    ensures forall t | t in h.pc && h.pc[t].WritesChunk? ::
              && h.transportLock == Some(t)
              && Sendables(h.pc[t].group) && h.pc[t].chunk == FramesOf(h.pc[t].group)
  {
    hide Encode, PacketOf, EncodeAll, Firmware.Frames;
    UniqueFirst(h.written, InFlight(h) + h.queuedCalls);
    Associates(h.written, InFlight(h), h.queuedCalls);
    forall t | t in h.pc && h.pc[t].WritesChunk?
      ensures h.transportLock == Some(t) && Sendables(h.pc[t].group) && h.pc[t].chunk == FramesOf(h.pc[t].group)
    {
      assert Holds(h.pc[t]) && PcKept(h.pc[t]);
    }
  }

  lemma UniqueFirst(a: seq<Call>, b: seq<Call>)
    ensures Unique(a + b) ==> Unique(a)
  {
    if Unique(a + b) {
      assert forall i | 0 <= i < |a| :: (a + b)[i] == a[i];
    }
  }

  // ---- no packet is stranded ----

  /** Some thread is bound to flush. */
  predicate SomeoneFlushes(h: Host) {
    exists t :: t in h.pc && (h.pc[t].HasQueued? || h.pc[t].WillFlush? || h.pc[t].Flushing? || h.pc[t].WritesChunk?)
  }

  predicate NotStranded(h: Host) {
    h.queued != [] && h.batchDepth == 0 ==> SomeoneFlushes(h)
  }

  lemma StepStrandsNothing(c: Config, h: Host, step: Step)
    requires c.autoFlush && !Truthy(c.flushRate)
    requires NotStranded(h) && Can(h, step)
    ensures NotStranded(Do(c, h, step))
  {
    hide Encode, ChunkCount;
    var h2 := Do(c, h, step);
    if h2.queued != [] && h2.batchDepth == 0 {
      if h.batchDepth == 0 && h.queued != [] {
        var t :| t in h.pc && (h.pc[t].HasQueued? || h.pc[t].WillFlush? || h.pc[t].Flushing? || h.pc[t].WritesChunk?);
        assert t in h2.pc;
      } else {
        assert step.t in h2.pc;
      }
    }
  }

  /** With automatic flushing and no flush rate, whenever packets are queued and no batch
      is open, some thread is on its way to flush them. */
  lemma {:induction false} NothingStranded(c: Config, h: Host, steps: seq<Step>)
    requires c.autoFlush && !Truthy(c.flushRate)
    requires NotStranded(h) && CanAll(c, h, steps)
    ensures NotStranded(DoAll(c, h, steps))
    decreases |steps|
  {
    hide Do, Can, NotStranded;
    if steps != [] {
      StepStrandsNothing(c, h, steps[0]);
      NothingStranded(c, Do(c, h, steps[0]), steps[1..]);
    }
  }
}
