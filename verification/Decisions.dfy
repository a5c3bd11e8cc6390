/** What becomes of each command: whether it was given in a batch decides whether it is
    queued or sent, and what is queued waits for a flush. */
module Decisions {
  import opened Seqs
  import opened Wire
  import opened Frame
  import opened Calls
  import opened HostQueue
  import opened HostThreads

  // ---- a history beside a run ----

  datatype History = History(
    wants: map<nat, bool>,        // whether each command was given to get a response
    depths: map<nat, nat>,        // the batch depth when each command was decided on
    direct: seq<Call>,            // commands sent directly
    answered: seq<Call>,          // commands whose thread stopped waiting
    writes: seq<seq<byte>>)       // what was handed to the transport, call by call

  const NOTHING := History(map[], map[], [], [], [])

  /** What a step adds, by the state before it. */
  function Record(s: History, h: Host, step: Step): History
    requires Can(h, step)
  {
    match step
    case Command(_, _, _, respond) => s.(wants := s.wants[h.next := respond])
    case Decide(t) => s.(depths := s.depths[PcOf(h, t).call.number := h.batchDepth])
    case Send(t) => s.(direct := s.direct + [PcOf(h, t).call], writes := s.writes + [PcOf(h, t).encoded])
    case WriteChunk(t) => s.(writes := s.writes + [PcOf(h, t).chunk])
    case Answered(t) => s.(answered := s.answered + [PcOf(h, t).call])
    case _ => s
  }

  function RecordAll(c: Config, s: History, h: Host, steps: seq<Step>): History
    requires CanAll(c, h, steps)
    decreases |steps|
  {
    if steps == [] then s else RecordAll(c, Record(s, h, steps[0]), Do(c, h, steps[0]), steps[1..])
  }

  // ---- queued or sent ----

  predicate Decided(s: History, n: nat) {
    n in s.wants && n in s.depths
  }

  /** Given in a batch, or without need of a response where a flush rate is set. */
  predicate ToQueue(c: Config, s: History, n: nat) {
    Decided(s, n) && (s.depths[n] > 0 || (c.flushRate.Some? && !s.wants[n]))
  }

  predicate ToSend(c: Config, s: History, n: nat) {
    Decided(s, n) && !ToQueue(c, s, n)
  }

  predicate PcPlaced(c: Config, s: History, pc: Pc) {
    match pc
    case Drawn(call, _, respond) => call.number in s.wants && s.wants[call.number] == respond && call.number !in s.depths
    case WillQueue(call, _) => ToQueue(c, s, call.number)
    case WillSend(call, _, respond) => ToSend(c, s, call.number) && s.wants[call.number] == respond
    case Sends(call, _, respond) => ToSend(c, s, call.number) && s.wants[call.number] == respond
    case AwaitsResponse(call) => ToSend(c, s, call.number) && s.wants[call.number] && call in s.direct
    case _ => true
  }

  predicate PcsPlaced(c: Config, h: Host, s: History) {
    forall t | t in h.pc :: PcPlaced(c, s, h.pc[t])
  }

  predicate NumbersGiven(h: Host, s: History) {
    (forall n | n in s.wants :: n < h.next) && (forall n | n in s.depths :: n < h.next)
  }

  /** Where the commands are that were decided on and left their threads. */
  predicate CallsPlaced(c: Config, h: Host, s: History) {
    && (forall call | call in h.accepted :: ToQueue(c, s, call.number))
    && (forall call | call in s.direct :: ToSend(c, s, call.number))
    && (forall call | call in h.written :: call in h.flushed || call in s.direct)
    && (forall call | call in h.flushed :: call in h.accepted)
    && (forall call | call in s.answered :: call in s.direct && s.wants[call.number])
  }

  predicate Waits(h: Host, call: Call) {
    exists t :: t in h.pc && h.pc[t] == AwaitsResponse(call)
  }

  /** Every direct command that wants a response is waited for, or was. */
  predicate AllAwaited(h: Host, s: History) {
    forall call | call in s.direct && call.number in s.wants && s.wants[call.number] :: call in s.answered || Waits(h, call)
  }

  predicate Placed(c: Config, h: Host, s: History) {
    PcsPlaced(c, h, s) && NumbersGiven(h, s) && CallsPlaced(c, h, s) && AllAwaited(h, s)
  }

  /** What was known of a decided command stays so. */
  predicate Keeps(s: History, s2: History) {
    && (forall n | n in s.wants :: n in s2.wants && s2.wants[n] == s.wants[n])
    && (forall n | n in s.depths :: n in s2.depths && s2.depths[n] == s.depths[n])
    && (forall call | call in s.direct :: call in s2.direct)
  }

  lemma RecordKeeps(c: Config, h: Host, s: History, step: Step)
    requires Inv(c, h) && Can(h, step) && PcsPlaced(c, h, s) && NumbersGiven(h, s)
    ensures Keeps(s, Record(s, h, step))
  {
    hide Inv, NumbersGiven;
    assert NumbersGiven(h, s);
    if step.Command? { NextIsNew(h, s); }
  }

  lemma NextIsNew(h: Host, s: History)
    requires NumbersGiven(h, s)
    ensures h.next !in s.wants && h.next !in s.depths
  {
  }

  /** The other threads are placed as before. */
  lemma OthersPlaced(c: Config, h: Host, s: History, step: Step, u: Thread)
    requires Inv(c, h) && Numbered(h) && Can(h, step) && PcsPlaced(c, h, s) && NumbersGiven(h, s)
    requires u in h.pc && (u != step.t || step.BeginBatch?)
    ensures PcPlaced(c, Record(s, h, step), h.pc[u])
  {
    hide Inv, Numbered, NumbersGiven, Settled, Absent, Unique, Below, AwaitKept;
    RecordKeeps(c, h, s, step);
    assert PcPlaced(c, s, h.pc[u]);
    if step.Decide? && h.pc[u].Drawn? {
      TwoHeld(h, u, step.t);
    }
    if step.Command? { NextIsNew(h, s); }
  }

  lemma TwoHeld(h: Host, t: Thread, u: Thread)
    requires Numbered(h) && t in h.pc && u in h.pc && t != u && Held(h.pc[t]).Some? && Held(h.pc[u]).Some?
    ensures Held(h.pc[t]).value.number != Held(h.pc[u]).value.number
  {
    hide Settled, Absent;
  }

  /** The thread that moves is placed. */
  lemma MoverPlaced(c: Config, h: Host, s: History, step: Step)
    requires Can(h, step) && PcsPlaced(c, h, s) && NumbersGiven(h, s) && !step.BeginBatch?
    ensures PcPlaced(c, Record(s, h, step), PcOf(Do(c, h, step), step.t))
  {
    hide Encode, ChunkCount, Flatten, Total, PacketOf, NumbersGiven;
    assert PcPlaced(c, s, PcOf(h, step.t));
    if step.Command? { NextIsNew(h, s); }
  }

  lemma StepPcs(c: Config, h: Host, s: History, step: Step)
    requires Inv(c, h) && Numbered(h) && Can(h, step) && PcsPlaced(c, h, s) && NumbersGiven(h, s)
    ensures PcsPlaced(c, Do(c, h, step), Record(s, h, step)) && NumbersGiven(Do(c, h, step), Record(s, h, step))
  {
    hide Inv, Numbered, Encode, ChunkCount, Flatten, Total, PacketOf, PcPlaced;
    var h2, s2 := Do(c, h, step), Record(s, h, step);
    if step.Decide? { DrawnBelow(h, step.t); }
    if !step.BeginBatch? { MoverPlaced(c, h, s, step); }
    forall u | u in h2.pc ensures PcPlaced(c, s2, h2.pc[u]) {
      if u != step.t || step.BeginBatch? {
        assert u in h.pc && h2.pc[u] == h.pc[u];
        OthersPlaced(c, h, s, step, u);
      }
    }
  }

  lemma DrawnBelow(h: Host, t: Thread)
    requires Numbered(h) && t in h.pc && h.pc[t].Drawn?
    ensures h.pc[t].call.number < h.next
  {
    hide Settled, Absent;
    assert Held(h.pc[t]).Some?;
  }

  lemma ToQueueStays(c: Config, s: History, s2: History, n: nat)
    requires Keeps(s, s2) && Decided(s, n)
    ensures ToQueue(c, s2, n) == ToQueue(c, s, n) && ToSend(c, s2, n) == ToSend(c, s, n)
  {
  }

  lemma StepCalls(c: Config, h: Host, s: History, step: Step)
    requires Inv(c, h) && Can(h, step) && PcsPlaced(c, h, s) && NumbersGiven(h, s) && CallsPlaced(c, h, s)
    ensures CallsPlaced(c, Do(c, h, step), Record(s, h, step))
  {
    hide Inv, Encode, ChunkCount, Flatten, Total, PacketOf, NumbersGiven, ToQueue, ToSend, Keeps;
    var h2, s2 := Do(c, h, step), Record(s, h, step);
    RecordKeeps(c, h, s, step);
    forall call | call in h2.accepted ensures ToQueue(c, s2, call.number) {
      assert call in h.accepted || (step.Enqueue? && PcPlaced(c, s, PcOf(h, step.t)));
      assert ToQueue(c, s, call.number);
      QueuedIsDecided(c, s, call.number);
      ToQueueStays(c, s, s2, call.number);
    }
    forall call | call in s2.direct ensures ToSend(c, s2, call.number) {
      assert call in s.direct || (step.Send? && PcPlaced(c, s, PcOf(h, step.t)));
      assert ToSend(c, s, call.number);
      SentIsDecided(c, s, call.number);
      ToQueueStays(c, s, s2, call.number);
    }
    if step.WriteChunk? { GroupAccepted(c, h, step.t); }
    forall call | call in s2.answered ensures call in s2.direct && call.number in s2.wants && s2.wants[call.number] {
      if call !in s.answered {
        assert PcPlaced(c, s, PcOf(h, step.t));
        SentIsDecided(c, s, call.number);
      } else {
        SentIsDecided(c, s, call.number);
      }
      WantsStay(s, s2, call.number);
    }
  }

  lemma WantsStay(s: History, s2: History, n: nat)
    requires Keeps(s, s2) && n in s.wants
    ensures n in s2.wants && s2.wants[n] == s.wants[n]
  {
  }

  lemma QueuedIsDecided(c: Config, s: History, n: nat)
    requires ToQueue(c, s, n)
    ensures Decided(s, n)
  {
  }

  lemma SentIsDecided(c: Config, s: History, n: nat)
    requires ToSend(c, s, n)
    ensures Decided(s, n) && n in s.wants
  {
  }

  /** What a flush writes was accepted. */
  lemma GroupAccepted(c: Config, h: Host, t: Thread)
    requires Inv(c, h) && t in h.pc && h.pc[t].WritesChunk?
    ensures forall call | call in h.pc[t].group :: call in h.accepted
  {
    hide EncodeAll, Sendables, PcsKept, BytesCounted, WireKept, InFlight;
    FlightOf(h, t);
  }

  lemma StepAwaited(c: Config, h: Host, s: History, step: Step)
    requires Inv(c, h) && Can(h, step) && PcsPlaced(c, h, s) && NumbersGiven(h, s) && CallsPlaced(c, h, s) && AllAwaited(h, s)
    ensures AllAwaited(Do(c, h, step), Record(s, h, step))
  {
    hide Inv, Encode, ChunkCount, Flatten, Total, PacketOf, NumbersGiven, ToQueue, Keeps, Waits;
    var h2, s2 := Do(c, h, step), Record(s, h, step);
    RecordKeeps(c, h, s, step);
    forall call | call in s2.direct && call.number in s2.wants && s2.wants[call.number]
      ensures call in s2.answered || Waits(h2, call)
    {
      if step.Send? && call == PcOf(h, step.t).call {
        assert PcPlaced(c, s, PcOf(h, step.t));
        NowWaits(h2, step.t, call);
      } else {
        assert call in s.direct && ToSend(c, s, call.number);
        SentIsDecided(c, s, call.number);
        WantsStay(s, s2, call.number);
        if call !in s.answered {
          StillWaits(c, h, step, call);
        }
      }
    }
  }

  lemma NowWaits(h: Host, t: Thread, call: Call)
    requires t in h.pc && h.pc[t] == AwaitsResponse(call)
    ensures Waits(h, call)
  {
  }

  /** A thread stops waiting only by taking its answer. */
  lemma StillWaits(c: Config, h: Host, step: Step, call: Call)
    requires Can(h, step) && Waits(h, call)
    ensures Waits(Do(c, h, step), call) || (step.Answered? && PcOf(h, step.t) == AwaitsResponse(call))
  {
    hide Encode, ChunkCount, Flatten, Total, PacketOf;
    var t :| t in h.pc && h.pc[t] == AwaitsResponse(call);
    var h2 := Do(c, h, step);
    if t != step.t || step.BeginBatch? {
      assert t in h2.pc && h2.pc[t] == AwaitsResponse(call);
    }
  }

  lemma {:induction false} RunPlaced(c: Config, s: History, h: Host, steps: seq<Step>)
    requires Inv(c, h) && Numbered(h) && Placed(c, h, s) && CanAll(c, h, steps)
    ensures Placed(c, DoAll(c, h, steps), RecordAll(c, s, h, steps))
    decreases |steps|
  {
    hide Inv, Numbered, Do, Can, Record, PcsPlaced, NumbersGiven, CallsPlaced, AllAwaited;
    if steps != [] {
      StepKeeps(c, h, steps[0]);
      StepNumbers(c, h, steps[0]);
      StepPcs(c, h, s, steps[0]);
      StepCalls(c, h, s, steps[0]);
      StepAwaited(c, h, s, steps[0]);
      RunPlaced(c, Record(s, h, steps[0]), Do(c, h, steps[0]), steps[1..]);
    }
  }

  /** Over any interleaving: a command decided on in a batch, or wanting no response under a
      flush rate, is never sent directly, and if it is on the wire a flush wrote it; any
      other command never enters the queue, and if it wants a response its thread waits for
      it or did; no other is ever waited for. */
  lemma DecisionsKept(c: Config, steps: seq<Step>)
    requires CanAll(c, INITIAL, steps)
    ensures var h, s := DoAll(c, INITIAL, steps), RecordAll(c, NOTHING, INITIAL, steps);
            && (forall call | call in h.accepted :: ToQueue(c, s, call.number))
            && (forall call | call in s.direct :: ToSend(c, s, call.number))
            && (forall call | call in h.written ::
                  && Decided(s, call.number)
                  && (ToQueue(c, s, call.number) ==> call in h.flushed && call !in s.direct)
                  && (ToSend(c, s, call.number) ==> call in s.direct && call !in h.accepted))
            && (forall call | call in s.direct && s.wants[call.number] :: call in s.answered || Waits(h, call))
            && (forall t | t in h.pc && h.pc[t].AwaitsResponse? ::
                  h.pc[t].call in s.direct && ToSend(c, s, h.pc[t].call.number) && s.wants[h.pc[t].call.number])
  {
    hide Inv, Numbered, DoAll, CanAll, RecordAll, Waits;
    AtFirst(c);
    RunPlaced(c, NOTHING, INITIAL, steps);
    var h, s := DoAll(c, INITIAL, steps), RecordAll(c, NOTHING, INITIAL, steps);
    forall t | t in h.pc && h.pc[t].AwaitsResponse?
      ensures h.pc[t].call in s.direct && ToSend(c, s, h.pc[t].call.number) && s.wants[h.pc[t].call.number]
    {
      assert PcPlaced(c, s, h.pc[t]);
    }
  }

  // ---- what is queued waits ----

  /** Nobody is flushing or about to. */
  predicate NobodyFlushes(h: Host) {
    forall t | t in h.pc :: !h.pc[t].WillFlush? && !h.pc[t].Flushing? && !h.pc[t].WritesChunk?
  }

  /** Commands that were queued do not make their threads flush: a batch is open, or automatic
      flushing is off, or there is a flush rate. */
  predicate HoldsBack(c: Config, h: Host) {
    h.batchDepth > 0 || !c.autoFlush || Truthy(c.flushRate)
  }

  /** Neither an outermost batch ends nor anybody asks for a flush. */
  predicate NoFlushAsked(h: Host, step: Step) {
    !step.CallFlush? && (step.EndBatch? ==> h.batchDepth > 1)
  }

  predicate HeldBack(c: Config, h: Host, steps: seq<Step>)
    requires CanAll(c, h, steps)
    decreases |steps|
  {
    steps != [] ==> HoldsBack(c, h) && NoFlushAsked(h, steps[0]) && HeldBack(c, Do(c, h, steps[0]), steps[1..])
  }

  lemma StepHeldBack(c: Config, h: Host, step: Step)
    requires Can(h, step) && NobodyFlushes(h) && HoldsBack(c, h) && NoFlushAsked(h, step)
    ensures NobodyFlushes(Do(c, h, step)) && Do(c, h, step).flushed == h.flushed
  {
    hide Encode, PacketOf;
  }

  /** While queued commands are held back, inside a batch above all, not one of them is
      written. */
  lemma {:induction false} NothingFlushedMeanwhile(c: Config, h: Host, steps: seq<Step>)
    requires CanAll(c, h, steps) && NobodyFlushes(h) && HeldBack(c, h, steps)
    ensures DoAll(c, h, steps).flushed == h.flushed && NobodyFlushes(DoAll(c, h, steps))
    decreases |steps|
  {
    hide Do, Can, NobodyFlushes, HoldsBack, NoFlushAsked;
    if steps != [] {
      StepHeldBack(c, h, steps[0]);
      NothingFlushedMeanwhile(c, Do(c, h, steps[0]), steps[1..]);
    }
  }

  function Begun(steps: seq<Step>): nat {
    if steps == [] then 0 else (if steps[0].BeginBatch? then 1 else 0) + Begun(steps[1..])
  }

  function Ended(steps: seq<Step>): nat {
    if steps == [] then 0 else (if steps[0].EndBatch? then 1 else 0) + Ended(steps[1..])
  }

  /** The batch depth is the number of batches begun and not ended. */
  lemma {:induction false} DepthIsOpenBatches(c: Config, h: Host, steps: seq<Step>)
    requires CanAll(c, h, steps)
    ensures DoAll(c, h, steps).batchDepth == h.batchDepth + Begun(steps) - Ended(steps)
    decreases |steps|
  {
    hide Encode, PacketOf;
    if steps != [] { DepthIsOpenBatches(c, Do(c, h, steps[0]), steps[1..]); }
  }

  // ---- a flush, undisturbed ----

  /** A thread that has begun to flush, and nobody else doing anything until it is done:
      it makes exactly the writes shown to be fewest, and leaves the queue empty. */
  lemma {:induction false} FlushWritesAll(c: Config, s: History, h: Host, t: Thread) returns (steps: seq<Step>)
    requires Inv(c, h) && t in h.pc && h.pc[t].Flushing?
    ensures CanAll(c, h, steps) && forall i | 0 <= i < |steps| :: steps[i] == TakeChunk(t) || steps[i] == WriteChunk(t)
    ensures var h2 := DoAll(c, h, steps);
            && PcOf(h2, t).Idle? && h2.transportLock.None? && h2.queued == []
            && RecordAll(c, s, h, steps).writes == s.writes + FlushWrites(h.queued, c.flushChunkSize)
    decreases |h.queued|
  {
    hide Inv, Encode, PacketOf, ChunkCount, FlushWrites, Flatten, Total, CanAll, DoAll, RecordAll;
    var take, write := TakeChunk(t), WriteChunk(t);
    StepKeeps(c, h, take);
    var h1 := Do(c, h, take);
    if h.queued == [] {
      steps := [take];
      NoSteps(c, s, h1);
      OneFirst(c, s, h, take, []);
      assert [take] + [] == [take];
      NothingToFlush(c.flushChunkSize);
      assert s.writes + [] == s.writes;
    } else {
      var n := ChunkCount(h.queued, c.flushChunkSize);
      ChunkWritten(c, s, h, t);
      StepKeeps(c, h1, write);
      var s2 := s.(writes := s.writes + [Flatten(h.queued[..n])]);
      var later := FlushWritesAll(c, s2, Do(c, h1, write), t);
      OneFirst(c, Record(s, h, take), h1, write, later);
      OneFirst(c, s, h, take, [write] + later);
      steps := [take] + ([write] + later);
      FlushUnfolds(h.queued, c.flushChunkSize);
      Associates(s.writes, [Flatten(h.queued[..n])], FlushWrites(h.queued[n..], c.flushChunkSize));
    }
  }

  lemma NoSteps(c: Config, s: History, h: Host)
    ensures CanAll(c, h, []) && DoAll(c, h, []) == h && RecordAll(c, s, h, []) == s
  {
  }

  /** When the outermost batch ends and nobody holds the lock, its thread flushes all that was
      queued. */
  lemma BatchExitFlushes(c: Config, s: History, h: Host, t: Thread) returns (steps: seq<Step>)
    requires Inv(c, h) && PcOf(h, t).Idle? && h.batchDepth == 1 && h.transportLock.None?
    ensures CanAll(c, h, steps) && |steps| >= 2 && steps[0] == EndBatch(t) && steps[1] == LockToFlush(t)
    ensures forall i | 2 <= i < |steps| :: steps[i] == TakeChunk(t) || steps[i] == WriteChunk(t)
    ensures var h2 := DoAll(c, h, steps);
            && h2.batchDepth == 0 && h2.queued == [] && PcOf(h2, t).Idle? && h2.transportLock.None?
            && RecordAll(c, s, h, steps).writes == s.writes + FlushWrites(h.queued, c.flushChunkSize)
  {
    hide Inv, Encode, PacketOf, ChunkCount, FlushWrites, Flatten, Total, CanAll, DoAll, RecordAll;
    var end, lock := EndBatch(t), LockToFlush(t);
    StepKeeps(c, h, end);
    var h1 := Do(c, h, end);
    StepKeeps(c, h1, lock);
    var h2 := Do(c, h1, lock);
    var later := FlushWritesAll(c, s, h2, t);
    OneFirst(c, s, h1, lock, later);
    OneFirst(c, s, h, end, [lock] + later);
    steps := [end] + ([lock] + later);
    DepthIsOpenBatches(c, h2, later);
    NoBatchSteps(later, t);
  }

  lemma {:induction false} NoBatchSteps(steps: seq<Step>, t: Thread)
    requires forall i | 0 <= i < |steps| :: steps[i] == TakeChunk(t) || steps[i] == WriteChunk(t)
    ensures Begun(steps) == Ended(steps) == 0
  {
    if steps != [] { NoBatchSteps(steps[1..], t); }
  }

  /** A run that begins with one step. */
  lemma OneFirst(c: Config, s: History, h: Host, step: Step, later: seq<Step>)
    requires Can(h, step) && CanAll(c, Do(c, h, step), later)
    ensures CanAll(c, h, [step] + later) && DoAll(c, h, [step] + later) == DoAll(c, Do(c, h, step), later)
    ensures RecordAll(c, s, h, [step] + later) == RecordAll(c, Record(s, h, step), Do(c, h, step), later)
  {
    hide Can, Do, Record;
    assert ([step] + later)[0] == step && ([step] + later)[1..] == later;
  }

  /** Taking a chunk and writing it. */
  lemma ChunkWritten(c: Config, s: History, h: Host, t: Thread)
    requires Can(h, TakeChunk(t)) && h.queued != []
    ensures var h1 := Do(c, h, TakeChunk(t));
            var n := ChunkCount(h.queued, c.flushChunkSize);
            && Can(h1, WriteChunk(t))
            && var h2 := Do(c, h1, WriteChunk(t));
               && t in h2.pc && h2.pc[t].Flushing? && h2.queued == h.queued[n..]
               && Record(Record(s, h, TakeChunk(t)), h1, WriteChunk(t)) == s.(writes := s.writes + [Flatten(h.queued[..n])])
  {
    hide ChunkCount, Flatten, Total;
  }

  // ---- what the queue takes ----

  /** The queue refuses a frame if and only if it would hold more bytes than its limit; a
      refused frame changes nothing but its thread. */
  lemma RefusedExactly(c: Config, h: Host, t: Thread)
    requires Inv(c, h) && t in h.pc && h.pc[t].WillQueue?
    ensures var h2, call, encoded := Do(c, h, Enqueue(t)), h.pc[t].call, h.pc[t].encoded;
            if c.queueMaxBytes.Some? && Total(h.queued + [encoded]) > c.queueMaxBytes.value
            then h2 == At(h, t, Idle)
            else h2.queued == h.queued + [encoded] && h2.queuedCalls == h.queuedCalls + [call] && h2.accepted == h.accepted + [call]
  {
    hide Encode, EncodeAll, Sendables;
    TotalJoins(h.queued, [h.pc[t].encoded]);
    assert Total([h.pc[t].encoded]) == |h.pc[t].encoded| + Total([]);
  }
}
