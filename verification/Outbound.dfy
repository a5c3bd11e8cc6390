/** The firmware's ring of asynchronous frames waiting to be written. */
module Outbound {
  import opened Seqs
  import opened Wire
  import opened Frame
  import opened Firmware

  const CAPACITY: nat := 64

  // ---- a drop-oldest queue ----

  /** A full queue gives up its oldest packet for the new one. */
  function Put(queue: seq<Packet>, p: Packet): (r: seq<Packet>)
    ensures |queue| <= CAPACITY ==> |r| <= CAPACITY
  {
    (if |queue| >= CAPACITY then queue[1..] else queue) + [p]
  }

  /** How many leading packets a flush writes: each needs its frame's size in room, the
      stream reports rooms[k] when asked for the k-th time, and at most max are written. */
  function FlushCount(queue: seq<Packet>, rooms: seq<int>, max: nat): (n: nat)
    requires |rooms| >= max
    ensures n <= |queue| && n <= max
    decreases max
  {
    if queue == [] || max == 0 || rooms[0] < PacketWriter.EncodedSize(|queue[0].payload|) then 0
    else 1 + FlushCount(queue[1..], rooms[1..], max - 1)
  }

  /** A flush writes whole frames only where the stream has room for them, and stops short
      of the limit only when the queue is empty or the next frame has no room. */
  lemma {:induction false} FlushCountExact(queue: seq<Packet>, rooms: seq<int>, max: nat)
    requires |rooms| >= max
    ensures var n := FlushCount(queue, rooms, max);
            && (forall k | 0 <= k < n :: rooms[k] >= 9 + |queue[k].payload|)
            && (n < |queue| && n < max ==> rooms[n] < 9 + |queue[n].payload|)
    decreases max
  {
    var n := FlushCount(queue, rooms, max);
    if n > 0 {
      FlushCountExact(queue[1..], rooms[1..], max - 1);
      assert forall k | 1 <= k < n :: rooms[k] == rooms[1..][k - 1] && queue[k] == queue[1..][k - 1];
    }
  }

  // ---- the ring ----

  /** The slot k places after h. */
  function Slot(h: nat, k: nat): (i: nat)
    ensures i < CAPACITY
  {
    (h + k) % CAPACITY
  }

  lemma SlotFacts(h: nat)
    requires h < CAPACITY
    ensures Slot(h, 0) == h
    ensures forall j, k | 0 <= j < k < CAPACITY :: Slot(h, j) != Slot(h, k)
  {
    forall j, k | 0 <= j < k < CAPACITY ensures Slot(h, j) != Slot(h, k) {
      assert Slot(h, j) == if h + j < CAPACITY then h + j else h + j - CAPACITY;
      assert Slot(h, k) == if h + k < CAPACITY then h + k else h + k - CAPACITY;
    }
  }

  lemma SlotShift(h: nat, a: nat, k: nat)
    ensures Slot(Slot(h, a), k) == Slot(h, a + k)
  {
  }

  class OutboundRing {
    const slots: array<Option<Packet>>
    var head: nat
    var tail: nat
    var count: nat
    var dropped: u32
    /** The packets waiting; and, since construction or the last reset, those that left the
        queue, those of them that were written, and how many were dropped. */
    ghost var queue: seq<Packet>
    ghost var gone: seq<Packet>
    ghost var written: seq<Packet>
    ghost var drops: nat

    /** The ring stores the queue: count packets from head on. */
    ghost predicate Represents(queue: seq<Packet>)
      reads `head, `tail, `count, slots
    {
      && slots.Length == CAPACITY
      && head < CAPACITY && tail < CAPACITY && count <= CAPACITY && |queue| == count
      && tail == Slot(head, count)
      && (forall k | 0 <= k < count :: slots[Slot(head, k)] == Some(queue[k]))
    }

    ghost predicate Valid()
      reads this, slots
    {
      && Represents(queue) && Balanced(gone, written, drops) && dropped == Cut32(drops)
      && AllSendable(queue)
    }

    /** Every packet accepted since the last reset, in order: the queue is the end of it. */
    ghost function Accepted(): seq<Packet>
      reads `gone, `queue
    {
      gone + queue
    }

    constructor ()
      ensures Valid() && queue == gone == written == [] && drops == 0
      ensures fresh(slots)
    {
      hide Slot, Subsequence;
      SlotFacts(0);
      SubsequenceOfNothing<Packet>([]);
      slots := new Option<Packet>[64](_ => None);
      head, tail, count, dropped := 0, 0, 0, 0;
      queue, gone, written, drops := [], [], [], 0;
    }

    method Reset()
      requires Valid()
      modifies this, slots
      ensures Valid() && queue == gone == written == [] && drops == 0
    {
      forall i | 0 <= i < slots.Length {
        slots[i] := None;
      }
      head, tail, count, dropped := 0, 0, 0, 0;
      queue, gone, written, drops := [], [], [], 0;
    }

    lemma Storage()
      requires Represents(queue)
      ensures slots.Length == CAPACITY
      ensures count == |queue| <= CAPACITY && head < slots.Length
      ensures queue != [] ==> slots[head] == Some(queue[0])
    {
      SlotFacts(head);
    }

    /** Takes the oldest packet out of the ring's storage. */
    method RemoveHead()
      requires Represents(queue) && queue != []
      modifies slots, `head, `count, `queue
      ensures Represents(queue) && queue == old(queue)[1..]
    {
      hide Slot;
      SlotFacts(head);
      ghost var h := head;
      slots[head] := None;
      head := Advance(head);
      count := count - 1;
      queue := queue[1..];
      forall k | 0 <= k < count
        ensures slots[Slot(head, k)] == Some(queue[k])
      {
        SlotShift(h, 1, k);
        assert Slot(h, k + 1) != Slot(h, 0);
      }
      SlotShift(h, 1, count);
    }

    /** Puts a packet at the end of the ring's storage. */
    method StoreTail(p: Packet)
      requires Represents(queue) && count < CAPACITY
      modifies slots, `tail, `count, `queue
      ensures Represents(queue) && queue == old(queue) + [p]
    {
      hide Slot;
      SlotFacts(head);
      slots[tail] := Some(p);
      tail := Advance(tail);
      count := count + 1;
      queue := queue + [p];
      forall k | 0 <= k < count
        ensures slots[Slot(head, k)] == Some(queue[k])
      {
        if k < count - 1 { assert Slot(head, k) != Slot(head, count - 1); }
      }
      SlotShift(head, count - 1, 1);
    }

    /** A full ring gives up its oldest frame. */
    method DropOldest()
      requires Valid() && queue != []
      modifies this, slots
      ensures Valid() && count == |queue| && queue == old(queue)[1..] && written == old(written)
      ensures gone == old(gone) + [old(queue)[0]] && drops == old(drops) + 1
    {
      hide Subsequence, Represents, Balanced;
      DropKeepsBalance(gone, written, drops, queue[0]);
      gone, drops := gone + [queue[0]], drops + 1;
      RemoveHead();
      dropped := Cut32(dropped + 1);
      Storage();
    }

    method QueueAsync(kind: byte, payload: seq<byte>) returns (ok: bool)
      requires Valid()
      modifies this, slots
      ensures Valid()
      ensures ok <==> |payload| <= MAX_PAYLOAD_SIZE
      ensures queue == if ok then Put(old(queue), Packet(kind, 0, payload)) else old(queue)
      ensures Accepted() == old(Accepted()) + if ok then [Packet(kind, 0, payload)] else []
      ensures written == old(written)
      ensures drops == old(drops) + if ok && |old(queue)| == CAPACITY then 1 else 0
    {
      hide Subsequence, Represents, Balanced;
      Storage();
      if |payload| > MAX_PAYLOAD_SIZE {
        return false;
      }
      ghost var p := Packet(kind, 0, payload);
      PutAccepts(gone, queue, p);
      if count >= CAPACITY {
        DropOldest();
      }
      StoreTail(Packet(kind, 0, payload));
      return true;
    }

    /** Writes the oldest frame out and frees its slot, if the stream has room for it. */
    method FlushOne(writer: PacketWriter, available: int) returns (wrote: bool)
      requires Valid() && queue != []
      modifies this, slots, writer
      ensures Valid() && count == |queue| && drops == old(drops)
      ensures Sendable(old(queue)[0])
      ensures wrote <==> available >= PacketWriter.EncodedSize(|old(queue)[0].payload|)
      ensures wrote ==>
              && queue == old(queue)[1..]
              && gone == old(gone) + [old(queue)[0]] && written == old(written) + [old(queue)[0]]
              && writer.stream == old(writer.stream) + Encode(old(queue)[0])
      ensures !wrote ==>
              queue == old(queue) && gone == old(gone) && written == old(written) && writer.stream == old(writer.stream)
    {
      hide Subsequence, Represents, Encode, Balanced;
      Storage();
      var frame := slots[head].value;
      var encodedSize := PacketWriter.EncodedSize(|frame.payload|);
      if available < encodedSize {
        return false;
      }
      writer.Write(frame.kind, frame.seqNo, frame.payload, |frame.payload|);
      assert frame.payload[..|frame.payload|] == frame.payload;
      WriteKeepsBalance(gone, written, drops, frame);
      gone, written := gone + [frame], written + [frame];
      RemoveHead();
      Storage();
      return true;
    }

    /** Writes queued frames, oldest first, while the stream has room for the next one. */
    method FlushAsync(writer: PacketWriter, rooms: seq<int>, maxFrames: nat)
      requires Valid() && |rooms| >= maxFrames
      modifies this, slots, writer
      ensures Valid()
      ensures AllSendable(old(queue))
      ensures var n := FlushCount(old(queue), rooms, maxFrames);
              && queue == old(queue)[n..]
              && written == old(written) + old(queue)[..n]
              && writer.stream == old(writer.stream) + Frames(old(queue)[..n])
      ensures Accepted() == old(Accepted()) && drops == old(drops)
    {
      hide Valid, Encode, Frames, FlushResult, FlushCount, AllSendable;
      Counted();
      ghost var start := Account(queue, gone, written, writer.stream);
      FlushResultIs(start, rooms, maxFrames);
      assert rooms[0..] == rooms;
      var done := 0;
      while count > 0 && done < maxFrames
        invariant Valid() && count == |queue| && done <= maxFrames && drops == old(drops)
        invariant FlushResult(Account(queue, gone, written, writer.stream), rooms[done..], maxFrames - done)
               == FlushResult(start, rooms, maxFrames)
      {
        FlushResultUnfolds(Account(queue, gone, written, writer.stream), rooms[done..], maxFrames - done);
        assert rooms[done..][1..] == rooms[done + 1..];
        var wrote := FlushOne(writer, rooms[done]);
        if !wrote {
          return;
        }
        done := done + 1;
      }
      FlushResultUnfolds(Account(queue, gone, written, writer.stream), rooms[done..], maxFrames - done);
    }

    lemma Counted()
      requires Valid()
      ensures count == |queue| && AllSendable(queue)
    {
    }
  }

  /** Whether or not the oldest is given up, the new packet follows all accepted before. */
  lemma PutAccepts(gone: seq<Packet>, queue: seq<Packet>, p: Packet)
    ensures queue != [] ==> gone + [queue[0]] + (queue[1..] + [p]) == gone + queue + [p]
    ensures gone + (queue + [p]) == gone + queue + [p]
  {
    if queue != [] {
      assert queue == [queue[0]] + queue[1..];
    }
  }

  /** The state a flush works on. */
  datatype Account = Account(queue: seq<Packet>, gone: seq<Packet>, written: seq<Packet>, stream: seq<byte>)

  /** The state after the oldest packet was written. */
  ghost function AfterHead(a: Account): Account
    requires a.queue != []
  {
    var p := a.queue[0];
    Account(a.queue[1..], a.gone + [p], a.written + [p], a.stream + if Sendable(p) then Encode(p) else [])
  }

  ghost function FlushResult(a: Account, rooms: seq<int>, max: nat): Account
    requires |rooms| >= max
    decreases max
  {
    if a.queue == [] || max == 0 || rooms[0] < PacketWriter.EncodedSize(|a.queue[0].payload|) then a
    else FlushResult(AfterHead(a), rooms[1..], max - 1)
  }

  lemma FlushResultUnfolds(a: Account, rooms: seq<int>, max: nat)
    requires |rooms| >= max
    ensures FlushResult(a, rooms, max) ==
            if a.queue == [] || max == 0 || rooms[0] < PacketWriter.EncodedSize(|a.queue[0].payload|) then a
            else FlushResult(AfterHead(a), rooms[1..], max - 1)
  {
  }

  lemma FlushCountUnfolds(queue: seq<Packet>, rooms: seq<int>, max: nat)
    requires |rooms| >= max
    ensures FlushCount(queue, rooms, max) ==
            if queue == [] || max == 0 || rooms[0] < PacketWriter.EncodedSize(|queue[0].payload|) then 0
            else 1 + FlushCount(queue[1..], rooms[1..], max - 1)
  {
  }

  lemma {:induction false} FlushResultIs(a: Account, rooms: seq<int>, max: nat)
    requires |rooms| >= max && AllSendable(a.queue)
    ensures var n := FlushCount(a.queue, rooms, max);
            && AllSendable(a.queue[..n])
            && FlushResult(a, rooms, max) ==
               Account(a.queue[n..], a.gone + a.queue[..n], a.written + a.queue[..n], a.stream + Frames(a.queue[..n]))
    ensures FlushResult(a, rooms, max).gone + FlushResult(a, rooms, max).queue == a.gone + a.queue
    decreases max
  {
    hide Encode, Frames, FlushResult, FlushCount;
    var n := FlushCount(a.queue, rooms, max);
    FlushCountUnfolds(a.queue, rooms, max);
    FlushResultUnfolds(a, rooms, max);
    if n == 0 {
      NothingFlushed(a);
    } else {
      var p, later := a.queue[0], a.queue[1..];
      FlushResultIs(AfterHead(a), rooms[1..], max - 1);
      FirstThenRest(a.queue, n);
      Associates(a.gone, [p], later[..n - 1]);
      Associates(a.written, [p], later[..n - 1]);
      Associates(a.stream, Encode(p), Frames(later[..n - 1]));
      Associates(a.gone, [p], later);
    }
  }

  lemma NothingFlushed(a: Account)
    ensures AllSendable(a.queue[..0])
    ensures a == Account(a.queue[0..], a.gone + a.queue[..0], a.written + a.queue[..0], a.stream + Frames(a.queue[..0]))
  {
    NoFrames();
    assert a.queue[..0] == [];
  }

  lemma FirstThenRest(queue: seq<Packet>, n: nat)
    requires 0 < n <= |queue| && AllSendable(queue)
    ensures var p, later := queue[0], queue[1..];
            && queue == [p] + later
            && queue[..n] == [p] + later[..n - 1] && queue[n..] == later[n - 1..]
            && Frames(queue[..n]) == Encode(p) + Frames(later[..n - 1])
  {
    hide Encode;
    assert queue[..n][1..] == queue[1..][..n - 1];
  }

  /** What left the queue was written or dropped. */
  ghost predicate Balanced(gone: seq<Packet>, written: seq<Packet>, drops: nat) {
    Subsequence(written, gone) && |gone| == |written| + drops
  }

  lemma DropKeepsBalance(gone: seq<Packet>, written: seq<Packet>, drops: nat, p: Packet)
    requires Balanced(gone, written, drops)
    ensures Balanced(gone + [p], written, drops + 1)
  {
    GrowRight(written, gone, [p]);
  }

  lemma WriteKeepsBalance(gone: seq<Packet>, written: seq<Packet>, drops: nat, p: Packet)
    requires Balanced(gone, written, drops)
    ensures Balanced(gone + [p], written + [p], drops)
  {
    JoinRight(written, gone, [p]);
  }

  /** The next slot round the ring. */
  function Advance(i: nat): nat {
    Slot(i, 1)
  }
}
