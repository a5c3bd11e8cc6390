/** The host's command queue and its flush. */
module HostQueue {
  import opened Seqs
  import opened Wire

  function Total(items: seq<seq<byte>>): nat {
    if items == [] then 0 else |items[0]| + Total(items[1..])
  }

  lemma {:induction false} TotalJoins(a: seq<seq<byte>>, b: seq<seq<byte>>)
    ensures Total(a + b) == Total(a) + Total(b)
  {
    if a == [] {
      assert a + b == b;
    } else {
      assert (a + b)[1..] == a[1..] + b;
      TotalJoins(a[1..], b);
    }
  }

  predicate NoneEmpty(items: seq<seq<byte>>) {
    forall i | 0 <= i < |items| :: items[i] != []
  }

  /** How many leading items fit a chunk of `room` bytes that already holds `used`. */
  function Fitting(items: seq<seq<byte>>, room: int, used: nat): (n: nat)
    ensures n <= |items|
  {
    if items != [] && used + |items[0]| <= room
    then 1 + Fitting(items[1..], room, used + |items[0]|)
    else 0
  }

  /** How many items one round of `flush` takes: all that fit, but at least one. */
  function ChunkCount(items: seq<seq<byte>>, room: int): (n: nat)
    requires items != []
    ensures 1 <= n <= |items|
  {
    var n := Fitting(items, room, 0);
    if n == 0 then 1 else n
  }

  /** The transport writes of a flush that nothing interferes with. */
  function FlushWrites(items: seq<seq<byte>>, room: int): seq<seq<byte>> {
    if items == [] then []
    else
      var n := ChunkCount(items, room);
      [Flatten(items[..n])] + FlushWrites(items[n..], room)
  }

  // ---- a flush is an in-order grouping, and no grouping is shorter ----

  /** A group one write may carry: it fits the chunk size, or it is a single packet. */
  predicate Fits(group: seq<seq<byte>>, room: int) {
    group != [] && (Total(group) <= room || |group| == 1)
  }

  predicate IsGrouping(groups: seq<seq<seq<byte>>>, items: seq<seq<byte>>, room: int) {
    Flatten(groups) == items && forall i | 0 <= i < |groups| :: Fits(groups[i], room)
  }

  lemma {:induction false} FittingFits(items: seq<seq<byte>>, room: int, used: nat)
    ensures var n := Fitting(items, room, used);
            n > 0 ==> used + Total(items[..n]) <= room
    decreases |items|
  {
    var n := Fitting(items, room, used);
    if n > 0 {
      FittingFits(items[1..], room, used + |items[0]|);
      assert items[..n][1..] == items[1..][..n - 1];
      if n == 1 { assert items[..n][1..] == []; }
    }
  }

  lemma {:induction false} FittingIsMost(items: seq<seq<byte>>, k: nat, room: int, used: nat)
    requires k <= |items| && used + Total(items[..k]) <= room
    ensures Fitting(items, room, used) >= k
    decreases k
  {
    if k > 0 {
      assert items[..k][1..] == items[1..][..k - 1];
      FittingIsMost(items[1..], k - 1, room, used + |items[0]|);
    }
  }

  lemma {:induction false} FlushIsGrouping(items: seq<seq<byte>>, room: int) returns (groups: seq<seq<seq<byte>>>)
    ensures IsGrouping(groups, items, room)
    ensures |groups| == |FlushWrites(items, room)|
    ensures forall i | 0 <= i < |groups| :: FlushWrites(items, room)[i] == Flatten(groups[i])
    ensures Flatten(FlushWrites(items, room)) == Flatten(items)
    decreases |items|
  {
    hide Fitting, ChunkCount, Total, FlushWrites, Flatten, Fits, IsGrouping;
    if items == [] {
      groups := [];
      NoGroups(room);
      NothingToFlush(room);
    } else {
      var n := ChunkCount(items, room);
      ChunkFits(items, room);
      FlushUnfolds(items, room);
      var later := FlushIsGrouping(items[n..], room);
      groups := [items[..n]] + later;
      WritesPrepend(items[..n], later, FlushWrites(items[n..], room));
      GroupingPrepends(items[..n], later, items[n..], room);
      assert items == items[..n] + items[n..];
      FlattenJoins(items[..n], items[n..]);
      Prepended(Flatten(items[..n]), FlushWrites(items[n..], room));
    }
  }

  lemma NoGroups(room: int)
    ensures IsGrouping([], [], room) && Flatten<byte>([]) == []
  {
  }

  lemma WritesPrepend(first: seq<seq<byte>>, later: seq<seq<seq<byte>>>, writes: seq<seq<byte>>)
    requires |later| == |writes| && forall i | 0 <= i < |later| :: writes[i] == Flatten(later[i])
    ensures forall i | 0 <= i <= |later| :: ([Flatten(first)] + writes)[i] == Flatten(([first] + later)[i])
  {
    hide Flatten;
  }

  lemma GroupingPrepends(first: seq<seq<byte>>, later: seq<seq<seq<byte>>>, items: seq<seq<byte>>, room: int)
    requires Fits(first, room) && IsGrouping(later, items, room)
    ensures IsGrouping([first] + later, first + items, room)
  {
    hide Fits;
    Prepended(first, later);
  }

  lemma Prepended<T>(first: seq<T>, later: seq<seq<T>>)
    ensures Flatten([first] + later) == first + Flatten(later)
  {
    assert ([first] + later)[1..] == later;
  }

  lemma ChunkFits(items: seq<seq<byte>>, room: int)
    requires items != []
    ensures Fits(items[..ChunkCount(items, room)], room)
  {
    FittingFits(items, room, 0);
  }

  /** From any position, the flush is done in no more writes than any grouping of the
      whole: it never falls behind. */
  lemma {:induction false} FlushStaysAhead(items: seq<seq<byte>>, j: nat, groups: seq<seq<seq<byte>>>, room: int)
    requires j <= |items| && IsGrouping(groups, items, room)
    ensures |FlushWrites(items[j..], room)| <= |groups|
    decreases |groups|, |items| - j
  {
    hide Fitting, ChunkCount, Flatten, FlushWrites, Fits, Total;
    if j < |items| {
      FirstGroup(items, groups, room);
      var first, later := groups[0], groups[1..];
      var m := |first|;
      if m <= j {
        assert items[j..] == items[m..][j - m..];
        FlushStaysAhead(items[m..], j - m, later, room);
      } else {
        var rest := items[j..];
        var n := ChunkCount(rest, room);
        ChunkCovers(items, j, first, room);
        FlushUnfolds(rest, room);
        assert rest[n..] == items[m..][j + n - m..];
        FlushStaysAhead(items[m..], j + n - m, later, room);
      }
    } else {
      assert items[j..] == [];
      NothingToFlush(room);
    }
  }

  lemma NothingToFlush(room: int)
    ensures FlushWrites([], room) == []
  {
  }

  lemma FlushUnfolds(items: seq<seq<byte>>, room: int)
    requires items != []
    ensures var n := ChunkCount(items, room);
            FlushWrites(items, room) == [Flatten(items[..n])] + FlushWrites(items[n..], room)
  {
    hide ChunkCount;
  }

  lemma FirstGroup(items: seq<seq<byte>>, groups: seq<seq<seq<byte>>>, room: int)
    requires items != [] && IsGrouping(groups, items, room)
    ensures groups != [] && |groups[0]| <= |items| && items[..|groups[0]|] == groups[0]
    ensures Fits(groups[0], room) && IsGrouping(groups[1..], items[|groups[0]|..], room)
  {
    hide Total;
    assert items == groups[0] + Flatten(groups[1..]);
  }

  /** From inside a group, one round of flush takes at least the rest of it. */
  lemma ChunkCovers(items: seq<seq<byte>>, j: nat, first: seq<seq<byte>>, room: int)
    requires j < |first| <= |items| && items[..|first|] == first && Fits(first, room)
    ensures ChunkCount(items[j..], room) >= |first| - j
  {
    hide Fitting;
    assert items[j..][..|first| - j] == first[j..];
    assert first == first[..j] + first[j..];
    TotalJoins(first[..j], first[j..]);
    if Total(first) <= room { FittingIsMost(items[j..], |first| - j, room, 0); }
  }

  /** A flush empties the queue in the fewest writes any in-order grouping allows. */
  lemma FlushOptimal(items: seq<seq<byte>>, groups: seq<seq<seq<byte>>>, room: int)
    requires IsGrouping(groups, items, room)
    ensures |FlushWrites(items, room)| <= |groups|
  {
    assert items[0..] == items;
    FlushStaysAhead(items, 0, groups, room);
  }

  // ---- the queue ----

  class CommandQueue {
    const queueMaxBytes: Option<int>
    const flushChunkSize: int
    var queued: seq<seq<byte>>
    var queuedBytes: int
    /** The transport's writes so far. */
    var writes: seq<seq<byte>>

    ghost predicate Valid()
      reads this
    {
      && NoneEmpty(queued)
      && queuedBytes == Total(queued)
      && (queueMaxBytes.Some? && queued != [] ==> queuedBytes <= queueMaxBytes.value)
    }

    constructor (queueMaxBytes: Option<int>, flushChunkSize: int)
      ensures Valid() && queued == [] && writes == []
      ensures this.queueMaxBytes == queueMaxBytes && this.flushChunkSize == flushChunkSize
    {
      this.queueMaxBytes, this.flushChunkSize := queueMaxBytes, flushChunkSize;
      queued, queuedBytes, writes := [], 0, [];
    }

    /** Appends a frame, or refuses it and changes nothing if it would exceed the limit. */
    method QueuePacket(encoded: seq<byte>) returns (accepted: bool)
      requires Valid() && encoded != []
      modifies `queued, `queuedBytes
      ensures Valid()
      ensures accepted <==> queueMaxBytes.None? || Total(old(queued)) + |encoded| <= queueMaxBytes.value
      ensures queued == if accepted then old(queued) + [encoded] else old(queued)
    {
      var nextSize := queuedBytes + |encoded|;
      if queueMaxBytes.Some? && nextSize > queueMaxBytes.value {
        return false;
      }
      TotalJoins(queued, [encoded]);
      queued := queued + [encoded];
      queuedBytes := nextSize;
      return true;
    }

    /** One round of `flush` under the queue lock. */
    method TakeChunk() returns (chunk: seq<byte>)
      requires Valid() && queued != []
      modifies `queued, `queuedBytes
      ensures Valid()
      ensures var n := ChunkCount(old(queued), flushChunkSize);
              chunk == Flatten(old(queued)[..n]) && queued == old(queued)[n..]
    {
      hide Flatten, Total, Fitting;
      ghost var all := queued;
      ghost var taken: nat := 0;
      chunk := [];
      NothingTaken(all);
      while queued != [] && |chunk| + |queued[0]| <= flushChunkSize
        invariant taken <= |all| && queued == all[taken..] && chunk == Flatten(all[..taken])
        invariant queuedBytes == Total(queued) <= Total(all)
        invariant taken + Fitting(queued, flushChunkSize, |chunk|) == Fitting(all, flushChunkSize, 0)
        invariant chunk == [] <==> taken == 0
        decreases |queued|
      {
        TakenOne(all, taken);
        FittingUnfolds(queued, flushChunkSize, |chunk|);
        var item := queued[0];
        queued := queued[1..];
        chunk := chunk + item;
        queuedBytes := queuedBytes - |item|;
        taken := taken + 1;
      }
      FittingUnfolds(queued, flushChunkSize, |chunk|);
      if chunk == [] && queued != [] {
        TakenOne(all, 0);
        var item := queued[0];
        queued := queued[1..];
        chunk := chunk + item;
        queuedBytes := queuedBytes - |item|;
      }
    }

    /** Writes the whole queue out in chunks. */
    method Flush()
      requires Valid()
      modifies this
      ensures Valid() && queued == []
      ensures writes == old(writes) + FlushWrites(old(queued), flushChunkSize)
    {
      while true
        invariant Valid()
        invariant writes + FlushWrites(queued, flushChunkSize)
               == old(writes) + FlushWrites(old(queued), flushChunkSize)
        decreases |queued|
      {
        if queued == [] {
          assert writes + [] == writes;
          return;
        }
        ghost var before, items := writes, queued;
        var chunk := TakeChunk();
        writes := writes + [chunk];
        assert before + ([chunk] + FlushWrites(queued, flushChunkSize))
            == writes + FlushWrites(queued, flushChunkSize);
      }
    }
  }

  lemma NothingTaken(all: seq<seq<byte>>)
    ensures all[..0] == [] && all[0..] == all && Flatten(all[..0]) == []
  {
  }

  lemma TakenOne(all: seq<seq<byte>>, taken: nat)
    requires taken < |all|
    ensures all[taken..][1..] == all[taken + 1..]
    ensures Flatten(all[..taken + 1]) == Flatten(all[..taken]) + all[taken]
    ensures Total(all[taken..]) == |all[taken]| + Total(all[taken + 1..])
  {
    assert all[..taken + 1] == all[..taken] + [all[taken]];
    FlattenJoins(all[..taken], [all[taken]]);
    assert Flatten([all[taken]]) == all[taken] + Flatten<byte>([]);
  }

  lemma FittingUnfolds(items: seq<seq<byte>>, room: int, used: nat)
    ensures Fitting(items, room, used) ==
            if items != [] && used + |items[0]| <= room then 1 + Fitting(items[1..], room, used + |items[0]|) else 0
  {
  }
}
