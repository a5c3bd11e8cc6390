/** The host's rescanning stream decoder. */
module HostDecoder {
  import opened Seqs
  import opened Wire
  import opened Crc
  import opened Frame

  // ---- leftmost-greedy scanning ----

  datatype Verdict =
    | Wait                                // not enough bytes yet
    | Discard                             // no frame starts here
    | Unknown                             // a frame whose kind the host does not know
    | Deliver(packet: Packet, size: nat)

  /** What the decoder makes of a buffer that begins with a start byte. */
  function Examine(s: seq<byte>): (v: Verdict)
    requires s != [] && s[0] == START_BYTE
    ensures v.Deliver? ==> 9 <= v.size <= |s|
  {
    if |s| < 9 then Wait
    else if s[1] != PROTOCOL_VERSION then Discard
    else if LengthField(s) > MAX_PAYLOAD_SIZE then Discard
    else if |s| < 9 + LengthField(s) then Wait
    else if !ChecksumHolds(s[..9 + LengthField(s)]) then Discard
    else if !KnownKind(s[2]) then Unknown
    else Deliver(PacketIn(s), 9 + LengthField(s))
  }

  /** A packet and the stream offset of its start byte. */
  datatype Hit = Hit(at: nat, packet: Packet)

  datatype Outcome = Outcome(hits: seq<Hit>, rest: seq<byte>, raised: bool)

  /** Scans s, which begins at stream offset `at`. */
  function Scan(s: seq<byte>, at: nat): (o: Outcome)
    ensures |o.rest| <= |s|
    decreases |s|
  {
    if s == [] then Outcome([], [], false)
    else if s[0] != START_BYTE then Scan(s[1..], at + 1)
    else match Examine(s)
      case Wait => Outcome([], s, false)
      case Discard => Scan(s[1..], at + 1)
      case Unknown => Outcome([], s, true)
      case Deliver(p, n) =>
        var o := Scan(s[n..], at + n);
        o.(hits := [Hit(at, p)] + o.hits)
  }

  function Packets(hits: seq<Hit>): (packets: seq<Packet>)
    ensures |packets| == |hits|
    ensures forall k | 0 <= k < |hits| :: packets[k] == hits[k].packet
  {
    if hits == [] then [] else [hits[0].packet] + Packets(hits[1..])
  }

  lemma PacketsJoin(a: seq<Hit>, b: seq<Hit>)
    ensures Packets(a + b) == Packets(a) + Packets(b)
  {
  }

  /** Whether the byte in front is dropped without further ado. */
  predicate Skipped(s: seq<byte>)
    requires s != []
  {
    s[0] != START_BYTE || Examine(s).Discard?
  }

  lemma ScanUnfolds(s: seq<byte>, at: nat)
    ensures s == [] ==> Scan(s, at) == Outcome([], [], false)
    ensures s != [] && Skipped(s) ==> Scan(s, at) == Scan(s[1..], at + 1)
    ensures s != [] && !Skipped(s) && !Examine(s).Deliver? ==> Scan(s, at) == Outcome([], s, Examine(s).Unknown?)
    ensures s != [] && !Skipped(s) && Examine(s).Deliver? ==>
            var o := Scan(s[Examine(s).size..], at + Examine(s).size);
            Scan(s, at) == Outcome([Hit(at, Examine(s).packet)] + o.hits, o.rest, o.raised)
  {
    hide Examine;
  }

  // ---- the verdict in terms of encodings ----

  /** A buffer that begins with the frame of a packet is delivered from, or blocks the
      decoder, by the packet's kind. */
  lemma FrameInFront(s: seq<byte>, p: Packet)
    requires Sendable(p) && Encode(p) <= s
    ensures s != [] && s[0] == START_BYTE
    ensures Examine(s) == if KnownKind(p.kind) then Deliver(p, 9 + |p.payload|) else Unknown
  {
    hide Crc16, Encode, ChecksumHolds;
    EncodedFields(p);
    var f := Encode(p);
    assert forall i | 0 <= i < |f| :: s[i] == f[i];
    assert s[..9 + |p.payload|] == f;
    assert s[7..7 + |p.payload|] == f[7..7 + |p.payload|];
  }

  /** Conversely, what is delivered, or blocks the decoder, is the frame in front. */
  lemma VerdictMeansFrame(s: seq<byte>)
    requires s != [] && s[0] == START_BYTE && (Examine(s).Deliver? || Examine(s).Unknown?)
    ensures |s| >= 9 + LengthField(s)
    ensures var p := PacketIn(s);
            && Sendable(p) && Encode(p) <= s && KnownKind(p.kind) == Examine(s).Deliver?
            && (Examine(s).Deliver? ==> Examine(s) == Deliver(p, |Encode(p)|))
  {
    hide Crc16, Encode, ChecksumHolds;
    var n := 9 + LengthField(s);
    assert WholeFrame(s[..n]);
    WholeFrameIsEncoding(s[..n]);
    assert s[..n][7..n - 2] == s[7..n - 2];
  }

  /** Where no frame begins, none is delivered: a damaged frame the checksum catches is never
      accepted at its start position. */
  lemma NoFrameNotDelivered(s: seq<byte>)
    requires s != [] && s[0] == START_BYTE && !StartsWithFrame(s)
    ensures Examine(s).Wait? || Examine(s).Discard?
  {
    hide Encode, Examine;
    if Examine(s).Deliver? || Examine(s).Unknown? {
      VerdictMeansFrame(s);
    }
  }

  /** More bytes do not change a verdict other than Wait. */
  lemma VerdictStable(s: seq<byte>, more: seq<byte>)
    requires s != [] && s[0] == START_BYTE && !Examine(s).Wait?
    ensures Examine(s + more) == Examine(s)
  {
    hide Crc16;
    if s[1] == PROTOCOL_VERSION && LengthField(s) <= MAX_PAYLOAD_SIZE {
      var n := 9 + LengthField(s);
      assert (s + more)[..n] == s[..n];
      assert (s + more)[7..n - 2] == s[7..n - 2];
    }
  }

  // ---- chunking ----

  /** Scanning what was kept together with new bytes continues the scan of the whole. */
  lemma {:induction false} ScanContinues(s: seq<byte>, more: seq<byte>, at: nat)
    ensures var o := Scan(s, at);
            var next := Scan(o.rest + more, at + |s| - |o.rest|);
            Scan(s + more, at) == Outcome(o.hits + next.hits, next.rest, next.raised)
    decreases |s|
  {
    hide Examine, Scan;
    ScanUnfolds(s, at);
    if s == [] {
      assert s + more == more;
    } else if Skipped(s) {
      if s[0] == START_BYTE { VerdictStable(s, more); }
      ScanUnfolds(s + more, at);
      assert (s + more)[1..] == s[1..] + more;
      ScanContinues(s[1..], more, at + 1);
    } else if Examine(s).Deliver? {
      VerdictStable(s, more);
      ScanUnfolds(s + more, at);
      var n := Examine(s).size;
      assert (s + more)[n..] == s[n..] + more;
      ScanContinues(s[n..], more, at + n);
      var o := Scan(s[n..], at + n);
      var next := Scan(o.rest + more, at + |s| - |o.rest|);
      assert [Hit(at, Examine(s).packet)] + (o.hits + next.hits) == [Hit(at, Examine(s).packet)] + o.hits + next.hits;
    } else {
      assert Scan(s, at).hits + Scan(s + more, at).hits == Scan(s + more, at).hits;
    }
  }

  /** Between calls at most 136 bytes are kept, and they begin with a start byte; only a
      frame of unknown kind can hold up more. */
  lemma {:induction false} KeptBytes(s: seq<byte>, at: nat)
    ensures var o := Scan(s, at);
            && (if o.raised then o.rest != [] else |o.rest| <= 136)
            && (o.rest != [] ==> o.rest[0] == START_BYTE)
    decreases |s|
  {
    hide Examine, Scan;
    ScanUnfolds(s, at);
    if s == [] {
    } else if Skipped(s) {
      KeptBytes(s[1..], at + 1);
    } else if Examine(s).Deliver? {
      KeptBytes(s[Examine(s).size..], at + Examine(s).size);
    } else if Examine(s).Wait? {
      WaitIsShort(s);
    }
  }

  lemma WaitIsShort(s: seq<byte>)
    requires s != [] && s[0] == START_BYTE && Examine(s).Wait?
    ensures |s| <= 136
  {
    hide Crc16;
  }

  /** What is kept gives nothing more when scanned again. */
  lemma {:induction false} KeptIsScanned(s: seq<byte>, at: nat)
    ensures var o := Scan(s, at);
            Scan(o.rest, at + |s| - |o.rest|) == Outcome([], o.rest, o.raised)
    decreases |s|
  {
    hide Examine, Scan;
    ScanUnfolds(s, at);
    if s == [] {
    } else if Skipped(s) {
      KeptIsScanned(s[1..], at + 1);
    } else if Examine(s).Deliver? {
      KeptIsScanned(s[Examine(s).size..], at + Examine(s).size);
    }
  }

  datatype Feeds = Feeds(returned: seq<Packet>, kept: seq<byte>, raised: bool)

  /** The packets a run of `feed` calls returns in all, what it keeps, and whether some
      call raised; a call that raises returns nothing. */
  function FeedAll(kept: seq<byte>, at: nat, chunks: seq<seq<byte>>): Feeds
    decreases |chunks|
  {
    if chunks == [] then Feeds([], kept, false)
    else
      var o := Scan(kept + chunks[0], at);
      var next := FeedAll(o.rest, at + |kept| + |chunks[0]| - |o.rest|, chunks[1..]);
      Feeds((if o.raised then [] else Packets(o.hits)) + next.returned, next.kept, o.raised || next.raised)
  }

  /** However a stream is cut into chunks, the calls keep the same bytes in the end and
      raise or not alike; if none raises they return the same packets, and otherwise the
      packets returned are a prefix of those. */
  lemma {:induction false} ChunkingIrrelevant(kept: seq<byte>, at: nat, chunks: seq<seq<byte>>)
    requires Scan(kept, at) == Outcome([], kept, false)
    ensures var all := Scan(kept + Flatten(chunks), at);
            var run := FeedAll(kept, at, chunks);
            && run.kept == all.rest && run.raised == all.raised
            && (!all.raised ==> run.returned == Packets(all.hits))
            && run.returned <= Packets(all.hits)
    decreases |chunks|
  {
    hide Examine, Scan, Packets;
    if chunks == [] {
      assert kept + Flatten(chunks) == kept;
    } else {
      var s := kept + chunks[0];
      var o := Scan(s, at);
      var next := at + |s| - |o.rest|;
      assert kept + Flatten(chunks) == s + Flatten(chunks[1..]);
      ScanContinues(s, Flatten(chunks[1..]), at);
      KeptBytes(s, at);
      KeptIsScanned(s, at);
      PacketsJoin(o.hits, Scan(o.rest + Flatten(chunks[1..]), next).hits);
      if o.raised {
        BlockedForever(o.rest, next, chunks[1..]);
      } else {
        ChunkingIrrelevant(o.rest, next, chunks[1..]);
      }
    }
  }

  /** Once a frame of unknown kind has made a call raise, the frame stays in front: every
      later call raises too, returns nothing and only adds to what is kept. */
  lemma {:induction false} BlockedForever(kept: seq<byte>, at: nat, chunks: seq<seq<byte>>)
    requires kept != [] && Scan(kept, at) == Outcome([], kept, true)
    ensures Scan(kept + Flatten(chunks), at) == Outcome([], kept + Flatten(chunks), true)
    ensures var run := FeedAll(kept, at, chunks);
            run.returned == [] && run.kept == kept + Flatten(chunks)
    decreases |chunks|
  {
    hide Examine, Scan, Packets;
    ScanBlocked(kept, at, Flatten(chunks));
    if chunks != [] {
      ScanBlocked(kept, at, chunks[0]);
      BlockedForever(kept + chunks[0], at, chunks[1..]);
      assert kept + Flatten(chunks) == kept + chunks[0] + Flatten(chunks[1..]);
    } else {
      assert kept + Flatten(chunks) == kept;
    }
  }

  lemma ScanBlocked(kept: seq<byte>, at: nat, more: seq<byte>)
    requires kept != [] && Scan(kept, at) == Outcome([], kept, true)
    ensures Scan(kept + more, at) == Outcome([], kept + more, true)
  {
    hide Examine, Scan;
    ScanUnfolds(kept, at);
    if !Skipped(kept) && Examine(kept).Unknown? {
      VerdictStable(kept, more);
      ScanUnfolds(kept + more, at);
    }
  }

  // ---- leftmost-greedy exactness ----

  /** The hits are frames of the stream, in order, disjoint, and before what is kept. */
  ghost predicate HitsAreFrames(s: seq<byte>, at: nat, hits: seq<Hit>, end: int) {
    && (forall k | 0 <= k < |hits| ::
          && at <= hits[k].at <= at + |s|
          && Sendable(hits[k].packet) && KnownKind(hits[k].packet.kind)
          && Encode(hits[k].packet) <= s[hits[k].at - at..]
          && End(hits[k]) <= end)
    && (forall j, k | 0 <= j < k < |hits| :: End(hits[j]) <= hits[k].at)
  }

  function End(h: Hit): nat {
    h.at + 9 + |h.packet.payload|
  }

  /** What is kept is the end of the stream. */
  lemma {:induction false} RestIsEnd(s: seq<byte>, at: nat)
    ensures var o := Scan(s, at); o.rest == s[|s| - |o.rest|..]
    decreases |s|
  {
    hide Examine, Scan;
    ScanUnfolds(s, at);
    if s != [] && Skipped(s) {
      RestIsEnd(s[1..], at + 1);
    } else if s != [] && Examine(s).Deliver? {
      RestIsEnd(s[Examine(s).size..], at + Examine(s).size);
    }
  }

  /** The stream splits into gaps and frames in order and then what is kept. */
  lemma {:induction false} OnlyFrames(s: seq<byte>, at: nat)
    ensures var o := Scan(s, at); o.rest == s[|s| - |o.rest|..]
    ensures HitsAreFrames(s, at, Scan(s, at).hits, at + |s| - |Scan(s, at).rest|)
    decreases |s|
  {
    hide Examine, Scan, Encode, HitsAreFrames;
    RestIsEnd(s, at);
    ScanUnfolds(s, at);
    if s == [] {
      NoFrames(s, at, at + |s|);
    } else if Skipped(s) {
      OnlyFrames(s[1..], at + 1);
      ShiftFrames(s, 1, at, Scan(s, at).hits, at + |s| - |Scan(s, at).rest|);
    } else if Examine(s).Deliver? {
      var n := Examine(s).size;
      VerdictMeansFrame(s);
      OnlyFrames(s[n..], at + n);
      FrameThenFrames(s, at, Examine(s).packet, n, Scan(s[n..], at + n).hits, at + |s| - |Scan(s, at).rest|);
    } else {
      NoFrames(s, at, at);
    }
  }

  lemma NoFrames(s: seq<byte>, at: nat, end: int)
    ensures HitsAreFrames(s, at, [], end)
  {
  }

  lemma FrameThenFrames(s: seq<byte>, at: nat, p: Packet, n: nat, hits: seq<Hit>, end: int)
    requires Sendable(p) && KnownKind(p.kind) && Encode(p) <= s && n == |Encode(p)| && at + n <= end
    requires HitsAreFrames(s[n..], at + n, hits, end)
    ensures HitsAreFrames(s, at, [Hit(at, p)] + hits, end)
  {
    hide Encode;
    ShiftFrames(s, n, at, hits, end);
    assert s == s[0..];
  }

  lemma ShiftFrames(s: seq<byte>, n: nat, at: nat, hits: seq<Hit>, end: int)
    requires n <= |s| && HitsAreFrames(s[n..], at + n, hits, end)
    ensures HitsAreFrames(s, at, hits, end)
    ensures forall k | 0 <= k < |hits| :: at + n <= hits[k].at
  {
    hide Encode;
    forall k | 0 <= k < |hits|
      ensures at + n <= hits[k].at <= at + |s| && Encode(hits[k].packet) <= s[hits[k].at - at..]
    {
      assert s[n..][hits[k].at - (at + n)..] == s[hits[k].at - at..];
    }
  }

  /** A frame of the stream is delivered, or begins inside a delivered frame, or begins in
      what is kept. */
  ghost predicate Accounted(o: Outcome, start: nat, p: Packet, end: int) {
    || Hit(start, p) in o.hits
    || (exists k :: 0 <= k < |o.hits| && o.hits[k].at < start < End(o.hits[k]))
    || start >= end - |o.rest|
  }

  lemma {:induction false} NothingMissed(s: seq<byte>, at: nat, i: nat, p: Packet)
    requires i <= |s| && Sendable(p) && Encode(p) <= s[i..]
    ensures Accounted(Scan(s, at), at + i, p, at + |s|)
    ensures var o := Scan(s, at); o.rest == s[|s| - |o.rest|..]
    decreases |s|
  {
    hide Examine, Scan, Encode;
    RestIsEnd(s, at);
    ScanUnfolds(s, at);
    if i == 0 {
      assert s[0..] == s;
      FrameInFront(s, p);
      if Examine(s).Deliver? {
        assert Scan(s, at).hits[0] == Hit(at, p);
      }
    } else if Skipped(s) {
      assert s[1..][i - 1..] == s[i..];
      NothingMissed(s[1..], at + 1, i - 1, p);
    } else if Examine(s).Deliver? {
      var n := Examine(s).size;
      VerdictMeansFrame(s);
      assert Scan(s, at).hits[0] == Hit(at, Examine(s).packet);
      if n <= i {
        assert s[n..][i - n..] == s[i..];
        NothingMissed(s[n..], at + n, i - n, p);
        var o := Scan(s[n..], at + n);
        if k :| 0 <= k < |o.hits| && o.hits[k].at < at + i < End(o.hits[k]) {
          assert Scan(s, at).hits[k + 1] == o.hits[k];
        }
      }
    }
  }

  /** A frame of the stream is delivered if and only if it begins neither inside a delivered
      frame nor in what is kept. */
  lemma DeliveredExactly(s: seq<byte>, at: nat, i: nat, p: Packet)
    requires i <= |s| && Sendable(p) && Encode(p) <= s[i..]
    ensures var o := Scan(s, at);
            Hit(at + i, p) in o.hits <==>
            && !(exists k :: 0 <= k < |o.hits| && o.hits[k].at < at + i < End(o.hits[k]))
            && i < |s| - |o.rest|
  {
    hide Scan, Encode;
    NothingMissed(s, at, i, p);
    OnlyFrames(s, at);
    var o := Scan(s, at);
    if Hit(at + i, p) in o.hits {
      var j :| 0 <= j < |o.hits| && o.hits[j] == Hit(at + i, p);
      forall k | 0 <= k < |o.hits| ensures !(o.hits[k].at < at + i < End(o.hits[k])) {
        assert k < j ==> End(o.hits[k]) <= o.hits[j].at;
        assert j < k ==> End(o.hits[j]) <= o.hits[k].at;
      }
    }
  }

  // ---- the decoder ----

  datatype FeedResult = Decoded(packets: seq<Packet>) | UnknownKind

  function IndexOf(s: seq<byte>, b: byte): (i: nat)
    ensures i <= |s| && (i < |s| ==> s[i] == b) && b !in s[..i]
  {
    if s == [] || s[0] == b then 0 else 1 + IndexOf(s[1..], b)
  }

  class PacketDecoder {
    var buffer: seq<byte>
    /** Every byte ever fed, and the scan of that stream. */
    ghost var fed: seq<byte>
    ghost var scan: Outcome

    ghost predicate Valid()
      reads this
    {
      scan == Scan(fed, 0) && buffer == scan.rest
    }

    constructor ()
      ensures Valid() && fed == []
    {
      buffer, fed, scan := [], [], Outcome([], [], false);
    }

    /** One `feed` call. The decoder has then scanned all bytes ever fed, and returns the
        packets newly found; if it meets a frame of unknown kind it raises instead. */
    method Feed(data: seq<byte>) returns (r: FeedResult)
      requires Valid()
      modifies this
      ensures Valid() && fed == old(fed) + data
      ensures r.UnknownKind? <==> scan.raised
      ensures old(scan.hits) <= scan.hits
      ensures r.Decoded? ==> r.packets == Packets(scan.hits[|old(scan.hits)|..])
    {
      hide Scan, Packets;
      ghost var before, at := scan.hits, |fed| - |buffer|;
      ScanContinues(fed, data, 0);
      buffer := buffer + data;
      fed := fed + data;
      ghost var o := Scan(buffer, at);
      r := Drain(at);
      scan := Scan(fed, 0);
      assert scan.hits[|before|..] == o.hits;
    }

    /** The loop of `feed`. */
    method Drain(ghost at: nat) returns (r: FeedResult)
      modifies `buffer
      ensures var o := Scan(old(buffer), at);
              && buffer == o.rest
              && r == if o.raised then UnknownKind else Decoded(Packets(o.hits))
    {
      hide Scan, Crc16, Packets, PacketIn, Ahead, LengthField, U16, IndexOf;
      ghost var end := at + |buffer|;
      ghost var whole := Scan(buffer, at);
      var packets: seq<Packet> := [];
      ghost var hits: seq<Hit> := [];
      AheadAtFirst(buffer, end);
      while true
        invariant Ahead(whole, hits, buffer, end)
        invariant packets == Packets(hits)
        decreases |buffer|
      {
        var startIndex := IndexOf(buffer, START_BYTE);
        AheadPastNoise(whole, hits, buffer, end, startIndex);
        if startIndex == |buffer| {
          buffer := [];
          break;
        }
        if startIndex > 0 {
          buffer := buffer[startIndex..];
        }
        AheadAtStart(whole, hits, buffer, end);
        if |buffer| < 9 { break; }
        var version := buffer[1];
        if version != PROTOCOL_VERSION {
          buffer := buffer[1..];
          continue;
        }
        var length := LengthField(buffer);
        if length > MAX_PAYLOAD_SIZE {
          buffer := buffer[1..];
          continue;
        }
        var frameLen := 1 + 6 + length + 2;
        if |buffer| < frameLen { break; }
        var frame := buffer[..frameLen];
        var crcExpected := U16(frame[|frame| - 2], frame[|frame| - 1]);
        var crcActual := ComputeCrc16(frame[1..|frame| - 2]);
        if crcActual != crcExpected {
          buffer := buffer[1..];
          continue;
        }
        var payload := frame[7..|frame| - 2];
        if !KnownKind(frame[2]) {
          return UnknownKind;
        }
        var packet := Packet(frame[2], U16(frame[3], frame[4]), payload);
        packets := packets + [packet];
        hits := hits + [Hit(end - |buffer|, packet)];
        buffer := buffer[frameLen..];
      }
      r := Decoded(packets);
    }
  }

  /** A loop state: the hits so far and the scan of the bytes left make up the whole. */
  ghost predicate Ahead(whole: Outcome, hits: seq<Hit>, s: seq<byte>, end: nat) {
    && |s| <= end
    && var o := Scan(s, end - |s|);
       whole == Outcome(hits + o.hits, o.rest, o.raised)
  }

  lemma AheadAtFirst(s: seq<byte>, end: nat)
    requires |s| <= end
    ensures Ahead(Scan(s, end - |s|), [], s, end) && Packets([]) == []
  {
    assert [] + Scan(s, end - |s|).hits == Scan(s, end - |s|).hits;
  }

  lemma AheadPastNoise(whole: Outcome, hits: seq<Hit>, s: seq<byte>, end: nat, i: nat)
    requires Ahead(whole, hits, s, end) && i <= |s| && START_BYTE !in s[..i]
    ensures Ahead(whole, hits, s[i..], end)
    ensures i == |s| ==> whole == Outcome(hits, [], false)
  {
    hide Scan;
    ScanNoise(s, i, end - |s|);
    if i == |s| {
      assert s[i..] == [];
      ScanUnfolds([], end);
      assert hits + [] == hits;
    }
  }

  /** What each test of the loop means for a buffer with a start byte in front. */
  lemma AheadAtStart(whole: Outcome, hits: seq<Hit>, s: seq<byte>, end: nat)
    requires Ahead(whole, hits, s, end) && s != [] && s[0] == START_BYTE
    ensures |s| < 9 ==> whole == Outcome(hits, s, false)
    ensures |s| >= 9 && (s[1] != PROTOCOL_VERSION || LengthField(s) > MAX_PAYLOAD_SIZE) ==>
            Ahead(whole, hits, s[1..], end)
    ensures |s| >= 9 && s[1] == PROTOCOL_VERSION && LengthField(s) <= MAX_PAYLOAD_SIZE ==>
            var n := 9 + LengthField(s);
            if |s| < n then whole == Outcome(hits, s, false)
            else var frame := s[..n];
                 if Crc16(frame[1..n - 2]) != U16(frame[n - 2], frame[n - 1]) then Ahead(whole, hits, s[1..], end)
                 else if !KnownKind(frame[2]) then whole == Outcome(hits, s, true)
                 else var h := Hit(end - |s|, Packet(frame[2], U16(frame[3], frame[4]), frame[7..n - 2]));
                      && Ahead(whole, hits + [h], s[n..], end)
                      && Packets(hits + [h]) == Packets(hits) + [h.packet]
  {
    hide Scan, Crc16;
    ScanUnfolds(s, end - |s|);
    assert hits + [] == hits;
    if |s| >= 9 && s[1] == PROTOCOL_VERSION && LengthField(s) <= MAX_PAYLOAD_SIZE && |s| >= 9 + LengthField(s) {
      var n := 9 + LengthField(s);
      assert s[..n][7..n - 2] == s[7..n - 2];
      var h := Hit(end - |s|, PacketIn(s));
      PacketsJoin(hits, [h]);
      assert hits + ([h] + Scan(s[n..], h.at + n).hits) == hits + [h] + Scan(s[n..], h.at + n).hits;
    }
  }

  lemma {:induction false} ScanNoise(s: seq<byte>, i: nat, at: nat)
    requires i <= |s| && START_BYTE !in s[..i]
    ensures Scan(s, at) == Scan(s[i..], at + i)
  {
    hide Examine, Scan;
    if i == 0 {
      assert s[0..] == s;
    } else {
      assert s[0] == s[..i][0];
      assert s[1..][..i - 1] == s[..i][1..];
      assert s[1..][i - 1..] == s[i..];
      ScanUnfolds(s, at);
      ScanNoise(s[1..], i - 1, at + 1);
    }
  }
}
