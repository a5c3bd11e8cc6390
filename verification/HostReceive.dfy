/** The host's receive side: responses, and telemetry and events in bounded queues. */
module HostReceive {
  import opened Seqs
  import opened Wire
  import opened Frame
  import opened HostDecoder
  import Subscriptions

  datatype TelemetryFrame = TelemetryFrame(kind: byte, resourceId: byte, value: i32)
  datatype EdgeEvent = EdgeEvent(kind: byte, resourceId: byte, value: i32, timestampUs: u32)

  /** ResourceKind has the members 1 to 5. */
  predicate KnownResource(kind: byte) {
    Subscriptions.DIGITAL <= kind <= Subscriptions.DAC
  }

  /** The telemetry a packet carries for the host, if any. */
  function TelemetryIn(p: Packet): Option<TelemetryFrame> {
    if p.kind == TELEMETRY && |p.payload| >= 6 && KnownResource(p.payload[0])
    then Some(TelemetryFrame(p.payload[0], p.payload[1], I32Of(p.payload[2..6])))
    else None
  }

  function EventIn(p: Packet): Option<EdgeEvent> {
    if p.kind == EVENT && |p.payload| >= 10 && KnownResource(p.payload[0])
    then Some(EdgeEvent(p.payload[0], p.payload[1], I32Of(p.payload[2..6]), U32Of(p.payload[6..10])))
    else None
  }

  /** What the firmware packed is what the host unpacks, for every 32-bit value. */
  lemma TelemetryRoundTrip(s: Subscriptions.Subscription, value: i32, micros: u32)
    requires KnownResource(s.kind)
    ensures TelemetryIn(Subscriptions.TelemetryPacket(s, value)) == Some(TelemetryFrame(s.kind, s.id, value))
    ensures EventIn(Subscriptions.EventPacket(s, value, micros)) == Some(EdgeEvent(s.kind, s.id, value, micros))
    ensures TelemetryIn(Subscriptions.EventPacket(s, value, micros)).None?
  {
    hide Bytes32, I32Of, U32Of;
    Bytes32RoundTrip(value);
    Bytes32RoundTrip(micros);
    var t, e := Subscriptions.TelemetryPacket(s, value), Subscriptions.EventPacket(s, value, micros);
    assert t.payload[2..6] == Bytes32(value);
    assert e.payload[2..6] == Bytes32(value) && e.payload[6..10] == Bytes32(micros);
  }

  // ---- a drop-oldest queue ----

  /** queue.Queue with `_put_bounded`; a maxsize of zero or less means no bound. */
  class BoundedQueue<T(==)> {
    const maxsize: int
    var items: seq<T>
    var dropped: nat
    // Everything ever put, and taken.
    ghost var put: seq<T>
    ghost var taken: seq<T>
    ghost var gone: seq<T>

    ghost predicate Valid()
      reads this
    {
      && (maxsize > 0 ==> |items| <= maxsize)
      && put == gone + items
      && Subsequence(taken, gone)
      && |gone| == |taken| + dropped
    }

    constructor (maxsize: int)
      ensures Valid() && items == put == taken == [] && dropped == 0 && this.maxsize == maxsize
    {
      this.maxsize := maxsize;
      items, dropped, put, taken, gone := [], 0, [], [], [];
    }

    method PutBounded(item: T)
      requires Valid()
      modifies this
      ensures Valid() && put == old(put) + [item] && taken == old(taken)
      ensures items == if maxsize > 0 && |old(items)| >= maxsize then old(items)[1..] + [item] else old(items) + [item]
      ensures dropped == old(dropped) + if maxsize > 0 && |old(items)| >= maxsize then 1 else 0
    {
      hide Subsequence;
      put := put + [item];
      if !(maxsize > 0 && |items| >= maxsize) {
        Associates(gone, items, [item]);
        items := items + [item];
        return;
      }
      ghost var oldest := items[0];
      assert items == [oldest] + items[1..];
      Associates(gone, [oldest], items[1..]);
      Associates(gone + [oldest], items[1..], [item]);
      GrowRight(taken, gone, [oldest]);
      gone := gone + [oldest];
      items := items[1..];
      dropped := dropped + 1;
      items := items + [item];
    }

    method GetNowait() returns (item: Option<T>)
      requires Valid()
      modifies this
      ensures Valid() && put == old(put) && dropped == old(dropped)
      ensures if old(items) == [] then item == None && items == [] && taken == old(taken)
              else item == Some(old(items)[0]) && items == old(items)[1..] && taken == old(taken) + [old(items)[0]]
    {
      hide Subsequence;
      if items == [] {
        return None;
      }
      var oldest := items[0];
      assert items == [oldest] + items[1..];
      Associates(gone, [oldest], items[1..]);
      SubsequenceRefl([oldest]);
      SubsequenceJoins(taken, gone, [oldest], [oldest]);
      item := Some(oldest);
      taken, gone := taken + [oldest], gone + [oldest];
      items := items[1..];
    }

    /** Frames put are those taken, dropped and still queued; those taken and queued are
        among those put, in order. */
    lemma Conserved()
      requires Valid()
      ensures |put| == |taken| + dropped + |items|
      ensures Subsequence(taken + items, put)
    {
      SubsequenceRefl(items);
      SubsequenceJoins(taken, gone, items, items);
    }
  }

  // ---- the client's receive side ----

  /** What some packets carry, in order, of one sort. */
  function Carried<T>(find: Packet -> Option<T>, packets: seq<Packet>): seq<T> {
    if packets == [] then []
    else (if find(packets[0]).Some? then [find(packets[0]).value] else []) + Carried(find, packets[1..])
  }

  lemma {:induction false} CarriedJoins<T>(find: Packet -> Option<T>, a: seq<Packet>, b: seq<Packet>)
    ensures Carried(find, a + b) == Carried(find, a) + Carried(find, b)
  {
    if a == [] {
      assert a + b == b;
    } else {
      assert (a + b)[1..] == a[1..] + b && (a + b)[0] == a[0];
      CarriedJoins(find, a[1..], b);
      Associates(if find(a[0]).Some? then [find(a[0]).value] else [], Carried(find, a[1..]), Carried(find, b));
    }
  }

  lemma CarriedOfOne<T>(find: Packet -> Option<T>, p: Packet)
    ensures Carried(find, [p]) == if find(p).Some? then [find(p).value] else []
  {
    assert Carried(find, []) == [];
  }

  function TelemetryOf(packets: seq<Packet>): seq<TelemetryFrame> {
    Carried(TelemetryIn, packets)
  }

  function EventsOf(packets: seq<Packet>): seq<EdgeEvent> {
    Carried(EventIn, packets)
  }

  lemma BothJoin(a: seq<Packet>, b: seq<Packet>)
    ensures TelemetryOf(a + b) == TelemetryOf(a) + TelemetryOf(b)
    ensures EventsOf(a + b) == EventsOf(a) + EventsOf(b)
  {
    hide TelemetryIn, EventIn, Carried;
    CarriedJoins(TelemetryIn, a, b);
    CarriedJoins(EventIn, a, b);
  }

  /** The first packet with a sequence number. */
  function FirstWith(packets: seq<Packet>, seqNo: u16): (i: nat)
    ensures i <= |packets|
    ensures i < |packets| ==> packets[i].seqNo == seqNo
    ensures forall j | 0 <= j < i :: packets[j].seqNo != seqNo
  {
    if packets == [] || packets[0].seqNo == seqNo then 0 else 1 + FirstWith(packets[1..], seqNo)
  }

  datatype Response = Response(packet: Packet) | TimedOut | DecoderRaised

  class Receiver {
    const decoder: PacketDecoder
    const telemetry: BoundedQueue<TelemetryFrame>
    const events: BoundedQueue<EdgeEvent>

    ghost predicate Valid()
      reads this, decoder, telemetry, events
    {
      decoder.Valid() && telemetry.Valid() && events.Valid()
    }

    constructor (decoder: PacketDecoder, telemetry: BoundedQueue<TelemetryFrame>, events: BoundedQueue<EdgeEvent>)
      ensures this.decoder == decoder && this.telemetry == telemetry && this.events == events
    {
      this.decoder, this.telemetry, this.events := decoder, telemetry, events;
    }

    method HandleAsyncPacket(p: Packet)
      requires telemetry.Valid() && events.Valid()
      modifies telemetry, events
      ensures telemetry.Valid() && events.Valid()
      ensures telemetry.put == old(telemetry.put) + TelemetryOf([p]) && telemetry.taken == old(telemetry.taken)
      ensures events.put == old(events.put) + EventsOf([p]) && events.taken == old(events.taken)
    {
      hide Carried;
      CarriedOfOne(TelemetryIn, p);
      CarriedOfOne(EventIn, p);
      if p.kind == TELEMETRY && |p.payload| >= 6 {
        if !KnownResource(p.payload[0]) { return; }
        telemetry.PutBounded(TelemetryFrame(p.payload[0], p.payload[1], I32Of(p.payload[2..6])));
      } else if p.kind == EVENT && |p.payload| >= 10 {
        if !KnownResource(p.payload[0]) { return; }
        events.PutBounded(EdgeEvent(p.payload[0], p.payload[1], I32Of(p.payload[2..6]), U32Of(p.payload[6..10])));
      }
    }

    /** Handles the packets of one chunk in order up to the first with the given sequence
        number, which it returns; the rest of the chunk is then lost. */
    method Dispatch(packets: seq<Packet>, seqNo: u16) returns (i: nat)
      requires telemetry.Valid() && events.Valid()
      modifies telemetry, events
      ensures telemetry.Valid() && events.Valid()
      ensures i == FirstWith(packets, seqNo)
      ensures telemetry.put == old(telemetry.put) + TelemetryOf(packets[..i]) && telemetry.taken == old(telemetry.taken)
      ensures events.put == old(events.put) + EventsOf(packets[..i]) && events.taken == old(events.taken)
    {
      hide TelemetryOf, EventsOf;
      i := 0;
      NothingCarried();
      assert packets[..0] == [];
      while i < |packets|
        invariant i <= |packets| && telemetry.Valid() && events.Valid()
        invariant forall j | 0 <= j < i :: packets[j].seqNo != seqNo
        invariant telemetry.put == old(telemetry.put) + TelemetryOf(packets[..i]) && telemetry.taken == old(telemetry.taken)
        invariant events.put == old(events.put) + EventsOf(packets[..i]) && events.taken == old(events.taken)
      {
        if packets[i].seqNo == seqNo {
          FirstWithIs(packets, seqNo, i);
          return;
        }
        HandleAsyncPacket(packets[i]);
        assert packets[..i + 1] == packets[..i] + [packets[i]];
        BothJoin(packets[..i], [packets[i]]);
        Associates(old(telemetry.put), TelemetryOf(packets[..i]), TelemetryOf([packets[i]]));
        Associates(old(events.put), EventsOf(packets[..i]), EventsOf([packets[i]]));
        i := i + 1;
      }
      FirstWithIs(packets, seqNo, i);
    }

    /** One chunk of `_poll_async_packets`: every decoded packet is handled. */
    method PollChunk(chunk: seq<byte>) returns (raised: bool, ghost handled: seq<Packet>)
      requires Valid()
      modifies decoder, telemetry, events
      ensures Valid()
      ensures old(decoder.scan.hits) <= decoder.scan.hits
      ensures !raised ==> handled == Packets(decoder.scan.hits[|old(decoder.scan.hits)|..])
      ensures telemetry.put == old(telemetry.put) + TelemetryOf(handled) && telemetry.taken == old(telemetry.taken)
      ensures events.put == old(events.put) + EventsOf(handled) && events.taken == old(events.taken)
    {
      hide TelemetryOf, EventsOf, Scan, Packets, BoundedQueue.Valid;
      handled := [];
      NothingCarried();
      var fed := decoder.Feed(chunk);
      if fed.UnknownKind? {
        return true, [];
      }
      ghost var all := fed.packets;
      assert all[..0] == [];
      for i := 0 to |fed.packets|
        invariant decoder.Valid() && telemetry.Valid() && events.Valid() && handled == all[..i]
        invariant telemetry.put == old(telemetry.put) + TelemetryOf(handled) && telemetry.taken == old(telemetry.taken)
        invariant events.put == old(events.put) + EventsOf(handled) && events.taken == old(events.taken)
        modifies telemetry, events
      {
        HandleAsyncPacket(fed.packets[i]);
        BothJoin(handled, [all[i]]);
        Associates(old(telemetry.put), TelemetryOf(handled), TelemetryOf([all[i]]));
        Associates(old(events.put), EventsOf(handled), EventsOf([all[i]]));
        handled := handled + [all[i]];
      }
      assert handled == all;
      raised := false;
    }

    /** Decodes one chunk and handles its packets up to the response, if it is there. */
    method ReadChunk(seqNo: u16, chunk: seq<byte>)
      returns (r: Option<Response>, ghost handled: seq<Packet>, ghost lost: seq<Packet>)
      requires Valid()
      modifies decoder, telemetry, events
      ensures Valid()
      ensures old(decoder.scan.hits) <= decoder.scan.hits
      ensures forall j | 0 <= j < |handled| :: handled[j].seqNo != seqNo
      ensures telemetry.put == old(telemetry.put) + TelemetryOf(handled) && telemetry.taken == old(telemetry.taken)
      ensures events.put == old(events.put) + EventsOf(handled) && events.taken == old(events.taken)
      ensures r != Some(TimedOut)
      ensures var decoded := Packets(decoder.scan.hits[|old(decoder.scan.hits)|..]);
              && (r.None? ==> decoded == handled)
              && (r.Some? && r.value.Response? ==>
                  decoded == handled + [r.value.packet] + lost && r.value.packet.seqNo == seqNo)
    {
      hide TelemetryOf, EventsOf, Scan, Packets, BoundedQueue.Valid;
      handled, lost := [], [];
      NothingCarried();
      var fed := decoder.Feed(chunk);
      if fed.UnknownKind? {
        r := Some(DecoderRaised);
        return;
      }
      var i := Dispatch(fed.packets, seqNo);
      handled := fed.packets[..i];
      if i < |fed.packets| {
        lost := fed.packets[i + 1..];
        assert fed.packets == handled + [fed.packets[i]] + lost;
        r := Some(Response(fed.packets[i]));
      } else {
        r := None;
      }
    }

    /** `_read_response` over the chunks the transport yields before the deadline. The packets
        newly decoded split into those handled, none of which has the sequence number, and
        what follows: nothing if it timed out, else the response and the lost rest. */
    method ReadResponse(seqNo: u16, chunks: seq<seq<byte>>)
      returns (r: Response, ghost handled: seq<Packet>, ghost lost: seq<Packet>)
      requires Valid()
      modifies decoder, telemetry, events
      ensures Valid()
      ensures old(decoder.scan.hits) <= decoder.scan.hits
      ensures forall j | 0 <= j < |handled| :: handled[j].seqNo != seqNo
      ensures telemetry.put == old(telemetry.put) + TelemetryOf(handled) && telemetry.taken == old(telemetry.taken)
      ensures events.put == old(events.put) + EventsOf(handled) && events.taken == old(events.taken)
      ensures var decoded := Packets(decoder.scan.hits[|old(decoder.scan.hits)|..]);
              && (r.TimedOut? ==> decoded == handled && FirstWith(decoded, seqNo) == |decoded|)
              && (r.Response? ==>
                  && decoded == handled + [r.packet] + lost && r.packet.seqNo == seqNo
                  && FirstWith(decoded, seqNo) == |handled|)
    {
      hide TelemetryOf, EventsOf, Scan, Packets, BoundedQueue.Valid, PacketDecoder.Valid, FirstWith;
      handled, lost := [], [];
      NothingCarried();
      ghost var before := decoder.scan.hits;
      NoHits();
      assert before[|before|..] == [];
      for n := 0 to |chunks|
        invariant Valid() && before <= decoder.scan.hits
        invariant Packets(decoder.scan.hits[|before|..]) == handled && lost == []
        invariant forall j | 0 <= j < |handled| :: handled[j].seqNo != seqNo
        invariant telemetry.put == old(telemetry.put) + TelemetryOf(handled) && telemetry.taken == old(telemetry.taken)
        invariant events.put == old(events.put) + EventsOf(handled) && events.taken == old(events.taken)
      {
        if chunks[n] == [] { continue; }
        ghost var hits := decoder.scan.hits;
        var found, part, rest := ReadChunk(seqNo, chunks[n]);
        LaterHits(before, hits, decoder.scan.hits);
        BothJoin(handled, part);
        Associates(old(telemetry.put), TelemetryOf(handled), TelemetryOf(part));
        Associates(old(events.put), EventsOf(handled), EventsOf(part));
        ghost var earlier := handled;
        handled := handled + part;
        if found.Some? {
          lost := rest;
          r := found.value;
          if r.Response? {
            Regroup(earlier, part, r.packet, rest);
            FirstIsAfter(handled, r.packet, rest);
          }
          return;
        }
      }
      FirstWithIs(handled, seqNo, |handled|);
      r := TimedOut;
    }
  }

  lemma FirstIsAfter(handled: seq<Packet>, p: Packet, lost: seq<Packet>)
    requires forall j | 0 <= j < |handled| :: handled[j].seqNo != p.seqNo
    ensures FirstWith(handled + [p] + lost, p.seqNo) == |handled|
  {
    hide FirstWith;
    var all := handled + [p] + lost;
    assert all[|handled|] == p;
    FirstWithIs(all, p.seqNo, |handled|);
  }

  lemma LaterHits(a: seq<Hit>, b: seq<Hit>, c: seq<Hit>)
    requires a <= b <= c
    ensures Packets(c[|a|..]) == Packets(b[|a|..]) + Packets(c[|b|..])
  {
    assert c[|a|..] == b[|a|..] + c[|b|..];
    PacketsJoin(b[|a|..], c[|b|..]);
  }

  lemma Regroup(a: seq<Packet>, b: seq<Packet>, p: Packet, c: seq<Packet>)
    ensures a + (b + [p] + c) == a + b + [p] + c
  {
  }

  lemma NoHits()
    ensures Packets([]) == []
  {
  }

  lemma NothingCarried()
    ensures TelemetryOf([]) == [] && EventsOf([]) == []
  {
  }

  lemma FirstWithIs(packets: seq<Packet>, seqNo: u16, i: nat)
    requires i <= |packets| && (i < |packets| ==> packets[i].seqNo == seqNo)
    requires forall j | 0 <= j < i :: packets[j].seqNo != seqNo
    ensures FirstWith(packets, seqNo) == i
  {
  }
}
