/** Telemetry and events from the firmware's queue to the host's reader. */
module Telemetry {
  import opened Seqs
  import opened Wire
  import opened Frame
  import opened HostReceive
  import opened Device
  import opened SafeRuns
  import opened Answers
  import HostDecoder
  import Firmware

  // ---- the link ----

  /** The firmware's device, the wire, the host's decoder and one of its queues, for
      whatever `find` finds in a packet. */
  datatype Link<T> = Link(
    dev: Dev,
    wire: seq<byte>,                     // written and not yet read
    kept: seq<byte>,                     // the decoder's buffer
    items: seq<T>,          // the host's queue
    // What happened so far.
    accepted: seq<Packet>,               // packets the firmware queued
    sent: seq<Packet>,                   // packets on the wire, replies among them
    received: seq<byte>,                 // bytes the host read
    taken: seq<T>)          // frames the host program read

  function AtPowerUp<T>(b: Board): Link<T>
    requires BoardOk(b)
  {
    Link(PowerUp(b), [], [], [], [], [], [], [])
  }

  datatype Step =
    | Happens(happening: Happening)      // the firmware gets a packet, updates or is interrupted
    | Read(n: nat, handled: seq<Packet>) // the host reads n bytes and handles some packets they complete
    | Take                               // read_telemetry or read_event

  predicate Can<T>(b: Board, l: Link<T>, step: Step) {
    match step
    case Happens(h) => HappeningOk(b, h)
    case Read(n, handled) =>
      && n <= |l.wire|
      && Subsequence(handled, HostDecoder.Packets(HostDecoder.Scan(l.kept + l.wire[..n], 0).hits))
    case Take => l.items != []
  }

  /** The host's queue after some frames are put, oldest dropped when full. */
  function PutFrames<T>(items: seq<T>, frames: seq<T>, maxsize: int): seq<T>
    decreases |frames|
  {
    if frames == [] then items
    else PutFrames((if maxsize > 0 && |items| >= maxsize then items[1..] else items) + [frames[0]], frames[1..], maxsize)
  }

  function Do<T>(find: Packet -> Option<T>, b: Board, l: Link<T>, maxsize: int, step: Step): (l2: Link<T>)
    requires DeviceReady(b, l.dev) && Can(b, l, step)
    ensures DeviceReady(b, l2.dev)
  {
    match step
    case Happens(h) =>
      StepSendable(b, l.dev, h);
      var out := Emits(b, l.dev, h);
      l.(dev := Next(b, l.dev, h), wire := l.wire + Firmware.Frames(out), sent := l.sent + out,
         accepted := l.accepted + Queues(b, l.dev, h))
    case Read(n, handled) =>
      var o := HostDecoder.Scan(l.kept + l.wire[..n], 0);
      l.(wire := l.wire[n..], kept := o.rest, received := l.received + l.wire[..n],
         items := PutFrames(l.items, Carried(find, handled), maxsize))
    case Take => l.(items := l.items[1..], taken := l.taken + [l.items[0]])
  }

  // ---- what the steps keep ----

  /** Kinds the host's decoder knows, which are all the firmware ever writes. */
  predicate AllKnown(packets: seq<Packet>) {
    forall i | 0 <= i < |packets| :: KnownKind(packets[i].kind)
  }

  function Decoded<T>(l: Link<T>): seq<Packet> {
    HostDecoder.Packets(HostDecoder.Scan(l.received, 0).hits)
  }

  ghost predicate FirmwareKept<T>(find: Packet -> Option<T>, l: Link<T>) {
    Subsequence(Carried(find, l.sent) + Carried(find, l.dev.outbound), Carried(find, l.accepted))
  }

  ghost predicate WireKept<T>(l: Link<T>) {
    && Firmware.AllSendable(l.sent) && AllKnown(l.sent)
    && Firmware.Frames(l.sent) == l.received + l.wire
    && l.kept == HostDecoder.Scan(l.received, 0).rest
  }

  ghost predicate HostKept<T>(find: Packet -> Option<T>, l: Link<T>) {
    Subsequence(l.taken + l.items, Carried(find, Decoded(l)))
  }

  ghost predicate Inv<T>(find: Packet -> Option<T>, l: Link<T>) {
    FirmwareKept(find, l) && WireKept(l) && HostKept(find, l)
  }

  lemma {:induction false} CarriedMonotone<T>(find: Packet -> Option<T>, a: seq<Packet>, b: seq<Packet>)
    requires Subsequence(a, b)
    ensures Subsequence(Carried(find, a), Carried(find, b))
    decreases |b|
  {
    if a == [] {
    } else if a[0] == b[0] && Subsequence(a[1..], b[1..]) {
      CarriedMonotone(find, a[1..], b[1..]);
      var head := if find(a[0]).Some? then [find(a[0]).value] else [];
      SubsequenceRefl(head);
      SubsequenceJoins(head, head, Carried(find, a[1..]), Carried(find, b[1..]));
    } else {
      CarriedMonotone(find, a, b[1..]);
      var head := if find(b[0]).Some? then [find(b[0]).value] else [];
      GrowLeft(head, Carried(find, a), Carried(find, b[1..]));
    }
  }

  /** No reply carries anything of the sort looked for. */
  ghost predicate NotInReplies<T>(find: Packet -> Option<T>) {
    forall p: Packet | IsReply(p) :: find(p).None?
  }

  lemma NothingFound<T>(find: Packet -> Option<T>)
    ensures Carried(find, []) == []
  {
  }

  /** What a happening writes and leaves queued is, as far as telemetry goes, in order among
      what was queued and what it queued. */
  lemma HappeningBalance<T>(find: Packet -> Option<T>, b: Board, d: Dev, h: Happening)
    requires DeviceReady(b, d) && HappeningOk(b, h) && NotInReplies(find)
    ensures DevOk(b, d)
    ensures Subsequence(Carried(find, Emits(b, d, h)) + Carried(find, Next(b, d, h).outbound),
                        Carried(find, d.outbound) + Carried(find, Queues(b, d, h)))
  {
    hide Subsequence, Carried, Update, UpdateWrites, UpdateQueues, Handle, OutputsSafe, DevOk, EnvOk, AllUnasked;
    SafeIsOk(b, d);
    var q, q2, out, queues := d.outbound, Next(b, d, h).outbound, Emits(b, d, h), Queues(b, d, h);
    assert Carried(find, []) == [] by { NothingFound(find); }
    assert Carried(find, q) + [] == Carried(find, q) && [] + Carried(find, q) == Carried(find, q);
    SubsequenceRefl(Carried(find, q));
    SubsequenceOfNothing(Carried(find, q));
    match h
    case Received(p, env) =>
      HandleKeepsQueue(b, d, p, env);
      var reply := ReplyTo(b, d, p, env);
      assert IsReply(reply);
      CarriedOfOne(find, reply);
      assert out == [reply] && Carried(find, out) + Carried(find, q2) == Carried(find, q2);
    case Updating(env) =>
      UpdateBalance(b, d, env);
      CarriedMonotone(find, out + q2, q + queues);
      CarriedJoins(find, out, q2);
      CarriedJoins(find, q, queues);
    case _ =>
  }

  lemma HappenKeepsFirmware<T>(find: Packet -> Option<T>, b: Board, l: Link<T>, h: Happening, maxsize: int)
    requires DeviceReady(b, l.dev) && FirmwareKept(find, l) && HappeningOk(b, h) && NotInReplies(find)
    ensures FirmwareKept(find, Do(find, b, l, maxsize, Happens(h)))
  {
    hide Subsequence, Carried, OutputsSafe, AllUnasked, HappeningOk, Emits, Queues, Next, Firmware.Frames, Firmware.AllSendable, DevOk;
    StepSendable(b, l.dev, h);
    HappeningBalance(find, b, l.dev, h);
    var x, q, y := Carried(find, l.sent), Carried(find, l.dev.outbound), Carried(find, l.accepted);
    var out, q2, a := Carried(find, Emits(b, l.dev, h)), Carried(find, Next(b, l.dev, h).outbound), Carried(find, Queues(b, l.dev, h));
    CarriedJoins(find, l.sent, Emits(b, l.dev, h));
    CarriedJoins(find, l.accepted, Queues(b, l.dev, h));
    SubsequenceRefl(x);
    SubsequenceJoins(x, x, out + q2, q + a);
    JoinRight(x + q, y, a);
    Associates(x, q, a);
    Associates(x, out, q2);
    SubsequenceTransitive(x + out + q2, x + q + a, y + a);
  }

  lemma HappenKeepsWire<T>(find: Packet -> Option<T>, b: Board, l: Link<T>, h: Happening, maxsize: int)
    requires DeviceReady(b, l.dev) && WireKept(l) && HostKept(find, l) && HappeningOk(b, h)
    ensures WireKept(Do(find, b, l, maxsize, Happens(h))) && HostKept(find, Do(find, b, l, maxsize, Happens(h)))
  {
    hide HostDecoder.Scan, Firmware.Frames, Carried, Subsequence, HappeningOk, Emits, Queues, Next, DevOk, OutputsSafe, AllUnasked;
    SafeIsOk(b, l.dev);
    StepSendable(b, l.dev, h);
    StepAnswers(b, l.dev, h);
    var out := Emits(b, l.dev, h);
    WellformedIsKnown(out);
    Firmware.FramesJoin(l.sent, out);
    Associates(l.received, l.wire, Firmware.Frames(out));
  }

  lemma WellformedIsKnown(packets: seq<Packet>)
    requires Wellformed(packets)
    ensures Firmware.AllSendable(packets) && AllKnown(packets)
  {
  }

  lemma {:induction false} PutFramesAmong<T>(taken: seq<T>, items: seq<T>, frames: seq<T>, maxsize: int)
    ensures Subsequence(taken + PutFrames(items, frames, maxsize), taken + items + frames)
    decreases |frames|
  {
    hide Subsequence;
    if frames == [] {
      SubsequenceRefl(taken + items);
      assert taken + items + [] == taken + items;
    } else {
      var kept := if maxsize > 0 && |items| >= maxsize then items[1..] else items;
      PutFramesAmong(taken, kept + [frames[0]], frames[1..], maxsize);
      SubsequenceRefl(kept);
      KeptAmong(items, kept);
      SubsequenceRefl(taken);
      SubsequenceJoins(taken, taken, kept, items);
      JoinRight(taken + kept, taken + items, frames);
      FirstPut(taken, kept, frames);
      SubsequenceTransitive(taken + PutFrames(items, frames, maxsize), taken + kept + frames, taken + items + frames);
    }
  }

  lemma {:induction false} AtIrrelevant(s: seq<byte>, a: nat, b: nat)
    ensures HostDecoder.Packets(HostDecoder.Scan(s, a).hits) == HostDecoder.Packets(HostDecoder.Scan(s, b).hits)
    ensures HostDecoder.Scan(s, a).rest == HostDecoder.Scan(s, b).rest
    decreases |s|
  {
    hide HostDecoder.Scan, HostDecoder.Examine;
    HostDecoder.ScanUnfolds(s, a);
    HostDecoder.ScanUnfolds(s, b);
    if s == [] {
    } else if HostDecoder.Skipped(s) {
      AtIrrelevant(s[1..], a + 1, b + 1);
    } else if HostDecoder.Examine(s).Deliver? {
      var n := HostDecoder.Examine(s).size;
      AtIrrelevant(s[n..], a + n, b + n);
    }
  }

  /** The host has decoded the newly read bytes' packets after those it had. */
  lemma DecodedGrows(received: seq<byte>, chunk: seq<byte>)
    ensures var kept := HostDecoder.Scan(received, 0).rest;
            var o := HostDecoder.Scan(kept + chunk, 0);
            var all := HostDecoder.Scan(received + chunk, 0);
            && HostDecoder.Packets(all.hits) ==
               HostDecoder.Packets(HostDecoder.Scan(received, 0).hits) + HostDecoder.Packets(o.hits)
            && all.rest == o.rest
  {
    hide HostDecoder.Scan, HostDecoder.Packets;
    var first := HostDecoder.Scan(received, 0);
    var at := |received| - |first.rest|;
    HostDecoder.ScanContinues(received, chunk, 0);
    HostDecoder.PacketsJoin(first.hits, HostDecoder.Scan(first.rest + chunk, at).hits);
    AtIrrelevant(first.rest + chunk, at, 0);
  }

  /** The host's queue keeps the newest items its size allows. */
  lemma {:induction false} PutFramesKeepsNewest<T>(items: seq<T>, frames: seq<T>, maxsize: int)
    requires maxsize > 0 ==> |items| <= maxsize
    ensures PutFrames(items, frames, maxsize) == if maxsize > 0 then Newest(items + frames, maxsize) else items + frames
    decreases |frames|
  {
    hide Newest;
    if frames == [] {
      assert items + frames == items;
      if maxsize > 0 { ShortIsNewest(items, maxsize); }
    } else {
      var kept := if maxsize > 0 && |items| >= maxsize then items[1..] else items;
      PutFramesKeepsNewest(kept + [frames[0]], frames[1..], maxsize);
      assert kept + [frames[0]] + frames[1..] == kept + frames;
      assert items + [frames[0]] + frames[1..] == items + frames;
      if maxsize > 0 {
        OneMoreKept(items, frames[0], maxsize);
        NewestOfMore(items + [frames[0]], frames[1..], maxsize);
      }
    }
  }

  lemma ShortIsNewest<T>(s: seq<T>, n: nat)
    requires |s| <= n
    ensures Newest(s, n) == s
  {
  }

  lemma OneMoreKept<T>(items: seq<T>, x: T, n: nat)
    requires 0 < n && |items| <= n
    ensures (if |items| >= n then items[1..] else items) + [x] == Newest(items + [x], n)
  {
  }

  lemma KeptAmong<T>(items: seq<T>, kept: seq<T>)
    requires kept == items || (items != [] && kept == items[1..])
    ensures Subsequence(kept, items)
  {
    hide Subsequence;
    SubsequenceRefl(kept);
    if kept != items {
      assert items == [items[0]] + items[1..];
      GrowLeft([items[0]], kept, items[1..]);
    }
  }

  lemma FirstPut<T>(taken: seq<T>, kept: seq<T>, frames: seq<T>)
    requires frames != []
    ensures taken + (kept + [frames[0]]) + frames[1..] == taken + kept + frames
  {
    assert frames == [frames[0]] + frames[1..];
  }

  lemma ReadKeeps<T>(find: Packet -> Option<T>, b: Board, l: Link<T>, n: nat, handled: seq<Packet>, maxsize: int)
    requires DeviceReady(b, l.dev) && Inv(find, l) && Can(b, l, Read(n, handled))
    ensures Inv(find, Do(find, b, l, maxsize, Read(n, handled)))
  {
    hide Carried, Subsequence, HostDecoder.Scan, HostDecoder.Packets, Firmware.Frames, DeviceReady;
    var l2 := Do(find, b, l, maxsize, Read(n, handled));
    var chunk := l.wire[..n];
    var more := HostDecoder.Packets(HostDecoder.Scan(l.kept + chunk, 0).hits);
    DecodedGrows(l.received, chunk);
    assert l.received + l.wire == l.received + chunk + l.wire[n..] by { assert l.wire == chunk + l.wire[n..]; }
    assert Decoded(l2) == Decoded(l) + more;
    CarriedMonotone(find, handled, more);
    CarriedJoins(find, Decoded(l), more);
    PutFramesAmong(l.taken, l.items, Carried(find, handled), maxsize);
    SubsequenceJoins(l.taken + l.items, Carried(find, Decoded(l)), Carried(find, handled), Carried(find, more));
    SubsequenceTransitive(l2.taken + l2.items, l.taken + l.items + Carried(find, handled), Carried(find, Decoded(l2)));
  }

  lemma StepKeeps<T>(find: Packet -> Option<T>, b: Board, l: Link<T>, maxsize: int, step: Step)
    requires DeviceReady(b, l.dev) && Inv(find, l) && Can(b, l, step) && NotInReplies(find)
    ensures Inv(find, Do(find, b, l, maxsize, step))
  {
    hide Carried, Subsequence, HostDecoder.Scan, HostDecoder.Packets, Firmware.Frames, DeviceReady,
         HappeningOk, FirmwareKept, WireKept, HostKept;
    match step
    case Happens(h) =>
      HappenKeepsFirmware(find, b, l, h, maxsize);
      HappenKeepsWire(find, b, l, h, maxsize);
    case Read(n, handled) => ReadKeeps(find, b, l, n, handled, maxsize);
    case Take => TakeKeeps(find, b, l, maxsize);
  }

  lemma TakeKeeps<T>(find: Packet -> Option<T>, b: Board, l: Link<T>, maxsize: int)
    requires DeviceReady(b, l.dev) && Inv(find, l) && Can(b, l, Take)
    ensures Inv(find, Do(find, b, l, maxsize, Take))
  {
    hide Carried, Subsequence, HostDecoder.Scan, HostDecoder.Packets, Firmware.Frames, DeviceReady;
    assert l.items == [l.items[0]] + l.items[1..];
    Associates(l.taken, [l.items[0]], l.items[1..]);
  }

  // ---- runs ----

  ghost predicate CanAll<T>(find: Packet -> Option<T>, b: Board, l: Link<T>, maxsize: int, steps: seq<Step>)
    requires DeviceReady(b, l.dev)
    decreases |steps|
  {
    steps != [] ==> Can(b, l, steps[0]) && CanAll(find, b, Do(find, b, l, maxsize, steps[0]), maxsize, steps[1..])
  }

  ghost function DoAll<T>(find: Packet -> Option<T>, b: Board, l: Link<T>, maxsize: int, steps: seq<Step>): Link<T>
    requires DeviceReady(b, l.dev) && CanAll(find, b, l, maxsize, steps)
    decreases |steps|
  {
    if steps == [] then l else DoAll(find, b, Do(find, b, l, maxsize, steps[0]), maxsize, steps[1..])
  }

  lemma {:induction false} RunKeeps<T>(find: Packet -> Option<T>, b: Board, l: Link<T>, maxsize: int, steps: seq<Step>)
    requires DeviceReady(b, l.dev) && Inv(find, l) && CanAll(find, b, l, maxsize, steps) && NotInReplies(find)
    ensures Inv(find, DoAll(find, b, l, maxsize, steps))
    decreases |steps|
  {
    hide Inv, Can, Do, DeviceReady, NotInReplies;
    if steps != [] {
      StepKeeps(find, b, l, maxsize, steps[0]);
      RunKeeps(find, b, Do(find, b, l, maxsize, steps[0]), maxsize, steps[1..]);
    }
  }

  /** What happens to the device in a run of the link. */
  function HappeningsOf(steps: seq<Step>): seq<Happening> {
    if steps == [] then []
    else (if steps[0].Happens? then [steps[0].happening] else []) + HappeningsOf(steps[1..])
  }

  /** The device of the link runs through exactly that; what it queued and wrote is what that
      run makes it queue and write. */
  lemma {:induction false} LinkRunsDevice<T>(find: Packet -> Option<T>, b: Board, l: Link<T>, maxsize: int, steps: seq<Step>)
    requires DeviceReady(b, l.dev) && CanAll(find, b, l, maxsize, steps)
    ensures var hs := HappeningsOf(steps);
            var l2 := DoAll(find, b, l, maxsize, steps);
            && AllOk(b, hs) && l2.dev == Run(b, l.dev, hs)
            && l2.accepted == l.accepted + RunQueues(b, l.dev, hs) && l2.sent == l.sent + RunEmits(b, l.dev, hs)
    decreases |steps|
  {
    hide Can, Do, OutputsSafe, AllUnasked, Run, RunQueues, RunEmits, AllOk;
    if steps == [] {
      NothingRuns(b, l.dev);
      assert l.accepted + [] == l.accepted && l.sent + [] == l.sent;
    } else {
      var next := Do(find, b, l, maxsize, steps[0]);
      var later := HappeningsOf(steps[1..]);
      LinkRunsDevice(find, b, next, maxsize, steps[1..]);
      OneStep(find, b, l, maxsize, steps[0]);
      if steps[0].Happens? {
        var h := steps[0].happening;
        RunUnfolds(b, l.dev, h, later);
        Associates(l.accepted, Queues(b, l.dev, h), RunQueues(b, next.dev, later));
        Associates(l.sent, Emits(b, l.dev, h), RunEmits(b, next.dev, later));
      } else {
        assert HappeningsOf(steps) == later;
      }
    }
  }

  lemma OneStep<T>(find: Packet -> Option<T>, b: Board, l: Link<T>, maxsize: int, step: Step)
    requires DeviceReady(b, l.dev) && Can(b, l, step)
    ensures var l2 := Do(find, b, l, maxsize, step);
            && DevOk(b, l.dev) && (step.Happens? ==> HappeningOk(b, step.happening))
            && l2.dev == (if step.Happens? then Next(b, l.dev, step.happening) else l.dev)
            && l2.accepted == (if step.Happens? then l.accepted + Queues(b, l.dev, step.happening) else l.accepted)
            && l2.sent == (if step.Happens? then l.sent + Emits(b, l.dev, step.happening) else l.sent)
  {
    hide OutputsSafe, DevOk, HappeningOk, Next, Emits, Queues, AllUnasked, HostDecoder.Scan, Firmware.Frames, Carried;
    SafeIsOk(b, l.dev);
    if step.Happens? { StepSendable(b, l.dev, step.happening); }
  }

  /** Frames of known kinds decode to their packets and nothing is kept back or raised. */
  lemma {:induction false} FramesDecode(packets: seq<Packet>, at: nat)
    requires Firmware.AllSendable(packets) && AllKnown(packets)
    ensures var o := HostDecoder.Scan(Firmware.Frames(packets), at);
            HostDecoder.Packets(o.hits) == packets && o.rest == [] && !o.raised
  {
    hide HostDecoder.Scan, HostDecoder.Examine, Encode;
    var s := Firmware.Frames(packets);
    HostDecoder.ScanUnfolds(s, at);
    if packets != [] {
      var n := |Encode(packets[0])|;
      assert Encode(packets[0]) <= s && s[n..] == Firmware.Frames(packets[1..]);
      HostDecoder.FrameInFront(s, packets[0]);
      FramesDecode(packets[1..], at + n);
    }
  }

  /** What was decoded so far is the beginning of what was sent, and the decoder has not
      raised. */
  lemma DecodedIsPrefix<T>(l: Link<T>)
    requires WireKept(l)
    ensures Decoded(l) <= l.sent
    ensures !HostDecoder.Scan(l.received, 0).raised
  {
    hide HostDecoder.Scan, HostDecoder.Packets, Firmware.Frames;
    var o := HostDecoder.Scan(l.received, 0);
    FramesDecode(l.sent, 0);
    DecodedGrows(l.received, l.wire);
    if o.raised {
      var at := |l.received| - |o.rest|;
      HostDecoder.KeptBytes(l.received, 0);
      HostDecoder.KeptIsScanned(l.received, 0);
      HostDecoder.ScanBlocked(o.rest, at, l.wire);
      HostDecoder.ScanContinues(l.received, l.wire, 0);
    }
  }

  /** What the host program reads from its queue is among what the device's run queued. */
  lemma Integrity<T>(find: Packet -> Option<T>, b: Board, maxsize: int, steps: seq<Step>)
    requires BoardOk(b) && NotInReplies(find)
    ensures DeviceReady(b, PowerUp(b))
    ensures CanAll(find, b, AtPowerUp(b), maxsize, steps) ==>
            var l, hs := DoAll(find, b, AtPowerUp(b), maxsize, steps), HappeningsOf(steps);
            && AllOk(b, hs) && Subsequence(l.taken, Carried(find, RunQueues(b, PowerUp(b), hs)))
            && l.sent == RunEmits(b, PowerUp(b), hs) && !HostDecoder.Scan(l.received, 0).raised
  {
    hide Do, Can, HostDecoder.Scan, HostDecoder.Packets, Firmware.Frames, Carried, Subsequence, OutputsSafe, RunQueues, RunEmits,
         Run, AllOk, NotInReplies;
    ReadyAtPowerUp(b);
    if CanAll(find, b, AtPowerUp(b), maxsize, steps) {
      PowerUpKept(find, b);
      RunKeeps(find, b, AtPowerUp(b), maxsize, steps);
      var l := DoAll(find, b, AtPowerUp(b), maxsize, steps);
      DecodedIsPrefix(l);
      TakenAmongAccepted(find, l);
      LinkRunsDevice(find, b, AtPowerUp(b), maxsize, steps);
      var hs := HappeningsOf(steps);
      assert [] + RunQueues(b, PowerUp(b), hs) == RunQueues(b, PowerUp(b), hs);
      assert [] + RunEmits(b, PowerUp(b), hs) == RunEmits(b, PowerUp(b), hs);
    }
  }

  /** For any run of the device from power-up, interleaved in any way with the host's reads,
      for any chunking and any drops in either queue, what the host program reads is an
      in-order subsequence of the telemetry that run of the firmware queued, with nothing
      invented, repeated or altered; and the host's decoder never raises. */
  lemma TelemetryIntegrity(b: Board, maxsize: int, steps: seq<Step>)
    requires BoardOk(b)
    ensures DeviceReady(b, PowerUp(b))
    ensures CanAll(TelemetryIn, b, AtPowerUp(b), maxsize, steps) ==>
            var l, hs := DoAll(TelemetryIn, b, AtPowerUp(b), maxsize, steps), HappeningsOf(steps);
            && AllOk(b, hs) && Subsequence(l.taken, TelemetryOf(RunQueues(b, PowerUp(b), hs)))
            && l.sent == RunEmits(b, PowerUp(b), hs) && !HostDecoder.Scan(l.received, 0).raised
  {
    hide Do, Can, HostDecoder.Scan, Subsequence, OutputsSafe, RunQueues, RunEmits, AllOk, CanAll, DoAll, Carried;
    Integrity(TelemetryIn, b, maxsize, steps);
  }

  /** The same holds of events and the host's event queue, with kind, id, value and time
      stamp. */
  lemma EventIntegrity(b: Board, maxsize: int, steps: seq<Step>)
    requires BoardOk(b)
    ensures DeviceReady(b, PowerUp(b))
    ensures CanAll(EventIn, b, AtPowerUp(b), maxsize, steps) ==>
            var l, hs := DoAll(EventIn, b, AtPowerUp(b), maxsize, steps), HappeningsOf(steps);
            && AllOk(b, hs) && Subsequence(l.taken, HostReceive.EventsOf(RunQueues(b, PowerUp(b), hs)))
            && l.sent == RunEmits(b, PowerUp(b), hs) && !HostDecoder.Scan(l.received, 0).raised
  {
    hide Do, Can, HostDecoder.Scan, Subsequence, OutputsSafe, RunQueues, RunEmits, AllOk, CanAll, DoAll, Carried;
    Integrity(EventIn, b, maxsize, steps);
  }

  lemma TakenAmongAccepted<T>(find: Packet -> Option<T>, l: Link<T>)
    requires Inv(find, l)
    ensures Subsequence(l.taken, Carried(find, l.accepted))
  {
    hide HostDecoder.Scan, HostDecoder.Packets, Firmware.Frames, Carried, Subsequence;
    DecodedIsPrefix(l);
    var decoded := Decoded(l);
    var later := l.sent[|decoded|..];
    assert l.sent == decoded + later;
    CarriedJoins(find, decoded, later);
    Prefix(l.taken, l.items);
    Prefix(Carried(find, decoded), Carried(find, later));
    Prefix(Carried(find, l.sent), Carried(find, l.dev.outbound));
    SubsequenceTransitive(l.taken, l.taken + l.items, Carried(find, decoded));
    SubsequenceTransitive(l.taken, Carried(find, decoded), Carried(find, l.sent));
    SubsequenceTransitive(l.taken, Carried(find, l.sent), Carried(find, l.sent) + Carried(find, l.dev.outbound));
    SubsequenceTransitive(l.taken, Carried(find, l.sent) + Carried(find, l.dev.outbound), Carried(find, l.accepted));
  }

  lemma PowerUpKept<T>(find: Packet -> Option<T>, b: Board)
    requires BoardOk(b)
    ensures Inv(find, AtPowerUp(b))
  {
    hide OutputsSafe;
    assert Carried(find, []) == [];
    HostDecoder.ScanUnfolds([], 0);
  }
}
