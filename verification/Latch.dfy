/** Exactly when the device's outputs are allowed, told from what happened to it. */
module Latch {
  import opened Wire
  import opened Frame
  import opened Safety
  import opened Device
  import opened SafeRuns

  predicate IsReceived(h: Happening, command: byte) {
    h.Received? && IsCommand(h.packet, command)
  }

  predicate IsClear(h: Happening) { IsReceived(h, CLEAR_EMERGENCY_STOP) }
  predicate IsStop(h: Happening) { IsReceived(h, EMERGENCY_STOP) }
  predicate IsBeat(h: Happening) { IsReceived(h, HEARTBEAT) || IsClear(h) }

  /** The true time of the last heartbeat or clear, or of boot. */
  function BeatTime(hs: seq<Happening>): nat {
    if hs == [] then 0
    else if IsBeat(hs[|hs| - 1]) then hs[|hs| - 1].env.time
    else BeatTime(hs[..|hs| - 1])
  }

  /** The true time of the last update, or of boot. */
  function UpdateTime(hs: seq<Happening>): nat {
    if hs == [] then 0
    else if hs[|hs| - 1].Updating? then hs[|hs| - 1].env.time
    else UpdateTime(hs[..|hs| - 1])
  }

  /** The i-th happening is an update that finds the last heartbeat more than 300 ms old. */
  predicate Overdue(hs: seq<Happening>, i: nat)
    requires i < |hs|
  {
    hs[i].Updating? && hs[i].env.time > BeatTime(hs[..i]) + 300
  }

  /** Time does not run backwards, and updates are less than 2^32 - 300 ms apart. */
  predicate InTime(hs: seq<Happening>) {
    forall i | 0 <= i < |hs| ::
      && (IsBeat(hs[i]) || hs[i].Updating? ==>
            hs[i].env.time >= BeatTime(hs[..i]) && hs[i].env.time >= UpdateTime(hs[..i]))
      && (hs[i].Updating? ==> hs[i].env.time < UpdateTime(hs[..i]) + 0x1_0000_0000 - 300)
  }

  /** Since the clear at c - 1, or since boot, neither a stop nor an overdue update came. */
  predicate QuietSince(hs: seq<Happening>, c: nat)
    requires c <= |hs|
  {
    && (c > 0 ==> IsClear(hs[c - 1]))
    && forall i | c <= i < |hs| :: !IsStop(hs[i]) && !Overdue(hs, i)
  }

  /** What a run leaves of the watch: the time of the last beat, and no expiry without a stop. */
  predicate WatchFits(watch: Watch, hs: seq<Happening>) {
    && watch.timeout == 300 && watch.lastBeat == Millis(BeatTime(hs))
    && (watch.expired ==> watch.stop)
    && (watch.OutputsAllowed() ==> UpdateTime(hs) <= BeatTime(hs) + 300)
    && (watch.OutputsAllowed() <==> exists c: nat | c <= |hs| :: QuietSince(hs, c))
  }

  /** One happening more, on the watch alone. */
  lemma WatchStep(watch: Watch, hs: seq<Happening>, h: Happening)
    requires WatchFits(watch, hs) && InTime(hs + [h])
    ensures WatchFits(After(Timed(watch, 0, 0), EventOf(h)).watch, hs + [h])
  {
    hide IsCommand, Cut32;
    var more := hs + [h];
    var n := |hs|;
    assert more[..n] == hs && more[n] == h;
    var watch2 := After(Timed(watch, 0, 0), EventOf(h)).watch;
    OnlyOne(h);
    QuietGrows(hs, h);
    if h.Updating? && watch.OutputsAllowed() {
      ElapsedExact(h.env.time, BeatTime(hs));
    }
  }

  /** A command is one command. */
  lemma OnlyOne(h: Happening)
    ensures !(IsStop(h) && IsBeat(h)) && !(IsReceived(h, HEARTBEAT) && IsClear(h))
  {
  }

  lemma QuietGrows(hs: seq<Happening>, h: Happening)
    ensures (exists c: nat | c <= |hs| + 1 :: QuietSince(hs + [h], c)) <==>
            || IsClear(h)
            || ((exists c: nat | c <= |hs| :: QuietSince(hs, c)) && !IsStop(h) && !Overdue(hs + [h], |hs|))
  {
    hide IsCommand, BeatTime;
    var more := hs + [h];
    var n := |hs|;
    assert more[n] == h;
    assert forall i | 0 <= i < n :: more[..i] == hs[..i] && more[i] == hs[i];
    assert forall i: nat | i < n :: Overdue(more, i) == Overdue(hs, i);
    if IsClear(h) {
      assert QuietSince(more, n + 1);
    }
    if c: nat :| c <= n && QuietSince(hs, c) {
      if !IsStop(h) && !Overdue(more, n) { assert QuietSince(more, c); }
    }
    if c: nat :| c <= n + 1 && QuietSince(more, c) {
      if c <= n {
        assert QuietSince(hs, c);
        assert !IsStop(more[n]) && !Overdue(more, n);
      }
    }
  }

  lemma {:induction false} WatchOfRun(b: Board, hs: seq<Happening>)
    requires BoardOk(b) && AllOk(b, hs) && InTime(hs)
    ensures WatchFits(Run(b, PowerUp(b), hs).watch, hs)
    decreases |hs|
  {
    hide Run, OutputsSafe, HappeningOk, WatchFits, InTime, PowerUp;
    if hs == [] {
      AtBoot(b);
    } else {
      var before, h := hs[..|hs| - 1], hs[|hs| - 1];
      assert hs == before + [h];
      InTimeBefore(before, h);
      WatchOfRun(b, before);
      var d := Run(b, PowerUp(b), before);
      assert HappeningOk(b, h) && AllOk(b, [h]);
      RunJoins(b, PowerUp(b), before, [h]);
      RunWatch(b, d, [h], Timed(d.watch, 0, 0));
      OneEvent(h, Timed(d.watch, 0, 0));
      WatchStep(d.watch, before, h);
    }
  }

  lemma AtBoot(b: Board)
    requires BoardOk(b)
    ensures WatchFits(Run(b, PowerUp(b), []).watch, [])
  {
    hide OutputsSafe;
    assert QuietSince([], 0);
  }

  lemma InTimeBefore(hs: seq<Happening>, h: Happening)
    requires InTime(hs + [h])
    ensures InTime(hs)
  {
    hide IsBeat, BeatTime, UpdateTime;
    var more := hs + [h];
    assert forall i | 0 <= i < |hs| :: more[..i] == hs[..i] && more[i] == hs[i];
  }

  lemma OneEvent(h: Happening, s: Timed)
    ensures AfterAll(s, EventsOf([h])) == After(s, EventOf(h))
  {
    assert EventsOf([]) == [] && [h][1..] == [];
    assert [EventOf(h)][1..] == [];
  }

  /** After any run from power-up in which time is kept, outputs are allowed if and only if
      neither a stop packet nor an update that found the heartbeat overdue came after the
      last clear, or after boot. */
  lemma AllowedExactly(b: Board, hs: seq<Happening>)
    requires BoardOk(b) && AllOk(b, hs) && InTime(hs)
    ensures Run(b, PowerUp(b), hs).watch.OutputsAllowed() <==> exists c: nat | c <= |hs| :: QuietSince(hs, c)
  {
    hide Run, OutputsSafe, PowerUp, InTime;
    WatchOfRun(b, hs);
  }

  /** A clear is acknowledged and releases the outputs, whatever was before. */
  lemma ClearReleases(b: Board, d: Dev, p: Packet, env: Env)
    requires BoardOk(b) && OutputsSafe(b, d) && EnvOk(b, env) && IsCommand(p, CLEAR_EMERGENCY_STOP)
    ensures var r := Handle(b, d, p, env); r.kind == ACK && r.dev.watch.OutputsAllowed()
    ensures var d2 := Handle(b, d, p, env).dev; d2 == d.(watch := d2.watch)
  {
    hide EnvOk, Fits;
  }
}
