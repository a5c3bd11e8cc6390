/** The firmware's emergency-stop latch and heartbeat watchdog. */
module Safety {
  import opened Wire

  const DEFAULT_WATCHDOG_TIMEOUT_MS: u32 := 300
  const CLOCK: nat := 0x1_0000_0000

  /** The value of millis() at a true time, in milliseconds since boot. */
  function Millis(time: nat): u32 {
    time % CLOCK
  }

  // ---- the latch and watchdog as values ----

  datatype Watch = Watch(timeout: u32, lastBeat: u32, stop: bool, expired: bool) {
    predicate OutputsAllowed() {
      !stop && !expired
    }

    function Beat(now: u32): Watch {
      this.(lastBeat := now, expired := false)
    }

    function Check(now: u32): Watch {
      if Cut32(now - lastBeat) > timeout then this.(expired := true, stop := true) else this
    }

    function Latch(): Watch {
      this.(stop := true)
    }

    function Clear(now: u32): Watch {
      this.(stop := false, expired := false).Beat(now)
    }
  }

  const BOOT := Watch(DEFAULT_WATCHDOG_TIMEOUT_MS, 0, false, false)

  // ---- the object ----

  class SafetyState {
    var watchdogTimeoutMs: u32
    var lastHeartbeatMs: u32
    var emergencyStop: bool
    var watchdogExpired: bool

    function View(): Watch
      reads this
    {
      Watch(watchdogTimeoutMs, lastHeartbeatMs, emergencyStop, watchdogExpired)
    }

    constructor ()
      ensures View() == BOOT
    {
      watchdogTimeoutMs, lastHeartbeatMs := DEFAULT_WATCHDOG_TIMEOUT_MS, 0;
      emergencyStop, watchdogExpired := false, false;
    }

    method Heartbeat(now: u32)
      modifies this
      ensures View() == old(View()).Beat(now)
    {
      lastHeartbeatMs := now;
      watchdogExpired := false;
    }

    method Update(now: u32)
      modifies this
      ensures View() == old(View()).Check(now)
    {
      if Cut32(now - lastHeartbeatMs) > watchdogTimeoutMs {
        watchdogExpired := true;
        emergencyStop := true;
      }
    }

    method EmergencyStop()
      modifies this
      ensures View() == old(View()).Latch()
    {
      emergencyStop := true;
    }

    method ClearEmergencyStop(now: u32)
      modifies this
      ensures View() == old(View()).Clear(now)
    {
      emergencyStop := false;
      watchdogExpired := false;
      Heartbeat(now);
    }

    predicate OutputsAllowed()
      reads this
    {
      !emergencyStop && !watchdogExpired
    }
  }

  // ---- the watchdog against true time ----

  /** The watch together with the true times of the last heartbeat, clear or boot, and of
      the last check. */
  datatype Timed = Timed(watch: Watch, beatAt: nat, checkedAt: nat)

  datatype Event = Heartbeat(at: nat) | Checking(at: nat) | Stop | ClearStop(at: nat) | Other

  function After(s: Timed, e: Event): Timed {
    match e
    case Heartbeat(t) => Timed(s.watch.Beat(Millis(t)), t, s.checkedAt)
    case Checking(t) => Timed(s.watch.Check(Millis(t)), s.beatAt, t)
    case Stop => s.(watch := s.watch.Latch())
    case ClearStop(t) => Timed(s.watch.Clear(Millis(t)), t, s.checkedAt)
    case Other => s
  }

  /** Time does not run backwards, and checks follow each other closely enough. */
  predicate Timely(s: Timed, e: Event) {
    match e
    case Heartbeat(t) => t >= s.beatAt && t >= s.checkedAt
    case ClearStop(t) => t >= s.beatAt && t >= s.checkedAt
    case Checking(t) => t >= s.beatAt && s.checkedAt <= t < s.checkedAt + CLOCK - s.watch.timeout
    case _ => true
  }

  predicate WatchInv(s: Timed) {
    && s.watch.lastBeat == Millis(s.beatAt)
    && (s.watch.expired ==> s.watch.stop)
    && (s.watch.OutputsAllowed() ==> s.checkedAt <= s.beatAt + s.watch.timeout)
  }

  /** Under the wrapping clock a timely check is exact: outputs stay allowed if and only if
      they were and the last heartbeat is truly no older than the timeout. */
  lemma CheckExact(s: Timed, t: nat)
    requires WatchInv(s) && Timely(s, Checking(t))
    ensures var s2 := After(s, Checking(t));
            && WatchInv(s2)
            && (s2.watch.OutputsAllowed() <==> s.watch.OutputsAllowed() && t - s.beatAt <= s.watch.timeout)
  {
    if s.watch.OutputsAllowed() {
      ElapsedExact(t, s.beatAt);
    }
  }

  lemma ElapsedExact(t: nat, beatAt: nat)
    requires beatAt <= t < beatAt + CLOCK
    ensures Cut32(Millis(t) - Millis(beatAt)) == t - beatAt
  {
    var q, p := t / CLOCK, beatAt / CLOCK;
    assert Millis(t) - Millis(beatAt) == t - beatAt - CLOCK * (q - p);
    assert q == p || q == p + 1;
  }

  lemma EventKeeps(s: Timed, e: Event)
    requires WatchInv(s) && Timely(s, e)
    ensures WatchInv(After(s, e))
    ensures !s.watch.OutputsAllowed() && !e.ClearStop? ==> !After(s, e).watch.OutputsAllowed()
    ensures s.watch.stop && !e.ClearStop? ==> After(s, e).watch.stop
  {
    if e.Checking? { CheckExact(s, e.at); }
  }

  predicate TimelyRun(s: Timed, events: seq<Event>)
    decreases |events|
  {
    events != [] ==> Timely(s, events[0]) && TimelyRun(After(s, events[0]), events[1..])
  }

  function AfterAll(s: Timed, events: seq<Event>): Timed
    decreases |events|
  {
    if events == [] then s else AfterAll(After(s, events[0]), events[1..])
  }

  lemma {:induction false} RunKeepsWatch(s: Timed, events: seq<Event>)
    requires WatchInv(s) && TimelyRun(s, events)
    ensures WatchInv(AfterAll(s, events))
    decreases |events|
  {
    hide WatchInv, Timely, After;
    if events != [] {
      EventKeeps(s, events[0]);
      RunKeepsWatch(After(s, events[0]), events[1..]);
    }
  }

  /** In any timely run from boot, right after a check outputs are allowed only if the last
      heartbeat, clear or boot is truly at most the timeout ago. */
  lemma WatchdogHolds(events: seq<Event>, t: nat)
    requires var s := AfterAll(Timed(BOOT, 0, 0), events);
             TimelyRun(Timed(BOOT, 0, 0), events) && Timely(s, Checking(t))
    ensures var s := AfterAll(Timed(BOOT, 0, 0), events);
            After(s, Checking(t)).watch.OutputsAllowed() ==> t - s.beatAt <= s.watch.timeout
  {
    hide AfterAll, TimelyRun;
    RunKeepsWatch(Timed(BOOT, 0, 0), events);
    CheckExact(AfterAll(Timed(BOOT, 0, 0), events), t);
  }

  /** The bound on the gap between checks is sharp: one millisecond more, and a heartbeat
      that is a whole turn of the clock old passes for fresh. */
  lemma GapBoundSharp()
    ensures var s := After(Timed(BOOT, 0, 0), Checking(300));
            var late := s.checkedAt + CLOCK - s.watch.timeout;
            && Timely(Timed(BOOT, 0, 0), Checking(300)) && Timely(s, Checking(late - 1))
            && !Timely(s, Checking(late))
            && After(s, Checking(late)).watch.OutputsAllowed() && late - s.beatAt > s.watch.timeout
  {
  }

  // ---- exactly which gaps are safe ----

  /** Time does not run backwards, and checks follow each other within `gap`. */
  predicate Spaced(s: Timed, e: Event, gap: nat) {
    match e
    case Heartbeat(t) => t >= s.beatAt && t >= s.checkedAt
    case ClearStop(t) => t >= s.beatAt && t >= s.checkedAt
    case Checking(t) => t >= s.beatAt && s.checkedAt <= t <= s.checkedAt + gap
    case _ => true
  }

  predicate SpacedRun(s: Timed, events: seq<Event>, gap: nat)
    decreases |events|
  {
    events != [] ==> Spaced(s, events[0], gap) && SpacedRun(After(s, events[0]), events[1..], gap)
  }

  /** In every run with checks within `gap` of each other, right after any check outputs are
      allowed only if the last heartbeat, clear or boot is truly at most the timeout ago. */
  ghost predicate Watched(gap: nat) {
    forall events: seq<Event>, t: nat ::
      var s := AfterAll(Timed(BOOT, 0, 0), events);
      SpacedRun(Timed(BOOT, 0, 0), events, gap) && Spaced(s, Checking(t), gap) ==>
      (After(s, Checking(t)).watch.OutputsAllowed() ==> t - s.beatAt <= DEFAULT_WATCHDOG_TIMEOUT_MS)
  }

  lemma {:induction false} SpacedIsTimely(s: Timed, events: seq<Event>, gap: nat)
    requires s.watch.timeout == DEFAULT_WATCHDOG_TIMEOUT_MS && gap + DEFAULT_WATCHDOG_TIMEOUT_MS < CLOCK
    ensures SpacedRun(s, events, gap) ==> TimelyRun(s, events)
    ensures AfterAll(s, events).watch.timeout == DEFAULT_WATCHDOG_TIMEOUT_MS
    decreases |events|
  {
    if events != [] { SpacedIsTimely(After(s, events[0]), events[1..], gap); }
  }

  /** The watchdog is sound for checks within `gap` of each other if and only if the gap and
      the timeout together stay below a turn of the clock. */
  lemma WatchedExactly(gap: nat)
    ensures Watched(gap) <==> gap + DEFAULT_WATCHDOG_TIMEOUT_MS < CLOCK
  {
    var boot := Timed(BOOT, 0, 0);
    if gap + DEFAULT_WATCHDOG_TIMEOUT_MS < CLOCK {
      forall events: seq<Event>, t: nat
        | SpacedRun(boot, events, gap) && Spaced(AfterAll(boot, events), Checking(t), gap)
        ensures var s := AfterAll(boot, events);
                After(s, Checking(t)).watch.OutputsAllowed() ==> t - s.beatAt <= DEFAULT_WATCHDOG_TIMEOUT_MS
      {
        SpacedIsTimely(boot, events, gap);
        WatchdogHolds(events, t);
      }
    } else {
      var events := [Checking(DEFAULT_WATCHDOG_TIMEOUT_MS)];
      var s := After(boot, events[0]);
      assert events[1..] == [] && AfterAll(s, []) == s && SpacedRun(s, [], gap);
      assert AfterAll(boot, events) == s;
      assert SpacedRun(boot, events, gap) && Spaced(s, Checking(CLOCK), gap);
      assert After(s, Checking(CLOCK)).watch.OutputsAllowed();
    }
  }
}
