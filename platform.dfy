/** The coordinator of source/platform/platfcon.cpp: Platform holds the current
    console (the dummy sentinel or a created strategy), the event waiter's
    registered sources and the number of times signal handling was enabled,
    and it sets up, checks and recovers the console around every wait.

    Every answer that comes from outside this file (liveness, the display
    buffer's flush deadline, the waiter's poll, the resize probe, the
    strategy constructors, and what restoreConsole leaves behind) is a
    parameter. The calls out of this file whose order matters are appended
    to `log`. */
module PlatformCon {
  import opened Consoles
  import opened Events
  import opened Timeouts

  /** A call out of this file. */
  datatype Call =
    | ProbeAlive                 // c->isAlive()
    | Restore                    // restoreConsole(c)
    | Create(variant: Variant)   // <Variant>ConsoleStrategy::create(...)
    | PollWaiter                 // waiter.getEvent(ev)
    | ProbeScreen                // screenChanged()
    | WaitFor(timeoutMs: int)    // waiter.waitForEvents(ms), the blocking wait

  /** What the build, the console-control singleton and the chosen strategy's
      constructor report when a console is created: the build flags, the
      `isLinuxConsole()` answer and the new strategy's source slots. */
  datatype Host = Host(isWin32: bool, isLinuxBuild: bool, isLinuxConsole: bool, slots: seq<Option<SourceId>>)

  /** What restoreConsole, defined outside this file, leaves behind: the
      console it rebinds `c` to and the waiter's sources. */
  datatype Restored = Restored(console: Console, waiterSources: seq<SourceId>)

  datatype PlatformState = PlatformState(current: Console, waiterSources: seq<SourceId>, signalEnables: nat, log: seq<Call>)

  /** setUpConsole: only the sentinel is replaced; then signal handling is
      enabled once and every non-empty slot of the new console is added to
      the waiter, in slot order. */
  function SetUp(s: PlatformState, host: Host): PlatformState {
    if s.current != Dummy then s
    else
      var v := CreateConsole(host.isWin32, host.isLinuxBuild, host.isLinuxConsole);
      PlatformState(Created(v, host.slots), s.waiterSources + PresentSources(host.slots),
            s.signalEnables + 1, s.log + [Create(v)])
  }

  function RestoreEffect(s: PlatformState, r: Restored): PlatformState {
    s.(current := r.console, waiterSources := r.waiterSources, log := s.log + [Restore])
  }

  /** checkConsole: probe liveness; a dead console is restored, then set up. */
  function Check(s: PlatformState, alive: bool, r: Restored, host: Host): PlatformState {
    var probed := s.(log := s.log + [ProbeAlive]);
    if alive then probed else SetUp(RestoreEffect(probed, r), host)
  }

  /** waitForEvents: check the console, then block for the combined timeout. */
  function Wait(s: PlatformState, alive: bool, r: Restored, host: Host, ms: CInt, flushMs: CInt): PlatformState {
    var checked := Check(s, alive, r, host);
    checked.(log := checked.log + [WaitFor(EffectiveTimeout(ms, flushMs))])
  }

  /** signalCallback on a live instance: ignored while the calling thread holds
      the console lock; otherwise suspend restores and resume sets up. */
  function Signal(s: PlatformState, lockedByCurrentThread: bool, enter: bool, r: Restored, host: Host): PlatformState {
    if lockedByCurrentThread then s
    else if enter then RestoreEffect(s, r)
    else SetUp(s, host)
  }

  /** Every source of the current strategy is registered with the waiter. */
  ghost predicate Registered(s: PlatformState) {
    s.current.Created? ==> forall x :: Some(x) in s.current.sources ==> x in s.waiterSources
  }

  /** setUpConsole acts only on the sentinel, so a second call changes nothing. */
  lemma SetUpIdempotent(s: PlatformState, first: Host, second: Host)
    ensures s.current != Dummy ==> SetUp(s, first) == s
    ensures SetUp(SetUp(s, first), second) == SetUp(s, first)
  {
  }

  /** From the sentinel, setUpConsole installs the chosen variant with the
      strategy's slots, enables signal handling once, and appends to the
      waiter's sources exactly the present slots, leaving the earlier
      registrations in place. */
  lemma SetUpOnSentinel(s: PlatformState, host: Host)
    requires s.current == Dummy
    ensures var t := SetUp(s, host);
            var v := CreateConsole(host.isWin32, host.isLinuxBuild, host.isLinuxConsole);
            && t.current == Created(v, host.slots)
            && t.signalEnables == s.signalEnables + 1
            && t.log == s.log + [Create(v)]
            && t.waiterSources == s.waiterSources + PresentSources(host.slots)
            && (forall x :: x in t.waiterSources[|s.waiterSources|..] <==> Some(x) in host.slots)
            && Registered(t)
  {
  }

  /** checkConsole on a live console only probes it. */
  lemma CheckAlive(s: PlatformState, r: Restored, host: Host)
    ensures Check(s, true, r, host) == s.(log := s.log + [ProbeAlive])
  {
  }

  /** checkConsole on a dead console: one probe, one restore, then one
      creation when the restore left the sentinel behind and none otherwise;
      the rebuilt console's present slots are registered. */
  lemma CheckDead(s: PlatformState, r: Restored, host: Host)
    ensures var t := Check(s, false, r, host);
            var v := CreateConsole(host.isWin32, host.isLinuxBuild, host.isLinuxConsole);
            && (r.console == Dummy ==>
                  t == PlatformState(Created(v, host.slots), r.waiterSources + PresentSources(host.slots),
                                     s.signalEnables + 1, s.log + [ProbeAlive, Restore, Create(v)])
                  && Registered(t))
            && (r.console != Dummy ==>
                  t == PlatformState(r.console, r.waiterSources, s.signalEnables, s.log + [ProbeAlive, Restore]))
  {
  }

  /** Recovery keeps every source of the current console registered, provided
      restoreConsole leaves the sentinel behind. */
  lemma CheckKeepsRegistered(s: PlatformState, alive: bool, r: Restored, host: Host)
    requires Registered(s)
    requires !alive ==> r.console == Dummy
    ensures Registered(Check(s, alive, r, host))
  {
  }

  /** waitForEvents probes the console before anything else it does, blocks
      last, blocks exactly once, and blocks for the combined timeout. */
  lemma WaitChecksFirst(s: PlatformState, alive: bool, r: Restored, host: Host, ms: CInt, flushMs: CInt)
    ensures var t := Wait(s, alive, r, host, ms, flushMs);
            && |s.log| + 2 <= |t.log|
            && t.log[..|s.log|] == s.log
            && t.log[|s.log|] == ProbeAlive
            && t.log[|t.log| - 1] == WaitFor(EffectiveTimeout(ms, flushMs))
            && (forall i | |s.log| <= i < |t.log| - 1 :: !t.log[i].WaitFor?)
  {
  }

  /** The signal callback does nothing while the calling thread holds the
      console lock; otherwise suspend only restores and resume only sets up. */
  lemma SignalDispatch(s: PlatformState, enter: bool, r: Restored, host: Host)
    ensures Signal(s, true, enter, r, host) == s
    ensures enter ==> Signal(s, false, enter, r, host).log == s.log + [Restore]
    ensures !enter ==> Signal(s, false, enter, r, host) == SetUp(s, host)
                       && Restore !in Signal(s, false, enter, r, host).log[|s.log|..]
  {
  }

  /** A suspend followed by a resume, with restoreConsole leaving the sentinel,
      rebuilds the console: one restore, one creation, signal handling enabled
      once more, and the new console's sources registered. */
  lemma SuspendThenResume(s: PlatformState, r: Restored, host: Host)
    requires r.console == Dummy
    ensures var t := Signal(Signal(s, false, true, r, host), false, false, r, host);
            var v := CreateConsole(host.isWin32, host.isLinuxBuild, host.isLinuxConsole);
            && t.log == s.log + [Restore, Create(v)]
            && t.current == Created(v, host.slots)
            && t.signalEnables == s.signalEnables + 1
            && Registered(t)
  {
  }

  class Platform {
    var current: Console
    var waiterSources: seq<SourceId>
    var signalEnables: nat
    var log: seq<Call>

    function State(): PlatformState
      reads this
    {
      PlatformState(current, waiterSources, signalEnables, log)
    }

    /** A platform starts on the dummy sentinel with nothing registered. */
    constructor ()
      ensures State() == PlatformState(Dummy, [], 0, [])
    {
      current, waiterSources, signalEnables, log := Dummy, [], 0, [];
    }

    method SetUpConsole(host: Host)
      modifies this
      ensures State() == SetUp(old(State()), host)
    {
      if current == Dummy {
        var v := CreateConsole(host.isWin32, host.isLinuxBuild, host.isLinuxConsole);
        log := log + [Create(v)];
        current := Created(v, host.slots);
        signalEnables := signalEnables + 1;
        RegisterSources(current.sources);
      }
    }

    /** The loop of setUpConsole: `waiter.addSource` for each non-empty slot,
        in slot order. */
    method RegisterSources(slots: seq<Option<SourceId>>)
      modifies this`waiterSources
      ensures waiterSources == old(waiterSources) + PresentSources(slots)
    {
      var i := 0;
      while i < |slots|
        invariant 0 <= i <= |slots|
        invariant waiterSources == old(waiterSources) + PresentSources(slots[..i])
      {
        if slots[i].Some? {
          waiterSources := waiterSources + [slots[i].value];
        }
        assert slots[..i + 1] == slots[..i] + [slots[i]];
        PresentSourcesAppend(slots[..i], [slots[i]]);
        i := i + 1;
      }
      assert slots[..i] == slots;
    }

    /** restoreConsole is defined outside this file; its effect is what
        `r` says it leaves behind. */
    method RestoreConsole(r: Restored)
      modifies this
      ensures State() == RestoreEffect(old(State()), r)
    {
      log := log + [Restore];
      current := r.console;
      waiterSources := r.waiterSources;
    }

    method CheckConsole(alive: bool, r: Restored, host: Host)
      modifies this
      ensures State() == Check(old(State()), alive, r, host)
    {
      log := log + [ProbeAlive];
      if !alive {
        // The console likely crashed.
        RestoreConsole(r);
        SetUpConsole(host);
      }
    }

    /** getEvent: `polled` and `filled` are what waiter.getEvent returned and
        left in `ev`; `changed` is what screenChanged() would report. */
    method GetEvent(ev: Event, polled: bool, filled: EventValue, changed: bool) returns (produced: bool)
      modifies this`log, ev
      ensures produced == GetEventOutcome(polled, filled, changed).produced
      ensures ev.Value() == GetEventOutcome(polled, filled, changed).event
      ensures log == old(log) + [PollWaiter]
                     + (if GetEventOutcome(polled, filled, changed).probedScreen then [ProbeScreen] else [])
    {
      log := log + [PollWaiter];
      ev.what, ev.command, ev.info := filled.what, filled.command, filled.info;
      if polled && (ev.what != EvCommand || ev.command != ScreenChanged) {
        return true;
      }
      log := log + [ProbeScreen];
      if changed {
        ev.what := EvCommand;
        ev.command := ScreenChanged;
        return true;
      }
      return false;
    }

    /** waitForEvents: `flushMs` is the display buffer's time until its next
        pending flush. */
    method WaitForEvents(ms: CInt, alive: bool, r: Restored, host: Host, flushMs: CInt)
      modifies this
      ensures State() == Wait(old(State()), alive, r, host, ms, flushMs)
    {
      CheckConsole(alive, r, host);
      var waitTimeoutMs := EffectiveTimeout(ms, flushMs);
      log := log + [WaitFor(waitTimeoutMs)];
    }
  }

  /** signalCallback, which the signal handler calls with `enter` true before
      the process is suspended and false after it resumes. `instance` is the
      platform instance, if any. */
  method SignalCallback(instance: Platform?, lockedByCurrentThread: bool, enter: bool, r: Restored, host: Host)
    modifies instance
    ensures instance != null ==>
              instance.State() == Signal(old(instance.State()), lockedByCurrentThread, enter, r, host)
  {
    if instance != null && !lockedByCurrentThread {
      if enter {
        instance.RestoreConsole(r);
      } else {
        instance.SetUpConsole(host);
      }
    }
  }
}
