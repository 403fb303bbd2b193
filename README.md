# Platform console coordination of Turbo Vision (tvision)

This project models `source/platform/platfcon.cpp`, the part of the
framework's `Platform` that owns the current console strategy and drives the
event loop around it:

- `createConsole` picks the Win32, Linux or Unix console strategy from the
  build and from the console-control query `isLinuxConsole()`, and fixes the
  last argument given to `NcursesInput`;
- `setUpConsole` replaces the dummy sentinel with a freshly created strategy,
  enables signal handling and registers the strategy's non-empty event
  sources with the event waiter;
- `checkConsole` probes liveness and, for a dead console, runs
  `restoreConsole` then `setUpConsole`;
- `getEvent` passes real events through, drops waiter-supplied
  `cmScreenChanged` commands and synthesises one when `screenChanged()`
  reports a change;
- `waitForEvents` checks the console, then blocks for the earlier of the
  caller's timeout and the display buffer's flush deadline;
- `signalCallback` restores the console before a suspend and sets it up
  again after a resume, unless the calling thread holds the console lock.

Layout: `timeouts.dfy` (module `Timeouts`, the timeout rule),
`consoles.dfy` (module `Consoles`, strategy selection and source slots),
`events.dfy` (module `Events`, the event and the getEvent decision) and
`platform.dfy` (module `PlatformCon`, class `Platform` and the signal
callback). The `Platform` methods that change the console state
(`SetUpConsole`, `RestoreConsole`, `CheckConsole`, `WaitForEvents`) are
proved to produce the state given by a pure function of the old state
(`SetUp`, `RestoreEffect`, `Check`, `Wait`); the module-level
`SignalCallback` is proved against `Signal`; `GetEvent` is proved to return
and write what `GetEventOutcome` gives. The lemmas beside these functions
state what the source promises about them. Every answer that comes from
outside the file is a parameter: liveness, the flush deadline, the waiter's
poll, the resize probe, the build flags, the sources of a created strategy,
and what `restoreConsole` leaves behind. Calls out of the file whose order
matters are recorded in the platform's `log`.

A screen-changed command returned by the waiter is passed on only when
`screenChanged()` confirms a change (the fields written at lines 67-68 then
equal those the waiter left); otherwise `getEvent` returns false and that
command stays in `ev`. The flush deadline is a C `int`; the model takes it
as a 32-bit `CInt`.

## Model

| member | source | states |
|---|---|---|
| Timeouts.EffectiveTimeout | source/platform/platfcon.cpp:78-85 | the waiter wakes at the earlier of the caller's and the flush deadline (negative meaning none); a negative caller timeout yields the flush value exactly; a non-negative one is never exceeded, never made negative, and is kept when there is no pending flush |
| Consoles.CreateConsole | source/platform/platfcon.cpp:20-34 | Win32 exactly on Windows builds; Linux exactly on a Linux build whose console is a Linux console; Unix otherwise; the NcursesInput flag is false for Linux and true for Unix |
| Consoles.PresentSources | source/platform/platfcon.cpp:42-44 | a source is registered exactly when it is the value of some non-empty slot, no more sources than slots are registered, and all slots are registered only when none is empty; once-each and position are stated by PresentSourcesCount and PresentSourcesAt |
| Consoles.PresentSourcesCount | source/platform/platfcon.cpp:42-44 | as many sources are registered as there are non-empty slots, so none is registered twice or skipped |
| Consoles.PresentSourcesAt | source/platform/platfcon.cpp:42-44 | the source of each non-empty slot is registered at the position right after those of the non-empty slots before it |
| Consoles.PresentSourcesAppend | source/platform/platfcon.cpp:42-44 | registration over consecutive slot ranges concatenates, so the loop registers slot by slot |
| Consoles.PresentSourcesOrdered | source/platform/platfcon.cpp:42-44 | sources are registered in slot order |
| Events.GetEventOutcome | source/platform/platfcon.cpp:60-72 | a polled event that is not a cmScreenChanged command is returned unchanged without probing; otherwise the probe is consulted and the call returns true exactly when it reports a change, with a cmScreenChanged command; a returned cmScreenChanged command always comes from the probe; the rest of the message is never overwritten |
| PlatformCon.Platform.GetEvent | source/platform/platfcon.cpp:60-72 | returns and writes into `ev` what GetEventOutcome gives; polls the waiter first and calls screenChanged() only when no usable real event came |
| PlatformCon.SetUpIdempotent | source/platform/platfcon.cpp:38 | setUpConsole on a non-sentinel console changes nothing, so repeating it is a no-op |
| PlatformCon.SetUpOnSentinel | source/platform/platfcon.cpp:38-45 | on the sentinel it installs the selected variant, enables signal handling once, records one creation, and appends to the earlier registrations exactly PresentSources of the new console's slots (each non-empty slot once, in slot order) |
| PlatformCon.Platform.SetUpConsole | source/platform/platfcon.cpp:36-46 | leaves the platform in the state SetUp gives: nothing changes off the sentinel, and on it one creation, one enable and the registration loop |
| PlatformCon.Platform.RegisterSources | source/platform/platfcon.cpp:42-44 | the loop appends to the waiter's sources exactly PresentSources of the slots, in order, after the earlier registrations |
| PlatformCon.Platform.RestoreConsole | source/platform/platfcon.cpp:54 | restoreConsole, defined outside this file: records the call and takes on the console and waiter sources it leaves behind |
| PlatformCon.CheckAlive | source/platform/platfcon.cpp:50-51 | a live console is only probed |
| PlatformCon.CheckDead | source/platform/platfcon.cpp:51-56 | a dead console gets one probe, one restore and then one creation when the restore left the sentinel (none otherwise), and the new console's sources are registered |
| PlatformCon.CheckKeepsRegistered | source/platform/platfcon.cpp:50-57 | every source of the current console stays registered across checkConsole when restoreConsole leaves the sentinel |
| PlatformCon.Platform.CheckConsole | source/platform/platfcon.cpp:48-58 | probe, then restore and set up only when the console is dead |
| PlatformCon.WaitChecksFirst | source/platform/platfcon.cpp:74-88 | the liveness probe is the first call of waitForEvents, the blocking wait the last and only one, with the combined timeout |
| PlatformCon.Platform.WaitForEvents | source/platform/platfcon.cpp:74-88 | checks the console then waits with EffectiveTimeout of the caller's and the flush timeout |
| PlatformCon.SignalDispatch | source/platform/platfcon.cpp:92-99 | when the calling thread holds the lock nothing happens; suspend records only a restore; resume only sets up and never restores |
| PlatformCon.SuspendThenResume | source/platform/platfcon.cpp:90-100 | a suspend then a resume rebuilds the console with one restore and one creation and registers the new sources |
| PlatformCon.SignalCallback | source/platform/platfcon.cpp:90-100 | no effect on a null instance; otherwise the instance ends in the state Signal gives |

## Left out

- The console lock (`console.lock`, `lockedByCurrentThread`) and threads: whether the calling thread holds the lock is a boolean input to the signal callback, and checkConsole's locking is not modelled.
- SignalCallback: the source calls the no-argument `restoreConsole()` and `setUpConsole()` of the instance, defined outside this file; the model applies the one-argument forms to the platform's current console.
- Signal safety of the callback: the work it does is not safe in a signal context, which the source notes and does not fix; the model does not address it.
- `waiter.waitForEvents` blocking and the decoding of events from sources: the wait is recorded with its timeout, and a poll is the pair of what `waiter.getEvent` returned and left in `ev`.
- `SignalHandler::enable`: only the number of calls is recorded (`signalEnables`); its idempotence lives outside this file.
- The bodies of `Win32ConsoleStrategy::create`, `LinuxConsoleStrategy::create` and `UnixConsoleStrategy::create`: a created console is its variant and the source slots its constructor reports, given as input.
- The allocation of `InputState`, `NcursesDisplay` and `NcursesInput` and the `ConsoleCtl` instance: resource plumbing with no effect on the decisions modelled.
- `DisplayBuffer::timeUntilPendingFlushMs`, `isAlive` and `screenChanged`: inputs.
- `restoreConsole` is not part of this model (it is defined in another file): its effect on the current console and on the waiter's sources is an input, so whether stale sources are removed is not modelled.
- The numeric value of `cmScreenChanged` and the layout of the TEvent message union: a command is either the screen-changed marker or another code, and the rest of the message is one opaque value.
- How `instance` is set and the Platform constructor: a platform here starts on the sentinel with nothing registered.
