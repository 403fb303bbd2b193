/** Console strategies: which variant Platform::createConsole builds, the
    console handle Platform holds (the dummy sentinel or a created strategy),
    and the event sources of a strategy that get registered with the waiter. */
module Consoles {

  datatype Option<T> = None | Some(value: T)

  /** An event source is identified by the handle the waiter registers. */
  type SourceId = nat

  /** The strategy variants. The Linux and Unix variants build an NcursesInput
      whose last constructor argument is recorded as `ncursesInputFlag`. */
  datatype Variant =
    | Win32Console
    | LinuxConsole(ncursesInputFlag: bool)
    | UnixConsole(ncursesInputFlag: bool)

  /** The console Platform currently holds: the dummy sentinel, or a strategy
      that was created, with its fixed-size slots of event sources (a slot may
      be empty). */
  datatype Console =
    | Dummy
    | Created(variant: Variant, sources: seq<Option<SourceId>>)

  /** The variant chosen for a build (`isWin32`: built for Windows;
      `isLinuxBuild`: built for Linux) and the console-control query
      `isLinuxConsole()`, which only a Linux build consults. */
  function CreateConsole(isWin32: bool, isLinuxBuild: bool, isLinuxConsole: bool): (v: Variant)
    ensures v.Win32Console? <==> isWin32
    ensures v.LinuxConsole? <==> !isWin32 && isLinuxBuild && isLinuxConsole
    ensures v.UnixConsole? <==> !isWin32 && !(isLinuxBuild && isLinuxConsole)
    ensures !v.Win32Console? ==> (v.ncursesInputFlag <==> v.UnixConsole?)
  {
    if isWin32 then Win32Console
    else if isLinuxBuild && isLinuxConsole then LinuxConsole(false)
    else UnixConsole(true)
  }

  /** The non-empty source slots, in slot order: what setUpConsole hands to
      `waiter.addSource`, one call each. */
  function PresentSources(slots: seq<Option<SourceId>>): (r: seq<SourceId>)
    ensures |r| <= |slots|
    ensures forall x :: x in r <==> Some(x) in slots
    ensures |r| == |slots| <==> forall i | 0 <= i < |slots| :: slots[i].Some?
  {
    if slots == [] then []
    else
      var rest := PresentSources(slots[1..]);
      assert forall x :: Some(x) in slots <==> Some(x) == slots[0] || Some(x) in slots[1..];
      if slots[0].Some? then [slots[0].value] + rest else rest
  }

  /** Registering the slots of a concatenation registers those of each part in
      turn; this is what lets the registration loop go one slot at a time. */
  lemma {:induction false} PresentSourcesAppend(a: seq<Option<SourceId>>, b: seq<Option<SourceId>>)
    ensures PresentSources(a + b) == PresentSources(a) + PresentSources(b)
  {
    if a == [] {
      assert a + b == b;
    } else {
      assert (a + b)[1..] == a[1..] + b;
      PresentSourcesAppend(a[1..], b);
    }
  }

  /** The indices of the non-empty slots. */
  ghost function PresentSlots(slots: seq<Option<SourceId>>): set<int> {
    set i | 0 <= i < |slots| && slots[i].Some?
  }

  /** One source is registered per non-empty slot: no slot is registered
      twice and none is skipped. */
  lemma {:induction false} PresentSourcesCount(slots: seq<Option<SourceId>>)
    ensures |PresentSources(slots)| == |PresentSlots(slots)|
  {
    if slots == [] {
      assert PresentSlots(slots) == {};
    } else {
      var n := |slots| - 1;
      var front := slots[..n];
      assert slots == front + [slots[n]];
      PresentSourcesAppend(front, [slots[n]]);
      PresentSourcesCount(front);
      assert n !in PresentSlots(front);
      if slots[n].Some? {
        assert PresentSlots(slots) == PresentSlots(front) + {n};
      } else {
        assert PresentSlots(slots) == PresentSlots(front);
      }
    }
  }

  /** The source of non-empty slot `i` is registered right after those of the
      non-empty slots before it. */
  lemma {:induction false} PresentSourcesAt(slots: seq<Option<SourceId>>, i: nat)
    requires i < |slots| && slots[i].Some?
    ensures |PresentSources(slots[..i])| < |PresentSources(slots)|
    ensures PresentSources(slots)[|PresentSources(slots[..i])|] == slots[i].value
  {
    var front, back := slots[..i], slots[i..];
    assert slots == front + back;
    PresentSourcesAppend(front, back);
    assert back == [slots[i]] + back[1..];
    PresentSourcesAppend([slots[i]], back[1..]);
    assert PresentSources([slots[i]]) == [slots[i].value] by {
      assert [slots[i]][1..] == [];
    }
  }

  /** The order of the slots is kept: a source in an earlier slot is
      registered before a source in a later slot. */
  lemma {:induction false} PresentSourcesOrdered(slots: seq<Option<SourceId>>, i: nat, j: nat)
    requires i < j < |slots| && slots[i].Some? && slots[j].Some?
    ensures exists p, q :: 0 <= p < q < |PresentSources(slots)|
                           && PresentSources(slots)[p] == slots[i].value
                           && PresentSources(slots)[q] == slots[j].value
  {
    var front, back := slots[..j], slots[j..];
    assert slots == front + back;
    PresentSourcesAppend(front, back);
    assert back == [slots[j]] + back[1..];
    PresentSourcesAppend([slots[j]], back[1..]);
    assert Some(slots[i].value) in front by { assert front[i] == slots[i]; }
    var pf := PresentSources(front);
    var p :| 0 <= p < |pf| && pf[p] == slots[i].value;
    var q := |pf|;
    assert PresentSources(slots)[p] == slots[i].value;
    assert PresentSources(slots)[q] == slots[j].value;
  }
}
