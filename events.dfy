/** The part of a TEvent that Platform::getEvent looks at and writes: its
    `what` class, the `message.command` code, and the rest of the message,
    which the synthesis of a screen-changed command leaves as it was. */
module Events {

  /** Turbo Vision's event class of command events. */
  const EvCommand: int := 0x0100

  /** A command code: the screen-changed marker, or any other command. */
  datatype Command = ScreenChanged | OtherCommand(code: int)

  datatype EventValue = EventValue(what: int, command: Command, info: int)

  predicate IsScreenChangedCommand(e: EventValue) {
    e.what == EvCommand && e.command == ScreenChanged
  }

  /** A TEvent that its caller passes by reference and getEvent fills in place. */
  class Event {
    var what: int
    var command: Command
    var info: int

    constructor (v: EventValue)
      ensures Value() == v
    {
      what, command, info := v.what, v.command, v.info;
    }

    function Value(): EventValue
      reads this
    {
      EventValue(what, command, info)
    }
  }

  /** What getEvent returns, what the event holds afterwards, and whether the
      `screenChanged()` probe was consulted. */
  datatype Outcome = Outcome(produced: bool, event: EventValue, probedScreen: bool)

  /** getEvent, given that the waiter's poll returned `polled` and left the
      event as `filled`, and that `screenChanged()` would report `changed`.
      A real event passes through untouched unless it is a screen-changed
      command; a screen-changed command is only ever produced by the probe. */
  function GetEventOutcome(polled: bool, filled: EventValue, changed: bool): (o: Outcome)
    // a usable real event is returned as it came, without consulting the probe
    ensures polled && !IsScreenChangedCommand(filled) ==> o == Outcome(true, filled, false)
    // otherwise the probe decides, and it alone makes a screen-changed command
    ensures !(polled && !IsScreenChangedCommand(filled)) ==>
              o.probedScreen && (o.produced <==> changed)
              && (changed ==> IsScreenChangedCommand(o.event))
    ensures o.produced && IsScreenChangedCommand(o.event) ==> changed && o.probedScreen
    ensures o.produced <==> (polled && !IsScreenChangedCommand(filled)) || changed
    // the rest of the message is never overwritten
    ensures o.event.info == filled.info
  {
    if polled && (filled.what != EvCommand || filled.command != ScreenChanged) then
      Outcome(true, filled, false)
    else if changed then
      Outcome(true, filled.(what := EvCommand, command := ScreenChanged), true)
    else
      Outcome(false, filled, true)
  }
}
