/** The event list of selfdrive/controls/lib/events.py, as the GM interface uses it. */
module ControlsEvents {
  import opened Cereal

  /** A growing list of event names; add appends one, extend appends several. */
  class Events {
    var events: seq<EventName>

    constructor (initial: seq<EventName>)
      ensures events == initial
    {
      events := initial;
    }

    method Add(name: EventName)
      modifies this
      ensures events == old(events) + [name]
    {
      events := events + [name];
    }

    method Extend(names: seq<EventName>)
      modifies this
      ensures events == old(events) + names
    {
      events := events + names;
    }
  }
}
