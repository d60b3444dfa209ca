// The shared containers of the simulation: the process queue `DList`, the
// simulation `Clock` and the lifecycle vector. Their headers (DList.h,
// Clock.h) are not part of this model; only the operations the core calls
// are modelled, with the meaning the core relies on.

module Containers {
  import opened Records

  /** An ordered queue of process records, held by value. */
  class DList {
    var items: seq<PCB>

    constructor ()
      ensures items == []
    {
      items := [];
    }

    function Size(): nat
      reads this
    {
      |items|
    }

    /** `add_end`: append a copy at the tail. */
    method AddEnd(p: PCB)
      modifies this
      ensures items == old(items) + [p]
    {
      items := items + [p];
    }

    /** `removeindex`: take the record at index i out, keeping the order of the rest. */
    method RemoveIndex(i: nat) returns (p: PCB)
      requires i < |items|
      modifies this
      ensures p == old(items)[i]
      ensures items == old(items)[..i] + old(items)[i + 1..]
    {
      p := items[i];
      items := items[..i] + items[i + 1..];
    }

    /** Writing through the `PCB*` that `getindex(i)` returns: replace the record at index i. */
    method SetIndex(i: nat, p: PCB)
      requires i < |items|
      modifies this
      ensures items == old(items)[i := p]
    {
      items := items[i := p];
    }
  }

  /** The simulation clock, counting half-ticks from 0. */
  class Clock {
    var time: int

    constructor ()
      ensures time == 0
    {
      time := 0;
    }

    /** `step`: one half-tick forward. */
    method Step()
      modifies this
      ensures time == old(time) + 1
    {
      time := time + 1;
    }
  }

  /** The lifecycle vector `std::vector<PCBStatus>` shared by all components. */
  class StatusLog {
    var events: seq<PCBStatus>

    constructor ()
      ensures events == []
    {
      events := [];
    }

    /** `push_back` of a copy of the event. */
    method PushBack(e: PCBStatus)
      modifies this
      ensures events == old(events) + [e]
    {
      events := events + [e];
    }
  }
}
