// Process records of the scheduling simulator: the process control block
// (PCB), the lifecycle states and the lifecycle event record (PCBStatus).
//
// Time is counted in half-ticks: every float time quantity of the source is a
// multiple of 0.5, so a value v is stored as the integer 2*v. The two time
// fields that the source declares as `int` (arrival and burst) stay in whole
// time units.

module Records {

  datatype Option<T> = None | Some(value: T)

  /** The process control block. `timeLeft`, `respTime`, `waitTime`,
      `finishTime` and `ioBurst` are in half-ticks; `arrival` and `burst`
      in whole time units. */
  datatype PCB = PCB(
    pid: int,
    arrival: int,
    burst: int,
    priority: int,
    numContext: int,
    timeLeft: int,
    respTime: int,
    waitTime: int,
    finishTime: int,
    ioBurst: int,
    started: bool)

  /** A record that has not yet been touched by the simulation: no
      statistics yet, all of its burst still to run. */
  predicate Untouched(p: PCB) {
    && !p.started
    && p.respTime == 0 && p.waitTime == 0 && p.finishTime == 0
    && p.numContext == 0
    && p.timeLeft == 2 * p.burst
  }

  /** The default constructor `PCB()`: every field zero (and `started` false). */
  function DefaultPCB(): (p: PCB)
    ensures Untouched(p)
    ensures p.pid == 0 && p.arrival == 0 && p.burst == 0 && p.priority == 0 && p.ioBurst == 0
  {
    PCB(0, 0, 0, 0, 0, 0, 0, 0, 0, 0, false)
  }

  /** The five-argument constructor `PCB(id, arr, time, prio, io_burst)`:
      the remaining time starts equal to the burst, the I/O burst is a whole
      number of time units, and every statistic starts at zero. */
  function NewPCB(id: int, arr: int, time: int, prio: int, io: int): (p: PCB)
    ensures Untouched(p)
    ensures p.pid == id && p.arrival == arr && p.burst == time && p.priority == prio
    ensures p.ioBurst == 2 * io && p.ioBurst % 2 == 0
  {
    PCB(id, arr, time, prio, 0, 2 * time, 0, 0, 0, 2 * io, false)
  }

  /** The process ids of a queue, in queue order. */
  function PidSeq(s: seq<PCB>): (r: seq<int>)
    ensures |r| == |s| && forall i :: 0 <= i < |s| ==> r[i] == s[i].pid
  {
    seq(|s|, i requires 0 <= i < |s| => s[i].pid)
  }

  /** The multiset of process ids held by a queue. */
  function Pids(s: seq<PCB>): multiset<int> {
    multiset(PidSeq(s))
  }

  /** The process id held by the CPU slot, if any. */
  function SlotPids(o: Option<PCB>): multiset<int> {
    match o
    case None => multiset{}
    case Some(p) => multiset{p.pid}
  }

  lemma PidsAppend(a: seq<PCB>, b: seq<PCB>)
    ensures Pids(a + b) == Pids(a) + Pids(b)
  {
    assert PidSeq(a + b) == PidSeq(a) + PidSeq(b);
  }

  /** Appending one record adds exactly its pid. */
  lemma PidsSnoc(s: seq<PCB>, p: PCB)
    ensures Pids(s + [p]) == Pids(s) + multiset{p.pid}
  {
    PidsAppend(s, [p]);
    assert PidSeq([p]) == [p.pid];
  }

  /** Removing the element at index i takes exactly its pid out of the multiset. */
  lemma PidsRemoveAt(s: seq<PCB>, i: int)
    requires 0 <= i < |s|
    ensures Pids(s[..i] + s[i + 1..]) + multiset{s[i].pid} == Pids(s)
  {
    var before, after := s[..i], s[i + 1..];
    assert s == before + ([s[i]] + after);
    PidsAppend(before, [s[i]] + after);
    PidsAppend([s[i]], after);
    PidsAppend(before, after);
    assert Pids([s[i]]) == multiset{s[i].pid} by { assert PidSeq([s[i]]) == [s[i].pid]; }
  }

  /** The lifecycle states, `PROCESS_STATE`. */
  datatype ProcessState = Created | InReadyQueue | InRunningQueue | InBlockedQueue | Completed

  /** The readable name of a state, `e2s`. */
  function StateName(state: ProcessState): (r: string)
    ensures state == Created ==> r == "CREATED"
    ensures state == InReadyQueue ==> r == "IN_READY_QUEUE"
    ensures state == InBlockedQueue ==> r == "IN_BLOCKED_QUEUE"
    ensures state == InRunningQueue ==> r == "IN_RUNNING_QUEUE"
    ensures state == Completed ==> r == "COMPLETED"
  {
    match state
    case Created => "CREATED"
    case InReadyQueue => "IN_READY_QUEUE"
    case InBlockedQueue => "IN_BLOCKED_QUEUE"
    case InRunningQueue => "IN_RUNNING_QUEUE"
    case Completed => "COMPLETED"
  }

  /** The state a name stands for, if any: the inverse of `StateName`. */
  function StateOfName(name: string): Option<ProcessState> {
    if name == "CREATED" then Some(Created)
    else if name == "IN_READY_QUEUE" then Some(InReadyQueue)
    else if name == "IN_BLOCKED_QUEUE" then Some(InBlockedQueue)
    else if name == "IN_RUNNING_QUEUE" then Some(InRunningQueue)
    else if name == "COMPLETED" then Some(Completed)
    else None
  }

  lemma StateNameRoundTrip(s: ProcessState)
    ensures StateOfName(StateName(s)) == Some(s)
  {
  }

  /** Distinct states have distinct names. */
  lemma StateNameInjective(s: ProcessState, t: ProcessState)
    ensures StateName(s) == StateName(t) <==> s == t
  {
    StateNameRoundTrip(s);
    StateNameRoundTrip(t);
  }

  /** One lifecycle event: a state, the clock time (in half-ticks) at which
      it was recorded, and the process id. Every event of the simulation is
      a value copied into the lifecycle vector. */
  datatype PCBStatus = PCBStatus(currentState: ProcessState, currentCpuClockTime: int, pid: int)
  {
    function GetPid(): int { pid }
    function GetRecordedState(): ProcessState { currentState }
    function GetRecordedCpuTime(): int { currentCpuClockTime }

    /** `recordState`: only the state changes. */
    function RecordState(state: ProcessState): (r: PCBStatus)
      ensures r.GetRecordedState() == state
      ensures r.GetRecordedCpuTime() == GetRecordedCpuTime() && r.GetPid() == GetPid()
    {
      this.(currentState := state)
    }

    /** `recordCpuTime`: only the time changes. */
    function RecordCpuTime(time: int): (r: PCBStatus)
      ensures r.GetRecordedCpuTime() == time
      ensures r.GetRecordedState() == GetRecordedState() && r.GetPid() == GetPid()
    {
      this.(currentCpuClockTime := time)
    }

    /** `recordPid`: only the pid changes. */
    function RecordPid(id: int): (r: PCBStatus)
      ensures r.GetPid() == id
      ensures r.GetRecordedState() == GetRecordedState() && r.GetRecordedCpuTime() == GetRecordedCpuTime()
    {
      this.(pid := id)
    }
  }

  /** The three-argument constructor stores exactly what the getters return. */
  lemma StatusGetters(state: ProcessState, time: int, id: int)
    ensures PCBStatus(state, time, id).GetRecordedState() == state
    ensures PCBStatus(state, time, id).GetRecordedCpuTime() == time
    ensures PCBStatus(state, time, id).GetPid() == id
  {
  }

  /** The default event `PCBStatus()`: CREATED at time 0 with pid -1. */
  function DefaultStatus(): (e: PCBStatus)
    ensures e.GetRecordedState() == Created && e.GetRecordedCpuTime() == 0 && e.GetPid() == -1
  {
    PCBStatus(Created, 0, -1)
  }
}
