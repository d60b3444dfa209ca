// The processor: holds at most one record, burns one half-tick of its work
// per call, stamps the response time on first use and retires a record whose
// work is done into the finished queue.

module Processor {
  import opened Records
  import opened Containers

  /** One half-tick of work on record p at clock time `now`: the first time
      the record runs, its response time is stamped; the remaining time drops
      by one half-tick; nothing else about the record changes. */
  function Worked(p: PCB, now: int): (q: PCB)
    ensures q.started && q.timeLeft == p.timeLeft - 1
    ensures q.respTime == if p.started then p.respTime else now - 2 * p.arrival
    ensures q.(timeLeft := p.timeLeft, started := p.started, respTime := p.respTime) == p
  {
    var p1 := if !p.started then p.(started := true, respTime := now - 2 * p.arrival) else p;
    p1.(timeLeft := p1.timeLeft - 1)
  }

  /** The part of the simulation the processor touches. */
  datatype CpuState = CpuState(pcb: Option<PCB>, idle: bool, finished: seq<PCB>, log: seq<PCBStatus>)

  /** `CPU::execute` (with `terminate`) as a function of the state before the call. */
  function Executed(s: CpuState, now: int): CpuState {
    match s.pcb
    case None => s
    case Some(p) =>
      var q := Worked(p, now);
      if q.timeLeft <= 0 then
        var done := q.(finishTime := now + 1);
        CpuState(None, true, s.finished + [done], s.log + [PCBStatus(Completed, now + 1, p.pid)])
      else
        CpuState(Some(q), false, s.finished, s.log)
  }

  /** Work on the CPU's record for one half-tick at each of the given times, in order. */
  function RunFor(p: PCB, times: seq<int>): PCB
    decreases |times|
  {
    if times == [] then p else RunFor(Worked(p, times[0]), times[1..])
  }

  /** With no record installed, `execute` changes nothing. */
  lemma ExecutedEmpty(s: CpuState, now: int)
    requires s.pcb.None?
    ensures Executed(s, now) == s
  {
  }

  /** After `execute` on an installed record, the CPU is idle exactly when
      its slot is empty; the record either stays with one half-tick less
      work or is retired, at `now + 1`, to the finished tail with a
      COMPLETED event. */
  lemma ExecutedOutcome(s: CpuState, now: int)
    requires s.pcb.Some?
    ensures var r := Executed(s, now);
      && (r.idle <==> r.pcb.None?)
      && (r.pcb.None? <==> s.pcb.value.timeLeft <= 1)
      && (r.pcb.Some? ==> r.pcb.value == Worked(s.pcb.value, now) && r.finished == s.finished && r.log == s.log)
      && (r.pcb.None? ==>
            && r.finished == s.finished + [Worked(s.pcb.value, now).(finishTime := now + 1)]
            && r.log == s.log + [PCBStatus(Completed, now + 1, s.pcb.value.pid)])
  {
  }

  /** `execute` conserves records: the CPU slot and the finished queue hold
      the same pids before and after. */
  lemma ExecutedConserves(s: CpuState, now: int)
    ensures var r := Executed(s, now);
      SlotPids(r.pcb) + Pids(r.finished) == SlotPids(s.pcb) + Pids(s.finished)
  {
    if s.pcb.Some? {
      var q := Worked(s.pcb.value, now);
      if q.timeLeft <= 0 {
        var done := q.(finishTime := now + 1);
        PidsAppend(s.finished, [done]);
        assert Pids([done]) == multiset{done.pid} by { assert [done][..0] == []; }
      }
    }
  }

  /** The response time is set exactly once: after any non-empty run of
      executions it is the time of the first execution that found the record
      unstarted minus its arrival, and the remaining time has dropped by one
      half-tick per execution. Wait time, context count, priority and I/O
      burst are untouched. */
  lemma {:induction false} RunForSetsResponseOnce(p: PCB, times: seq<int>)
    requires times != []
    ensures var q := RunFor(p, times);
      && q.started
      && q.respTime == (if p.started then p.respTime else times[0] - 2 * p.arrival)
      && q.timeLeft == p.timeLeft - |times|
      && q.(timeLeft := p.timeLeft, started := p.started, respTime := p.respTime) == p
    decreases |times|
  {
    var p1 := Worked(p, times[0]);
    if |times| > 1 {
      RunForSetsResponseOnce(p1, times[1..]);
    } else {
      assert times[1..] == [];
    }
  }

  class CPU {
    var pcb: Option<PCB>
    var idle: bool
    const finishedQueue: DList
    const clock: Clock
    const log: StatusLog

    constructor (fq: DList, cl: Clock, vec: StatusLog)
      ensures pcb == None && idle
      ensures finishedQueue == fq && clock == cl && log == vec
    {
      pcb := None;
      idle := true;
      finishedQueue := fq;
      clock := cl;
      log := vec;
    }

    function State(): CpuState
      reads this, finishedQueue, log
    {
      CpuState(pcb, idle, finishedQueue.items, log.events)
    }

    function GetPcb(): Option<PCB>
      reads this
    {
      pcb
    }

    function IsIdle(): bool
      reads this
    {
      idle
    }

    /** Called once per tick. */
    method Execute()
      modifies this, finishedQueue, log
      ensures State() == Executed(old(State()), clock.time)
    {
      if pcb.Some? {
        idle := false;
        var p := pcb.value;
        if !p.started {
          p := p.(started := true, respTime := clock.time - 2 * p.arrival);
        }
        p := p.(timeLeft := p.timeLeft - 1);
        pcb := Some(p);
        if p.timeLeft <= 0 {
          Terminate();
          idle := true;
        }
      }
    }

    /** Retire the installed record: finish time one half-tick after now,
        a copy at the finished tail, a COMPLETED event, an empty slot. */
    method Terminate()
      requires pcb.Some?
      modifies this, finishedQueue, log
      ensures pcb == None && idle == old(idle)
      ensures finishedQueue.items == old(finishedQueue.items) + [old(pcb.value).(finishTime := clock.time + 1)]
      ensures log.events == old(log.events) + [PCBStatus(Completed, clock.time + 1, old(pcb.value).pid)]
    {
      var p := pcb.value.(finishTime := clock.time + 1);
      finishedQueue.AddEnd(p);
      log.PushBack(PCBStatus(Completed, p.finishTime, p.pid));
      pcb := None;
    }
  }
}
