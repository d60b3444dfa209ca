// The scheduler (five policies choosing a ready-queue index and raising an
// interrupt) and the dispatcher (the context switch that acts on it).
//
// The timer and the quantum are in half-ticks: the quantum `tq` given on the
// command line becomes 2*tq, and one call of the scheduler moves the timer
// down by one half-tick.

module Schedulers {
  import opened Records
  import opened Containers
  import opened Processor

  // The algorithm codes of the command line.
  const FCFS := 0
  const SRTF := 1
  const RR := 2
  const PP := 3
  const PR := 4

  // ---------------------------------------------------------------------
  // The scans of `srtf` and `pp`

  /** The smallest value of a non-empty sequence. */
  function Minimum(s: seq<int>): (m: int)
    requires |s| > 0
    ensures forall j :: 0 <= j < |s| ==> m <= s[j]
    ensures exists j :: 0 <= j < |s| && m == s[j]
    decreases |s|
  {
    if |s| == 1 then s[0]
    else
      var m := Minimum(s[..|s| - 1]);
      assert forall j :: 0 <= j < |s| - 1 ==> s[..|s| - 1][j] == s[j];
      if s[|s| - 1] < m then s[|s| - 1] else m
  }

  /** i is the lowest index holding the minimum of keys. */
  predicate LowestMin(keys: seq<int>, i: int) {
    && 0 <= i < |keys|
    && keys[i] == Minimum(keys)
    && forall j :: 0 <= j < i ==> keys[i] < keys[j]
  }

  /** The scan loop of `srtf` and `pp` from index k on: the pair (best
      value, its index) is replaced only by a strictly smaller value, so ties
      keep the earlier index. */
  function ScanMin(keys: seq<int>, best: int, index: int, k: nat): (r: (int, int))
    requires k <= |keys|
    ensures r.0 <= best
    ensures (r.0 == best && r.1 == index) || (k <= r.1 < |keys| && r.0 == keys[r.1] && r.0 < best)
    decreases |keys| - k
  {
    if k == |keys| then (best, index)
    else if keys[k] < best then ScanMin(keys, keys[k], k, k + 1)
    else ScanMin(keys, best, index, k + 1)
  }

  lemma {:induction false} ScanMinSpec(keys: seq<int>, best: int, index: int, k: nat)
    requires k <= |keys|
    ensures var r := ScanMin(keys, best, index, k);
      if exists j :: k <= j < |keys| && keys[j] < best then
        && k <= r.1 < |keys| && r.0 == keys[r.1] && r.0 < best
        && (forall j :: k <= j < |keys| ==> r.0 <= keys[j])
        && (forall j :: k <= j < r.1 ==> r.0 < keys[j])
      else
        r == (best, index)
    decreases |keys| - k
  {
    if k < |keys| {
      if keys[k] < best {
        ScanMinSpec(keys, keys[k], k, k + 1);
      } else {
        ScanMinSpec(keys, best, index, k + 1);
        assert (exists j :: k <= j < |keys| && keys[j] < best) ==
               (exists j :: k + 1 <= j < |keys| && keys[j] < best);
      }
    }
  }

  /** Started from the head, the scan ends on the lowest index holding the minimum. */
  lemma ScanFromHead(keys: seq<int>)
    requires |keys| > 0
    ensures var r := ScanMin(keys, keys[0], 0, 0); LowestMin(keys, r.1) && r.0 == keys[r.1]
  {
    ScanMinSpec(keys, keys[0], 0, 0);
    var r := ScanMin(keys, keys[0], 0, 0);
    var m := Minimum(keys);
    if exists j :: 0 <= j < |keys| && keys[j] < keys[0] {
      var w :| 0 <= w < |keys| && keys[w] == m;
      assert r.0 <= keys[w];
    } else {
      var w :| 0 <= w < |keys| && keys[w] == m;
      assert keys[0] <= keys[w];
    }
  }

  /** Started from a bound t with index -1, the scan finds an index exactly
      when some key is strictly below t, and then the lowest minimum. */
  lemma ScanBelow(keys: seq<int>, t: int)
    requires |keys| > 0
    ensures var r := ScanMin(keys, t, -1, 0);
      && (r.1 >= 0 <==> Minimum(keys) < t)
      && (r.1 >= 0 ==> LowestMin(keys, r.1))
  {
    ScanMinSpec(keys, t, -1, 0);
    var r := ScanMin(keys, t, -1, 0);
    var m := Minimum(keys);
    var w :| 0 <= w < |keys| && keys[w] == m;
    if r.1 >= 0 {
      assert r.0 <= keys[w];
    }
  }

  function TimeLefts(q: seq<PCB>): (keys: seq<int>)
    ensures |keys| == |q| && forall j :: 0 <= j < |q| ==> keys[j] == q[j].timeLeft
  {
    seq(|q|, j requires 0 <= j < |q| => q[j].timeLeft)
  }

  function Priorities(q: seq<PCB>): (keys: seq<int>)
    ensures |keys| == |q| && forall j :: 0 <= j < |q| ==> keys[j] == q[j].priority
  {
    seq(|q|, j requires 0 <= j < |q| => q[j].priority)
  }

  // ---------------------------------------------------------------------
  // The scheduling decision

  /** The outcome of one scheduler call: the new timer, the value written to
      `next_pcb_index` (None when it is left alone) and whether the
      dispatcher is interrupted. */
  datatype Decision = Decision(timer: int, index: Option<int>, interrupt: bool)

  /** The timer moves down one half-tick per call, only while positive. */
  function Countdown(timer: int): (t: int)
    ensures timer > 0 ==> t == timer - 1
    ensures timer <= 0 ==> t == timer
  {
    if timer > 0 then timer - 1 else timer
  }

  /** The I/O eviction clause of `pp`: the running record still needs I/O
      and the timer (in half-ticks) is at most half the quantum. */
  predicate IoNeeded(timer: int, timeq: int, running: Option<PCB>, idle: bool)
    requires !idle ==> running.Some?
  {
    !idle && running.value.ioBurst > 0 && 2 * timer <= timeq
  }

  /** The policy chosen by `algorithm`, on a non-empty ready queue, with the
      timer already counted down. */
  function Policy(alg: int, timer: int, timeq: int, ready: seq<PCB>, running: Option<PCB>, idle: bool, rnd: nat): Decision
    requires |ready| > 0
    requires !idle ==> running.Some?
  {
    if alg == FCFS then
      Decision(timer, Some(0), idle)
    else if alg == SRTF then
      var keys := TimeLefts(ready);
      var r := if !idle then ScanMin(keys, running.value.timeLeft, -1, 0) else ScanMin(keys, keys[0], 0, 0);
      if r.1 >= 0 then Decision(timer, Some(r.1), true) else Decision(timer, None, false)
    else if alg == RR then
      if idle || timer <= 0 then Decision(timeq, Some(0), true) else Decision(timer, None, false)
    else if alg == PP then
      var keys := Priorities(ready);
      var ioNeeded := IoNeeded(timer, timeq, running, idle);
      var r := ScanMin(keys, keys[0], 0, 0);
      var (lowPrio, lowIndex) :=
        if !idle && !ioNeeded && r.0 > running.value.priority then (running.value.priority, -1) else r;
      if idle || ioNeeded || (lowIndex >= 0 && (timer <= 0 || lowPrio < running.value.priority)) then
        Decision(timeq, Some(lowIndex), true)
      else
        Decision(timer, None, false)
    else if alg == PR then
      if idle || timer <= 0 then Decision(timeq, Some(rnd % |ready|), true) else Decision(timer, None, false)
    else
      Decision(timer, None, false)
  }

  /** `Scheduler::execute`: count the timer down, then run the policy if the
      ready queue is non-empty. Whenever an interrupt is raised the index is
      written and in bounds; the timer either counted down or was reset to
      the quantum by a switch; with an empty ready queue nothing but the
      timer moves. */
  function Decide(alg: int, timer: int, timeq: int, ready: seq<PCB>, running: Option<PCB>, idle: bool, rnd: nat): (d: Decision)
    requires !idle ==> running.Some?
    ensures d.index.Some? ==> 0 <= d.index.value < |ready|
    ensures d.interrupt ==> d.index.Some?
    ensures |ready| == 0 ==> d == Decision(Countdown(timer), None, false)
    ensures d.timer == Countdown(timer) || (d.interrupt && d.timer == timeq)
    ensures timer >= 0 && timeq >= 0 ==> d.timer >= 0
  {
    if |ready| == 0 then Decision(Countdown(timer), None, false)
    else Policy(alg, Countdown(timer), timeq, ready, running, idle, rnd)
  }

  /** FCFS always requests the head, and interrupts only when the CPU is
      idle; the timer only counts down. */
  lemma FcfsChoice(timer: int, timeq: int, ready: seq<PCB>, running: Option<PCB>, idle: bool, rnd: nat)
    requires |ready| > 0 && (!idle ==> running.Some?)
    ensures Decide(FCFS, timer, timeq, ready, running, idle, rnd) == Decision(Countdown(timer), Some(0), idle)
  {
  }

  /** Round robin requests the head when the CPU is idle or the timer has
      run out, and then resets the timer to the quantum; otherwise nothing
      but the countdown happens. */
  lemma RrChoice(timer: int, timeq: int, ready: seq<PCB>, running: Option<PCB>, idle: bool, rnd: nat)
    requires |ready| > 0 && (!idle ==> running.Some?)
    ensures var d := Decide(RR, timer, timeq, ready, running, idle, rnd);
      var t := Countdown(timer);
      && (d.interrupt <==> idle || t <= 0)
      && (d.interrupt ==> d == Decision(timeq, Some(0), true))
      && (!d.interrupt ==> d == Decision(t, None, false))
  {
  }

  /** Preemptive random switches on the same condition as round robin, to
      index `rand() % size`. */
  lemma PrChoice(timer: int, timeq: int, ready: seq<PCB>, running: Option<PCB>, idle: bool, rnd: nat)
    requires |ready| > 0 && (!idle ==> running.Some?)
    ensures var d := Decide(PR, timer, timeq, ready, running, idle, rnd);
      var t := Countdown(timer);
      && (d.interrupt <==> idle || t <= 0)
      && (d.interrupt ==> d == Decision(timeq, Some(rnd % |ready|), true))
      && (!d.interrupt ==> d == Decision(t, None, false))
  {
  }

  /** An algorithm code outside 0..4 makes no decision: only the timer moves. */
  lemma UnknownAlgorithm(alg: int, timer: int, timeq: int, ready: seq<PCB>, running: Option<PCB>, idle: bool, rnd: nat)
    requires alg !in {FCFS, SRTF, RR, PP, PR} && (!idle ==> running.Some?)
    ensures Decide(alg, timer, timeq, ready, running, idle, rnd) == Decision(Countdown(timer), None, false)
  {
  }

  /** SRTF: with an idle CPU it always switches, to the lowest index holding
      the minimum remaining time; with a busy CPU it switches exactly when
      that minimum is strictly below the running record's remaining time.
      The timer only counts down. */
  lemma SrtfChoice(timer: int, timeq: int, ready: seq<PCB>, running: Option<PCB>, idle: bool, rnd: nat)
    requires |ready| > 0 && (!idle ==> running.Some?)
    ensures var d := Decide(SRTF, timer, timeq, ready, running, idle, rnd);
      && d.timer == Countdown(timer)
      && (d.interrupt <==> idle || Minimum(TimeLefts(ready)) < running.value.timeLeft)
      && (d.interrupt ==> LowestMin(TimeLefts(ready), d.index.value))
      && (!d.interrupt ==> d.index.None?)
  {
    var keys := TimeLefts(ready);
    if idle {
      ScanFromHead(keys);
    } else {
      ScanBelow(keys, running.value.timeLeft);
    }
  }

  /** Preemptive priority: the candidate is the lowest index holding the best
      (smallest) priority. It switches exactly when the CPU is idle, or the
      I/O clause holds, or the best priority is strictly better than the
      running one, or equal to it with the timer run out; every switch resets
      the timer to the quantum. */
  lemma PpChoice(timer: int, timeq: int, ready: seq<PCB>, running: Option<PCB>, idle: bool, rnd: nat)
    requires |ready| > 0 && (!idle ==> running.Some?)
    ensures var d := Decide(PP, timer, timeq, ready, running, idle, rnd);
      var t := Countdown(timer);
      var best := Minimum(Priorities(ready));
      && (d.interrupt <==>
            || idle
            || IoNeeded(t, timeq, running, idle)
            || best < running.value.priority
            || (best == running.value.priority && t <= 0))
      && (d.interrupt ==> LowestMin(Priorities(ready), d.index.value) && d.timer == timeq)
      && (!d.interrupt ==> d.timer == t && d.index.None?)
  {
    ScanFromHead(Priorities(ready));
  }

  /** Preemptive priority never moves to a worse priority than the running
      one except through the I/O clause. */
  lemma PpNeverWorse(timer: int, timeq: int, ready: seq<PCB>, running: Option<PCB>, idle: bool, rnd: nat)
    requires |ready| > 0 && !idle && running.Some?
    requires !IoNeeded(Countdown(timer), timeq, running, idle)
    ensures var d := Decide(PP, timer, timeq, ready, running, idle, rnd);
      d.interrupt ==> ready[d.index.value].priority <= running.value.priority
  {
    PpChoice(timer, timeq, ready, running, idle, rnd);
  }

  // ---------------------------------------------------------------------
  // The context switch

  /** The part of the simulation the dispatcher touches. */
  datatype Switch = Switch(ready: seq<PCB>, blocked: seq<PCB>, pcb: Option<PCB>, now: int, log: seq<PCBStatus>)

  /** `Dispatcher::execute` when an interrupt is pending for index `next`. */
  function Dispatched(s: Switch, next: int): Switch
    requires 0 <= next < |s.ready|
  {
    var incoming := s.ready[next];
    var rest := s.ready[..next] + s.ready[next + 1..];
    match s.pcb
    case None =>
      Switch(rest, s.blocked, Some(incoming), s.now, s.log + [PCBStatus(InRunningQueue, s.now, incoming.pid)])
    case Some(out) =>
      var evicted := out.(numContext := out.numContext + 1);
      var running := incoming.(waitTime := incoming.waitTime + 1);
      var t := s.now + 1;
      if out.ioBurst > 0 then
        Switch(rest, s.blocked + [evicted], Some(running), t,
               s.log + [PCBStatus(InBlockedQueue, t, out.pid), PCBStatus(InRunningQueue, t, incoming.pid)])
      else
        Switch(rest + [evicted], s.blocked, Some(running), t,
               s.log + [PCBStatus(InReadyQueue, t, out.pid), PCBStatus(InRunningQueue, t, incoming.pid)])
  }

  /** A dispatch conserves records: the pids held by the ready queue, the
      blocked queue and the CPU slot are the same multiset before and after. */
  lemma DispatchedConserves(s: Switch, next: int)
    requires 0 <= next < |s.ready|
    ensures var r := Dispatched(s, next);
      Pids(r.ready) + Pids(r.blocked) + SlotPids(r.pcb) == Pids(s.ready) + Pids(s.blocked) + SlotPids(s.pcb)
  {
    var r := Dispatched(s, next);
    var rest := s.ready[..next] + s.ready[next + 1..];
    PidsRemoveAt(s.ready, next);
    assert SlotPids(r.pcb) == multiset{s.ready[next].pid};
    if s.pcb.Some? {
      var evicted := s.pcb.value.(numContext := s.pcb.value.numContext + 1);
      if s.pcb.value.ioBurst > 0 {
        assert r.ready == rest && r.blocked == s.blocked + [evicted];
        PidsSnoc(s.blocked, evicted);
      } else {
        assert r.ready == rest + [evicted] && r.blocked == s.blocked;
        PidsSnoc(rest, evicted);
      }
    } else {
      assert r.ready == rest && r.blocked == s.blocked;
    }
  }

  /** What a dispatch does: the candidate leaves the ready queue and runs.
      If the CPU held a record, that record's context count rises by one,
      it goes to the tail of the blocked queue when it still needs I/O and
      to the ready tail otherwise, with a BLOCKED or READY event; the
      incoming record is charged one half-tick of wait and the clock moves
      one half-tick. A RUNNING event is always logged, at the new time. */
  lemma DispatchedAccounting(s: Switch, next: int)
    requires 0 <= next < |s.ready|
    ensures var r := Dispatched(s, next);
      var incoming := s.ready[next];
      var rest := s.ready[..next] + s.ready[next + 1..];
      && r.pcb.Some? && r.pcb.value.pid == incoming.pid
      && (s.pcb.None? ==>
            r == Switch(rest, s.blocked, Some(incoming), s.now, s.log + [PCBStatus(InRunningQueue, s.now, incoming.pid)]))
      && (s.pcb.Some? ==>
            var out := s.pcb.value;
            var evicted := out.(numContext := out.numContext + 1);
            && r.now == s.now + 1
            && r.pcb.value == incoming.(waitTime := incoming.waitTime + 1)
            && (out.ioBurst > 0 ==>
                  (&& r.ready == rest && r.blocked == s.blocked + [evicted]
                   && r.log == s.log + [PCBStatus(InBlockedQueue, r.now, out.pid), PCBStatus(InRunningQueue, r.now, incoming.pid)]))
            && (out.ioBurst <= 0 ==>
                  (&& r.ready == rest + [evicted] && r.blocked == s.blocked
                   && r.log == s.log + [PCBStatus(InReadyQueue, r.now, out.pid), PCBStatus(InRunningQueue, r.now, incoming.pid)])))
  {
  }

  // ---------------------------------------------------------------------
  // The two components

  class Scheduler {
    var nextPcbIndex: int
    const readyQueue: DList
    const cpu: CPU
    var dispatcher: Dispatcher?
    const algorithm: int
    const timeq: int
    var timer: int

    /** The constructor used by the simulator (`Scheduler(rq, cp, alg, tq, status)`):
        the timer starts at the quantum. */
    constructor (rq: DList, cp: CPU, alg: int, tq: int)
      ensures readyQueue == rq && cpu == cp && algorithm == alg
      ensures dispatcher == null && nextPcbIndex == -1
      ensures timeq == 2 * tq && timer == 2 * tq
    {
      readyQueue := rq;
      cpu := cp;
      dispatcher := null;
      nextPcbIndex := -1;
      algorithm := alg;
      timeq := 2 * tq;
      timer := 2 * tq;
    }

    /** The dispatcher can be set only once. */
    method SetDispatcher(disp: Dispatcher)
      modifies this
      ensures dispatcher == if old(dispatcher) == null then disp else old(dispatcher)
      ensures nextPcbIndex == old(nextPcbIndex) && timer == old(timer)
    {
      if dispatcher == null {
        dispatcher := disp;
      }
    }

    function GetNext(): int
      reads this
    {
      nextPcbIndex
    }

    /** Called once per tick; `rnd` stands for the value `rand()` returns. */
    method Execute(rnd: nat)
      requires dispatcher != null
      requires !cpu.idle ==> cpu.pcb.Some?
      modifies this, dispatcher
      ensures dispatcher == old(dispatcher)
      ensures var d := Decide(algorithm, old(timer), timeq, readyQueue.items, cpu.pcb, cpu.idle, rnd);
        && timer == d.timer
        && nextPcbIndex == (if d.index.Some? then d.index.value else old(nextPcbIndex))
        && dispatcher.interrupt == (old(dispatcher.interrupt) || d.interrupt)
    {
      if timer > 0 {
        timer := timer - 1;
      }
      if readyQueue.Size() > 0 {
        if algorithm == FCFS {
          Fcfs();
        } else if algorithm == SRTF {
          Srtf();
        } else if algorithm == RR {
          Rr();
        } else if algorithm == PP {
          Pp();
        } else if algorithm == PR {
          Pr(rnd);
        }
      }
    }

    /** Shared postcondition of the five policies, with the timer already counted down. */
    twostate predicate Applied(alg: int, rnd: nat)
      reads this, dispatcher, readyQueue, cpu
      requires |readyQueue.items| > 0 && (!cpu.idle ==> cpu.pcb.Some?)
      requires old(dispatcher) != null && dispatcher == old(dispatcher)
    {
      var d := Policy(alg, old(timer), timeq, readyQueue.items, cpu.pcb, cpu.idle, rnd);
      && timer == d.timer
      && nextPcbIndex == (if d.index.Some? then d.index.value else old(nextPcbIndex))
      && dispatcher.interrupt == (old(dispatcher.interrupt) || d.interrupt)
    }

    method Fcfs()
      requires dispatcher != null && |readyQueue.items| > 0 && (!cpu.idle ==> cpu.pcb.Some?)
      modifies this, dispatcher
      ensures dispatcher == old(dispatcher) && Applied(FCFS, 0)
    {
      nextPcbIndex := 0;
      if cpu.IsIdle() {
        dispatcher.Interrupt();
      }
    }

    method Srtf()
      requires dispatcher != null && |readyQueue.items| > 0 && (!cpu.idle ==> cpu.pcb.Some?)
      modifies this, dispatcher
      ensures dispatcher == old(dispatcher) && Applied(SRTF, 0)
    {
      var q := readyQueue.items;
      ghost var keys := TimeLefts(q);
      var shortTime: int;
      var shortIndex := -1;
      if !cpu.IsIdle() {
        shortTime := cpu.GetPcb().value.timeLeft;
      } else {
        shortTime := q[0].timeLeft;
        shortIndex := 0;
      }
      ghost var start := ScanMin(keys, shortTime, shortIndex, 0);
      var index := 0;
      while index < |q|
        invariant 0 <= index <= |q|
        invariant ScanMin(keys, shortTime, shortIndex, index) == start
      {
        if q[index].timeLeft < shortTime {
          shortIndex := index;
          shortTime := q[index].timeLeft;
        }
        index := index + 1;
      }
      if shortIndex >= 0 {
        nextPcbIndex := shortIndex;
        dispatcher.Interrupt();
      }
    }

    method Rr()
      requires dispatcher != null && |readyQueue.items| > 0 && (!cpu.idle ==> cpu.pcb.Some?)
      modifies this, dispatcher
      ensures dispatcher == old(dispatcher) && Applied(RR, 0)
    {
      if cpu.IsIdle() || timer <= 0 {
        timer := timeq;
        nextPcbIndex := 0;
        dispatcher.Interrupt();
      }
    }

    method Pp()
      requires dispatcher != null && |readyQueue.items| > 0 && (!cpu.idle ==> cpu.pcb.Some?)
      modifies this, dispatcher
      ensures dispatcher == old(dispatcher) && Applied(PP, 0)
    {
      var q := readyQueue.items;
      ghost var keys := Priorities(q);
      var isIONeeded := !cpu.IsIdle() && cpu.GetPcb().value.ioBurst > 0 && 2 * timer <= timeq;
      var lowPrio := q[0].priority;
      var lowIndex := 0;
      var index := 0;
      while index < |q|
        invariant 0 <= index <= |q|
        invariant ScanMin(keys, lowPrio, lowIndex, index) == ScanMin(keys, keys[0], 0, 0)
      {
        var tempPrio := q[index].priority;
        if tempPrio < lowPrio {
          lowPrio := tempPrio;
          lowIndex := index;
        }
        index := index + 1;
      }
      if !cpu.IsIdle() && !isIONeeded && lowPrio > cpu.GetPcb().value.priority {
        lowPrio := cpu.GetPcb().value.priority;
        lowIndex := -1;
      }
      if cpu.IsIdle() || isIONeeded || (lowIndex >= 0 && (timer <= 0 || lowPrio < cpu.GetPcb().value.priority)) {
        timer := timeq;
        nextPcbIndex := lowIndex;
        dispatcher.Interrupt();
      }
    }

    method Pr(rnd: nat)
      requires dispatcher != null && |readyQueue.items| > 0 && (!cpu.idle ==> cpu.pcb.Some?)
      modifies this, dispatcher
      ensures dispatcher == old(dispatcher) && Applied(PR, rnd)
    {
      if cpu.IsIdle() || timer <= 0 {
        timer := timeq;
        var maxIndex := readyQueue.Size();
        nextPcbIndex := rnd % maxIndex;
        dispatcher.Interrupt();
      }
    }
  }

  class Dispatcher {
    const cpu: CPU
    const scheduler: Scheduler
    const readyQueue: DList
    const clock: Clock
    var interrupt: bool
    const blockedQueue: DList
    const log: StatusLog

    constructor (cp: CPU, sch: Scheduler, rq: DList, cl: Clock, bq: DList, vec: StatusLog)
      ensures cpu == cp && scheduler == sch && readyQueue == rq && clock == cl
      ensures blockedQueue == bq && log == vec && !interrupt
    {
      cpu := cp;
      scheduler := sch;
      readyQueue := rq;
      clock := cl;
      interrupt := false;
      blockedQueue := bq;
      log := vec;
    }

    function Snap(): Switch
      reads cpu, readyQueue, blockedQueue, clock, log
    {
      Switch(readyQueue.items, blockedQueue.items, cpu.pcb, clock.time, log.events)
    }

    /** The scheduler's request. */
    method Interrupt()
      modifies this
      ensures interrupt
    {
      interrupt := true;
    }

    /** Take the requested record out of the ready queue and install it;
        return the record the CPU held before. (The source's index argument
        is never read: it asks the scheduler again.) */
    method SwitchContext() returns (oldPcb: Option<PCB>)
      requires 0 <= scheduler.nextPcbIndex < |readyQueue.items|
      modifies cpu, readyQueue
      ensures oldPcb == old(cpu.pcb)
      ensures var i := scheduler.nextPcbIndex;
        && cpu.pcb == Some(old(readyQueue.items)[i])
        && readyQueue.items == old(readyQueue.items)[..i] + old(readyQueue.items)[i + 1..]
      ensures cpu.idle == old(cpu.idle)
    {
      oldPcb := cpu.pcb;
      var newPcb := readyQueue.RemoveIndex(scheduler.GetNext());
      cpu.pcb := Some(newPcb);
    }

    /** Called once per tick: apply a pending interrupt as a context switch. */
    method Execute()
      requires readyQueue != blockedQueue
      requires interrupt ==> 0 <= scheduler.nextPcbIndex < |readyQueue.items|
      modifies this, cpu, readyQueue, blockedQueue, clock, log
      ensures !interrupt && cpu.idle == old(cpu.idle)
      ensures old(interrupt) ==> Snap() == Dispatched(old(Snap()), scheduler.nextPcbIndex)
      ensures !old(interrupt) ==> Snap() == old(Snap())
    {
      if interrupt {
        var oldPcb := SwitchContext();
        if oldPcb.Some? {
          var evicted := oldPcb.value.(numContext := oldPcb.value.numContext + 1);
          var running := cpu.pcb.value;
          cpu.pcb := Some(running.(waitTime := running.waitTime + 1));
          clock.Step();
          if evicted.ioBurst > 0 {
            log.PushBack(PCBStatus(InBlockedQueue, clock.time, evicted.pid));
            blockedQueue.AddEnd(evicted);
          } else {
            log.PushBack(PCBStatus(InReadyQueue, clock.time, evicted.pid));
            readyQueue.AddEnd(evicted);
          }
        }
        log.PushBack(PCBStatus(InRunningQueue, clock.time, cpu.pcb.value.pid));
        interrupt := false;
      }
    }
  }
}
