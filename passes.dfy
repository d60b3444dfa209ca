// The loop of `main` on values: the accounting invariant of the records
// and one pass of the loop as a function of the state it works on.

module Passes {
  import opened Records
  import opened Containers
  import opened Processor
  import opened Schedulers
  import opened Stats
  import opened Generator
  import opened Service

  // ---------------------------------------------------------------------
  // The main loop

  /** Every record the generator has admitted is in exactly one place: the
      ready queue, the blocked queue, the CPU or the finished queue. */
  predicate Conserved(ready: seq<PCB>, blocked: seq<PCB>, slot: Option<PCB>, finished: seq<PCB>, admitted: seq<Record>) {
    Pids(ready) + Pids(blocked) + SlotPids(slot) + Pids(finished) == multiset(RecordPids(admitted))
  }

  /** Admission: the newly admitted lines' PCBs join the ready tail, and
      the count still balances against the longer admitted prefix. */
  lemma AdmissionConserves(ready: seq<PCB>, blocked: seq<PCB>, slot: Option<PCB>, finished: seq<PCB>,
                           input: seq<Record>, a0: nat, a1: nat)
    requires a0 <= a1 <= |input|
    requires Conserved(ready, blocked, slot, finished, input[..a0])
    ensures Conserved(ready + PCBsOf(input[a0..a1]), blocked, slot, finished, input[..a1])
  {
    AdmittedPidsGrow(input, a0, a1);
    PidsAppend(ready, PCBsOf(input[a0..a1]));
  }

  /** A context switch moves records between the ready queue, the CPU and
      the blocked queue without losing any. The blocked queue only grows,
      and it grows exactly when the evicted record still owes I/O. */
  lemma DispatchConserves(s: Switch, next: int, finished: seq<PCB>, admitted: seq<Record>)
    requires 0 <= next < |s.ready|
    requires Conserved(s.ready, s.blocked, s.pcb, finished, admitted) && IoNonNegative(s.blocked)
    ensures var r := Dispatched(s, next);
      && Conserved(r.ready, r.blocked, r.pcb, finished, admitted) && IoNonNegative(r.blocked) && r.pcb.Some?
      && s.blocked <= r.blocked
      && (|r.blocked| > |s.blocked| <==> s.pcb.Some? && s.pcb.value.ioBurst > 0)
      && (forall i :: |s.blocked| <= i < |r.blocked| ==> r.blocked[i].ioBurst > 0)
  {
    DispatchedConserves(s, next);
    DispatchedAccounting(s, next);
  }

  /** One execution step moves at most the running record to the finished
      tail, and leaves the CPU idle exactly when its slot is empty. */
  lemma ExecuteConserves(ready: seq<PCB>, blocked: seq<PCB>, s: CpuState, now: int, admitted: seq<Record>)
    requires Conserved(ready, blocked, s.pcb, s.finished, admitted)
    requires s.pcb.None? ==> s.idle
    ensures var r := Executed(s, now);
      && Conserved(ready, blocked, r.pcb, r.finished, admitted)
      && (r.idle <==> r.pcb.None?)
      && s.finished <= r.finished
  {
    var r := Executed(s, now);
    ExecutedConserves(s, now);
    if s.pcb.Some? {
      ExecutedOutcome(s, now);
    }
    assert Pids(ready) + Pids(blocked) + SlotPids(r.pcb) + Pids(r.finished)
        == Pids(ready) + Pids(blocked) + (SlotPids(s.pcb) + Pids(s.finished));
  }

  /** Serving I/O keeps every record in place: released records move from
      the blocked queue to the ready tail, and the blocked queue stays free
      of negative I/O. */
  lemma ServiceConserves(ready: seq<PCB>, blocked: seq<PCB>, slot: Option<PCB>, finished: seq<PCB>, admitted: seq<Record>)
    requires Conserved(ready, blocked, slot, finished, admitted)
    ensures var still := Drained(Kept(blocked));
      Conserved(ready + Released(blocked), still, slot, finished, admitted) && IoNonNegative(still)
  {
    ReleasedKeptPids(blocked);
    DrainedPids(Kept(blocked));
    PidsAppend(ready, Released(blocked));
    ReleasedKeptSides(blocked);
  }

  /** Accruing wait time on the ready queue moves no record. */
  lemma AccrualConserves(ready: seq<PCB>, blocked: seq<PCB>, slot: Option<PCB>, finished: seq<PCB>, admitted: seq<Record>, inc: int)
    requires Conserved(ready, blocked, slot, finished, admitted)
    ensures Conserved(WithWait(ready, inc), blocked, slot, finished, admitted)
  {
    WithWaitKeepsQueue(ready, inc);
  }

  /** Before anything is admitted, every queue and the CPU are empty. */
  lemma ConservedAtStart(input: seq<Record>)
    ensures Conserved([], [], None, [], input[..0])
  {
    assert input[..0] == [];
    assert PidSeq([]) == [] && RecordPids([]) == [];
  }

  /** Once the queues and the CPU are empty, the finished queue holds the
      pids of the admitted lines, each as often as it was admitted. */
  lemma ConservedAtEnd(finished: seq<PCB>, admitted: seq<Record>)
    requires Conserved([], [], None, finished, admitted)
    ensures Pids(finished) == multiset(RecordPids(admitted))
  {
    assert PidSeq([]) == [];
  }

  /** In a sequence without repeats every element occurs exactly once. */
  lemma {:induction false} DistinctOnce(xs: seq<int>, i: int)
    requires forall a, b :: 0 <= a < b < |xs| ==> xs[a] != xs[b]
    requires 0 <= i < |xs|
    ensures multiset(xs)[xs[i]] == 1
    decreases |xs|
  {
    var init, last := xs[..|xs| - 1], xs[|xs| - 1];
    assert xs == init + [last];
    if i == |xs| - 1 {
      assert last !in init;
      assert last !in multiset(init);
    } else {
      DistinctOnce(init, i);
      assert init[i] == xs[i] != last;
    }
  }

  /** When the whole workload was accepted and has run to completion, every
      workload line's pid is in the finished queue exactly once. */
  lemma FinishedOnce(finished: seq<PCB>, input: seq<Record>)
    requires AllAccepted(input) && Conserved([], [], None, finished, input)
    ensures forall i :: 0 <= i < |input| ==> multiset(PidSeq(finished))[input[i].pid] == 1
  {
    ConservedAtEnd(finished, input);
    AcceptedWellFormed(input);
    var pids := RecordPids(input);
    forall i | 0 <= i < |input|
      ensures multiset(PidSeq(finished))[input[i].pid] == 1
    {
      DistinctOnce(pids, i);
    }
  }

  // ---------------------------------------------------------------------
  // One pass of the loop, on values

  /** Everything a pass of the loop reads or writes outside the generator:
      the three queues, the CPU slot and idle flag, the clock, the lifecycle
      log, the scheduler's timer and index, the pending interrupt and the
      statistics updater's last update. */
  datatype World = World(
    ready: seq<PCB>,
    blocked: seq<PCB>,
    finished: seq<PCB>,
    pcb: Option<PCB>,
    idle: bool,
    now: int,
    log: seq<PCBStatus>,
    timer: int,
    next: int,
    interrupt: bool,
    lastUpdate: int)

  /** `pgen.generate()` having admitted the lines rs: their PCBs join the
      ready tail, each with a CREATED and a READY event at the current time. */
  function WithAdmitted(w: World, rs: seq<Record>): (r: World)
    ensures r.(ready := w.ready, log := w.log) == w
    ensures r.ready == w.ready + PCBsOf(rs) && r.log == w.log + AdmissionEvents(rs, w.now)
  {
    w.(ready := w.ready + PCBsOf(rs), log := w.log + AdmissionEvents(rs, w.now))
  }

  /** `scheduler.execute()`: the timer, the index and the interrupt become
      those of `Decide`; nothing else changes. */
  function Scheduled(w: World, alg: int, timeq: int, rnd: nat): (r: World)
    requires !w.idle ==> w.pcb.Some?
    ensures r.(timer := w.timer, next := w.next, interrupt := w.interrupt) == w
    ensures !w.interrupt ==> (r.interrupt ==> 0 <= r.next < |r.ready|)
  {
    var d := Decide(alg, w.timer, timeq, w.ready, w.pcb, w.idle, rnd);
    w.(timer := d.timer, next := if d.index.Some? then d.index.value else w.next,
       interrupt := w.interrupt || d.interrupt)
  }

  /** `dispatcher.execute()`: a pending interrupt is applied as `Dispatched`
      and cleared; without one nothing changes. The finished queue, the idle
      flag, the timer, the index and the last update are never touched. */
  function Switched(w: World): (r: World)
    requires w.interrupt ==> 0 <= w.next < |w.ready|
    ensures !r.interrupt && (w.interrupt ==> r.pcb.Some?)
    ensures r.finished == w.finished && r.idle == w.idle && r.timer == w.timer
    ensures r.next == w.next && r.lastUpdate == w.lastUpdate
    ensures w.now <= r.now <= w.now + 1
    ensures !w.interrupt ==> r == w
  {
    if !w.interrupt then w
    else
      var s := Dispatched(Switch(w.ready, w.blocked, w.pcb, w.now, w.log), w.next);
      w.(ready := s.ready, blocked := s.blocked, pcb := s.pcb, now := s.now, log := s.log, interrupt := false)
  }

  /** `cpu.execute()`: the slot, the idle flag, the finished queue and the
      log become those of `Executed`; the finished queue only grows. */
  function Ran(w: World): (r: World)
    ensures r.(pcb := w.pcb, idle := w.idle, finished := w.finished, log := w.log) == w
    ensures w.finished <= r.finished && w.log <= r.log
  {
    var c := Executed(CpuState(w.pcb, w.idle, w.finished, w.log), w.now);
    w.(pcb := c.pcb, idle := c.idle, finished := c.finished, log := c.log)
  }

  /** `serveIO(...)`: released records join the ready tail with READY
      events, and the rest stay blocked with half a unit of I/O served. */
  function Served(w: World): (r: World)
    ensures r.(ready := w.ready, blocked := w.blocked, log := w.log) == w
    ensures w.ready <= r.ready && w.log <= r.log
  {
    var out := Released(w.blocked);
    w.(ready := w.ready + out, blocked := Drained(Kept(w.blocked)), log := w.log + ReleaseEvents(out, w.now))
  }

  /** `stats.execute()`: every ready record accrues the time since the last
      update, which becomes now. */
  function Accrued(w: World): (r: World)
    ensures r.(ready := w.ready, lastUpdate := w.lastUpdate) == w
    ensures r.lastUpdate == w.now && PidSeq(r.ready) == PidSeq(w.ready)
  {
    WithWaitKeepsQueue(w.ready, w.now - w.lastUpdate);
    w.(ready := WithWait(w.ready, w.now - w.lastUpdate), lastUpdate := w.now)
  }

  /** `clock.step()`. */
  function Stepped(w: World): (r: World)
    ensures r.(now := w.now) == w && r.now == w.now + 1
  {
    w.(now := w.now + 1)
  }

  /** The loop body of `main` after admission, in its order: schedule,
      dispatch, execute, serve I/O, accrue wait, step the clock. */
  function Pass(w: World, alg: int, timeq: int, rnd: nat): World
    requires !w.interrupt && (!w.idle ==> w.pcb.Some?)
  {
    Stepped(Accrued(Served(Ran(Switched(Scheduled(w, alg, timeq, rnd))))))
  }

  /** Between passes: nothing pending, the CPU idle exactly when its slot
      is empty, every admitted record in exactly one place, and no blocked
      record owing negative I/O. */
  predicate Settled(w: World, admitted: seq<Record>) {
    && !w.interrupt && (w.idle <==> w.pcb.None?)
    && Conserved(w.ready, w.blocked, w.pcb, w.finished, admitted)
    && IoNonNegative(w.blocked)
  }

  /** Every admitted record is in exactly one place and no blocked record
      owes negative I/O. */
  predicate Counts(w: World, admitted: seq<Record>) {
    Conserved(w.ready, w.blocked, w.pcb, w.finished, admitted) && IoNonNegative(w.blocked)
  }

  lemma SwitchedKeeps(s: World, admitted: seq<Record>)
    requires s.interrupt ==> 0 <= s.next < |s.ready|
    requires Counts(s, admitted) && (s.idle <==> s.pcb.None?)
    ensures var d := Switched(s);
      && Counts(d, admitted) && (d.pcb.None? ==> d.idle)
      && s.log <= d.log && (d.now == s.now || d.now == s.now + 1)
      && (d.now == s.now + 1 <==> s.interrupt && s.pcb.Some?)
  {
    if s.interrupt {
      var sw := Switch(s.ready, s.blocked, s.pcb, s.now, s.log);
      DispatchConserves(sw, s.next, s.finished, admitted);
      DispatchedAccounting(sw, s.next);
    }
  }

  lemma RanKeeps(d: World, admitted: seq<Record>)
    requires Counts(d, admitted) && (d.pcb.None? ==> d.idle)
    ensures Counts(Ran(d), admitted) && (Ran(d).idle <==> Ran(d).pcb.None?)
  {
    ExecuteConserves(d.ready, d.blocked, CpuState(d.pcb, d.idle, d.finished, d.log), d.now, admitted);
  }

  lemma ServedKeeps(c: World, admitted: seq<Record>)
    requires Counts(c, admitted)
    ensures Counts(Served(c), admitted)
  {
    ServiceConserves(c.ready, c.blocked, c.pcb, c.finished, admitted);
  }

  lemma AccruedKeeps(v: World, admitted: seq<Record>)
    requires Counts(v, admitted)
    ensures Counts(Accrued(v), admitted)
  {
    AccrualConserves(v.ready, v.blocked, v.pcb, v.finished, admitted, v.now - v.lastUpdate);
  }

  /** A pass keeps every record in exactly one place and the other
      invariants, only extends the finished queue and the log, and moves the
      clock one half-tick, or two when a context switch evicted a record. */
  lemma PassKeepsSettled(w: World, alg: int, timeq: int, rnd: nat, admitted: seq<Record>)
    requires Settled(w, admitted)
    ensures var r := Pass(w, alg, timeq, rnd);
      && Settled(r, admitted)
      && w.finished <= r.finished && w.log <= r.log
      && (r.now == w.now + 1 || r.now == w.now + 2)
      && (r.now == w.now + 2 <==> Scheduled(w, alg, timeq, rnd).interrupt && w.pcb.Some?)
  {
    var s := Scheduled(w, alg, timeq, rnd);
    SwitchedKeeps(s, admitted);
    var d := Switched(s);
    RanKeeps(d, admitted);
    var c := Ran(d);
    ServedKeeps(c, admitted);
    var v := Served(c);
    AccruedKeeps(v, admitted);
    assert Pass(w, alg, timeq, rnd) == Stepped(Accrued(v));
  }

  /** One pass of the loop from the world w with a admitted lines to the
      world w2 with a2 admitted: admission of the lines in between, each
      having arrived by the time of the pass, up to a rejected line, the end
      of the input or the first line still in the future; then, unless a
      rejected line ended the pass, the rest of the pass. */
  ghost predicate Follows(input: seq<Record>, alg: int, timeq: int, w: World, a: nat, w2: World, a2: nat, rnd: nat, failed: bool) {
    && a <= a2 <= |input|
    && (forall i :: a <= i < a2 ==> 2 * input[i].arrival <= w.now)
    && (if failed then a2 < |input| else a2 == |input| || w.now < 2 * input[a2].arrival)
    && var m := WithAdmitted(w, input[a..a2]);
      if failed then w2 == m
      else !m.interrupt && (!m.idle ==> m.pcb.Some?) && w2 == Pass(m, alg, timeq, rnd)
  }

  /** A run of `passes` passes: world k and k admitted lines lead by pass k,
      with the k-th random value, to world k + 1; only the last pass may have
      been cut short by a rejected line. */
  ghost predicate Trace(input: seq<Record>, alg: int, timeq: int, worlds: seq<World>, counts: seq<nat>,
                        rnds: seq<nat>, passes: nat, failed: bool) {
    && |worlds| == |counts| == passes + 1 && passes <= |rnds|
    && forall k :: 0 <= k < passes ==>
         Follows(input, alg, timeq, worlds[k], counts[k], worlds[k + 1], counts[k + 1], rnds[k], k + 1 == passes && failed)
  }

  /** A run that was not cut short extends by one more pass. */
  lemma TraceSnoc(input: seq<Record>, alg: int, timeq: int, worlds: seq<World>, counts: seq<nat>,
                  rnds: seq<nat>, passes: nat, w: World, a: nat, failed: bool)
    requires Trace(input, alg, timeq, worlds, counts, rnds, passes, false) && passes < |rnds|
    requires Follows(input, alg, timeq, worlds[passes], counts[passes], w, a, rnds[passes], failed)
    ensures Trace(input, alg, timeq, worlds + [w], counts + [a], rnds, passes + 1, failed)
  {
    var ws, cs := worlds + [w], counts + [a];
    forall k | 0 <= k < passes + 1
      ensures Follows(input, alg, timeq, ws[k], cs[k], ws[k + 1], cs[k + 1], rnds[k], k + 1 == passes + 1 && failed)
    {
      if k < passes {
        assert ws[k] == worlds[k] && ws[k + 1] == worlds[k + 1] && cs[k] == counts[k] && cs[k + 1] == counts[k + 1];
      }
    }
  }

  lemma FollowsFailed(input: seq<Record>, alg: int, timeq: int, w: World, a: nat, m: World, a2: nat, rnd: nat)
    requires a <= a2 < |input| && m == WithAdmitted(w, input[a..a2])
    requires forall i :: a <= i < a2 ==> 2 * input[i].arrival <= w.now
    ensures Follows(input, alg, timeq, w, a, m, a2, rnd, true)
  {
  }

  lemma FollowsPass(input: seq<Record>, alg: int, timeq: int, w: World, a: nat, m: World, a2: nat, w2: World, rnd: nat)
    requires a <= a2 <= |input| && m == WithAdmitted(w, input[a..a2])
    requires forall i :: a <= i < a2 ==> 2 * input[i].arrival <= w.now
    requires a2 == |input| || w.now < 2 * input[a2].arrival
    requires !m.interrupt && (!m.idle ==> m.pcb.Some?) && w2 == Pass(m, alg, timeq, rnd)
    ensures Follows(input, alg, timeq, w, a, w2, a2, rnd, false)
  {
  }

}
