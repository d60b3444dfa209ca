// The simulation driver: the per-tick loop that runs generator, scheduler,
// dispatcher, CPU, I/O service and statistics in a fixed order until no
// work is left.

module Simulation {
  import opened Records
  import opened Containers
  import opened Processor
  import opened Schedulers
  import opened Stats
  import opened Generator
  import opened Service
  import opened Passes

  /** The three queues, the lifecycle vector and the clock of `main`, empty. */
  method NewShared() returns (rq: DList, fq: DList, bq: DList, vec: StatusLog, cl: Clock)
    ensures fresh(rq) && fresh(fq) && fresh(bq) && fresh(vec) && fresh(cl)
    ensures rq != fq && rq != bq && fq != bq
    ensures rq.items == [] && fq.items == [] && bq.items == [] && vec.events == [] && cl.time == 0
  {
    rq := new DList();
    fq := new DList();
    bq := new DList();
    vec := new StatusLog();
    cl := new Clock();
  }

  /** The statistics updater, CPU, scheduler and dispatcher of `main`, wired
      to the shared queues, vector and clock, the scheduler knowing its
      dispatcher. */
  method NewComponents(rq: DList, fq: DList, bq: DList, vec: StatusLog, cl: Clock, algorithm: int, timeq: int)
    returns (st: StatUpdater, cp: CPU, sch: Scheduler, disp: Dispatcher)
    ensures fresh(st) && fresh(cp) && fresh(sch) && fresh(disp)
    ensures st.readyQueue == rq && st.finishedQueue == fq && st.clock == cl && st.log == vec
    ensures cp.finishedQueue == fq && cp.clock == cl && cp.log == vec && cp.idle && cp.pcb == None
    ensures sch.readyQueue == rq && sch.cpu == cp && sch.dispatcher == disp
    ensures sch.algorithm == algorithm && sch.timeq == 2 * timeq
    ensures disp.cpu == cp && disp.scheduler == sch && disp.readyQueue == rq && disp.clock == cl
    ensures disp.blockedQueue == bq && disp.log == vec && !disp.interrupt
  {
    st := new StatUpdater(rq, fq, cl, algorithm, timeq, vec);
    cp := new CPU(fq, cl, vec);
    sch := new Scheduler(rq, cp, algorithm, timeq);
    disp := new Dispatcher(cp, sch, rq, cl, bq, vec);
    sch.SetDispatcher(disp);
  }

  /** The records of the simulation and the components that share them, as
      `main` wires them together. */
  class Simulator {
    const readyQueue: DList
    const finishedQueue: DList
    const blockedQueue: DList
    const log: StatusLog
    const clock: Clock
    const gen: PCBGenerator
    const stats: StatUpdater
    const cpu: CPU
    const scheduler: Scheduler
    const dispatcher: Dispatcher
    ghost var Repr: set<object>

    /** Every component holds the shared queues, clock and log. */
    ghost predicate Wired()
      reads scheduler
    {
      && readyQueue != finishedQueue && readyQueue != blockedQueue && finishedQueue != blockedQueue
      && gen.readyQueue == readyQueue && gen.clock == clock && gen.log == log
      && stats.readyQueue == readyQueue && stats.finishedQueue == finishedQueue && stats.clock == clock && stats.log == log
      && cpu.finishedQueue == finishedQueue && cpu.clock == clock && cpu.log == log
      && scheduler.readyQueue == readyQueue && scheduler.cpu == cpu && scheduler.dispatcher == dispatcher
      && dispatcher.cpu == cpu && dispatcher.scheduler == scheduler && dispatcher.readyQueue == readyQueue
      && dispatcher.clock == clock && dispatcher.blockedQueue == blockedQueue && dispatcher.log == log
    }

    /** The objects of the simulation outside the generator. */
    ghost function Shared(): set<object> {
      {this, readyQueue, finishedQueue, blockedQueue, log, clock, stats, cpu, scheduler, dispatcher}
    }

    /** The wiring holds, the footprint is tracked and the generator is in
        a consistent state. */
    ghost predicate Links()
      reads this, Repr
    {
      && this in Repr && gen in Repr && Shared() <= Repr && gen.Repr <= Repr
      && Wired()
      && this !in gen.Repr && readyQueue !in gen.Repr && finishedQueue !in gen.Repr && blockedQueue !in gen.Repr
      && log !in gen.Repr && clock !in gen.Repr && stats !in gen.Repr && cpu !in gen.Repr
      && scheduler !in gen.Repr && dispatcher !in gen.Repr
      && gen.Valid()
    }

    /** Between the components' turns: linked, and no interrupt is pending. */
    ghost predicate Frame()
      reads this, Repr
    {
      Links() && !dispatcher.interrupt
    }

    /** No blocked record owes a negative amount of I/O, and every admitted
        record is in exactly one place. */
    ghost predicate Counted()
      reads this, Repr
      requires Links()
    {
      && IoNonNegative(blockedQueue.items)
      && Conserved(readyQueue.items, blockedQueue.items, cpu.pcb, finishedQueue.items, gen.input[..gen.Admitted()])
    }

    /** Between ticks: the frame and the counts hold, and the CPU is idle
        exactly when its slot is empty. */
    ghost predicate Valid()
      reads this, Repr
    {
      Frame() && Counted() && (cpu.idle <==> cpu.pcb.None?)
    }

    /** `main`: build the queues, the clock and the components, and read the
        first workload line. The quantum is used only by round robin and
        the two preemptive policies; the others get -1. */
    constructor (workload: seq<Record>, algorithm: int, tq: int)
      requires forall i :: 0 <= i < |workload| ==> workload[i].pid >= 0
      ensures Valid()
      ensures gen.input == workload && gen.Admitted() == 0
      ensures readyQueue.items == [] && blockedQueue.items == [] && finishedQueue.items == [] && log.events == []
      ensures clock.time == 0 && cpu.idle && scheduler.algorithm == algorithm
      ensures scheduler.timeq == 2 * (if algorithm == RR || algorithm == PP || algorithm == PR then tq else -1)
    {
      var timeq := if algorithm == RR || algorithm == PP || algorithm == PR then tq else -1;
      var rq, fq, bq, vec, cl := NewShared();
      var st, cp, sch, disp := NewComponents(rq, fq, bq, vec, cl, algorithm, timeq);
      var pgen := new PCBGenerator(workload, rq, cl, vec);
      readyQueue := rq;
      finishedQueue := fq;
      blockedQueue := bq;
      log := vec;
      clock := cl;
      gen := pgen;
      stats := st;
      cpu := cp;
      scheduler := sch;
      dispatcher := disp;
      new;
      Repr := Shared() + gen.Repr;
      ConservedAtStart(workload);
    }

    /** The loop condition of `main`, negated: nothing left to generate,
        nothing ready, nothing blocked and the CPU idle. */
    predicate Done()
      reads this, gen, readyQueue, cpu, blockedQueue
    {
      gen.Finished() && readyQueue.Size() == 0 && cpu.IsIdle() && blockedQueue.Size() == 0
    }

    /** The state a pass works on, outside the generator. */
    function Snapshot(): World
      reads this, readyQueue, blockedQueue, finishedQueue, cpu, clock, log, scheduler, dispatcher, stats
    {
      World(readyQueue.items, blockedQueue.items, finishedQueue.items, cpu.pcb, cpu.idle, clock.time,
            log.events, scheduler.timer, scheduler.nextPcbIndex, dispatcher.interrupt, stats.lastUpdate)
    }

    /** Where admission stopped: every line admitted in this call had arrived
        by `now`, and a line still pending has not. */
    ghost predicate AdmissionStopped(a0: nat, now: int)
      reads this, gen
    {
      && a0 <= gen.Admitted() <= |gen.input|
      && (forall i :: a0 <= i < gen.Admitted() ==> 2 * gen.input[i].arrival <= now)
      && (!gen.finished && !gen.error ==> gen.Admitted() < |gen.input| && now < 2 * gen.input[gen.Admitted()].arrival)
    }
  
    /** One pass of the loop body of `main`, in its order: generate,
        schedule, dispatch, execute, serve I/O, update statistics, step the
        clock. A rejected workload line ends the pass (and the run) at once,
        as the exception it stands for does. `rnd` is the value `rand()`
        returns to the random policy in this pass. */
    method Tick(rnd: nat)
      requires Valid()
      modifies Repr
      ensures Valid() && fresh(Repr - old(Repr))
      ensures Follows(gen.input, scheduler.algorithm, scheduler.timeq, old(Snapshot()), old(gen.Admitted()),
                      Snapshot(), gen.Admitted(), rnd, gen.error)
      ensures !gen.error ==> clock.time > old(clock.time)
      ensures old(finishedQueue.items) <= finishedQueue.items
    {
      ghost var w0, a0 := Snapshot(), gen.Admitted();
      GenerateStep();
      if gen.error {
        FollowsFailed(gen.input, scheduler.algorithm, scheduler.timeq, w0, a0, Snapshot(), gen.Admitted(), rnd);
        return;
      }
      FinishPass(rnd, w0, a0);
    }

    /** The pass after admission, tied to the world before it. */
    method FinishPass(rnd: nat, ghost w0: World, ghost a0: nat)
      requires Valid() && !gen.error && a0 <= gen.Admitted() <= |gen.input|
      requires Snapshot() == WithAdmitted(w0, gen.input[a0..gen.Admitted()])
      requires forall i :: a0 <= i < gen.Admitted() ==> 2 * gen.input[i].arrival <= w0.now
      requires gen.Admitted() == |gen.input| || w0.now < 2 * gen.input[gen.Admitted()].arrival
      modifies scheduler, dispatcher, cpu, readyQueue, blockedQueue, finishedQueue, clock, log, stats
      ensures Valid() && Repr == old(Repr)
      ensures Follows(gen.input, scheduler.algorithm, scheduler.timeq, w0, a0, Snapshot(), gen.Admitted(), rnd, gen.error)
      ensures clock.time > old(clock.time) && old(finishedQueue.items) <= finishedQueue.items
    {
      ghost var m := Snapshot();
      PassStep(rnd);
      FollowsPass(gen.input, scheduler.algorithm, scheduler.timeq, w0, a0, m, gen.Admitted(), Snapshot(), rnd);
    }

    /** The rest of a pass after admission, in the order of `main`:
        schedule, dispatch, execute, serve I/O, update statistics, step the
        clock. */
    method PassStep(rnd: nat)
      requires Valid()
      modifies scheduler, dispatcher, cpu, readyQueue, blockedQueue, finishedQueue, clock, log, stats
      ensures Valid() && Repr == old(Repr)
      ensures old(!dispatcher.interrupt && (!cpu.idle ==> cpu.pcb.Some?))
      ensures Snapshot() == Pass(old(Snapshot()), scheduler.algorithm, scheduler.timeq, rnd)
    {
      DispatchStep(rnd);
      CpuStep();
      IoStep();
      AccountStep();
    }

    /** The program after its set-up: the loop of `main`, then, when it
        stopped because the work is done, every workload line has been
        admitted and each has reached the finished queue exactly once. */
    method Run(rnds: seq<nat>) returns (passes: nat, ghost worlds: seq<World>, ghost counts: seq<nat>)
      requires Valid()
      modifies Repr
      ensures Valid() && fresh(Repr - old(Repr))
      ensures passes <= |rnds|
      ensures Trace(gen.input, scheduler.algorithm, scheduler.timeq, worlds, counts, rnds, passes, gen.error)
      ensures worlds[0] == old(Snapshot()) && counts[0] == old(gen.Admitted())
      ensures worlds[passes] == Snapshot() && counts[passes] == gen.Admitted()
      ensures !Done() && !gen.error ==> passes == |rnds|
      ensures Done() ==> gen.Admitted() == |gen.input| && Pids(finishedQueue.items) == multiset(RecordPids(gen.input))
      ensures Done() ==> forall i :: 0 <= i < |gen.input| ==> multiset(PidSeq(finishedQueue.items))[gen.input[i].pid] == 1
    {
      passes, worlds, counts := Loop(rnds);
      if Done() {
        Completed();
      }
    }

    /** The loop of `main`: pass after pass until nothing is left to do,
        the workload has a rejected line, or the values `rand()` returns
        run out (one per pass). The trace records the state before and
        after every pass. */
    method Loop(rnds: seq<nat>) returns (passes: nat, ghost worlds: seq<World>, ghost counts: seq<nat>)
      requires Valid()
      modifies Repr
      ensures Valid() && fresh(Repr - old(Repr))
      ensures passes <= |rnds|
      ensures Trace(gen.input, scheduler.algorithm, scheduler.timeq, worlds, counts, rnds, passes, gen.error)
      ensures worlds[0] == old(Snapshot()) && counts[0] == old(gen.Admitted())
      ensures worlds[passes] == Snapshot() && counts[passes] == gen.Admitted()
      ensures !Done() && !gen.error ==> passes == |rnds|
    {
      passes := 0;
      ghost var w0, a0 := Snapshot(), gen.Admitted();
      worlds, counts := [w0], [a0];
      while !Done() && !gen.error && passes < |rnds|
        invariant fresh(Repr - old(Repr)) && Traced(rnds, passes, worlds, counts, w0, a0)
        decreases |rnds| - passes
      {
        passes, worlds, counts := TracedTick(rnds, passes, worlds, counts, w0, a0);
      }
    }

    /** The loop of `main` so far: valid, `passes` passes recorded from the
        starting world `w0` with `a0` lines admitted, the last entry being
        the current state (spelled out field by field as `Snapshot` builds
        it). */
    ghost predicate Traced(rnds: seq<nat>, passes: nat, worlds: seq<World>, counts: seq<nat>, w0: World, a0: nat)
      reads this, Repr, Shared()
    {
      && Valid() && passes <= |rnds|
      && Trace(gen.input, scheduler.algorithm, scheduler.timeq, worlds, counts, rnds, passes, gen.error)
      && worlds[0] == w0 && counts[0] == a0
      && worlds[passes] == World(readyQueue.items, blockedQueue.items, finishedQueue.items, cpu.pcb, cpu.idle,
                                 clock.time, log.events, scheduler.timer, scheduler.nextPcbIndex,
                                 dispatcher.interrupt, stats.lastUpdate)
      && counts[passes] == gen.Admitted()
    }

    /** One more pass of a run that has not been cut short, recorded at the
        end of its trace. */
    method TracedTick(rnds: seq<nat>, passes: nat, ghost worlds: seq<World>, ghost counts: seq<nat>, ghost w0: World, ghost a0: nat)
      returns (passes': nat, ghost worlds': seq<World>, ghost counts': seq<nat>)
      requires Traced(rnds, passes, worlds, counts, w0, a0) && passes < |rnds| && !gen.error
      modifies Repr
      ensures fresh(Repr - old(Repr)) && passes' == passes + 1 && Traced(rnds, passes', worlds', counts', w0, a0)
    {
      Tick(rnds[passes]);
      TraceSnoc(gen.input, scheduler.algorithm, scheduler.timeq, worlds, counts, rnds, passes, Snapshot(), gen.Admitted(), gen.error);
      passes', worlds', counts' := passes + 1, worlds + [Snapshot()], counts + [gen.Admitted()];
    }

    /** Once the loop of `main` stops because the work is done, every
        workload line has been admitted and each has reached the finished
        queue exactly once. */
    method Completed()
      requires Valid() && Done()
      ensures gen.Admitted() == |gen.input| && Pids(finishedQueue.items) == multiset(RecordPids(gen.input))
      ensures forall i :: 0 <= i < |gen.input| ==> multiset(PidSeq(finishedQueue.items))[gen.input[i].pid] == 1
    {
      assert gen.input[..gen.Admitted()] == gen.input;
      FinishedOnce(finishedQueue.items, gen.input);
    }

    /** `pgen.generate()`: the admitted lines join the ready tail. */
    method GenerateStep()
      requires Valid()
      modifies Repr
      ensures Valid() && fresh(Repr - old(Repr))
      ensures AdmissionStopped(old(gen.Admitted()), clock.time)
      ensures Snapshot() == WithAdmitted(old(Snapshot()), gen.input[old(gen.Admitted())..gen.Admitted()])
      ensures old(gen.finished) || old(gen.error) ==>
        gen.Admitted() == old(gen.Admitted()) && gen.finished == old(gen.finished) && gen.error == old(gen.error)
    {
      ghost var a0 := gen.Admitted();
      ghost var ready := readyQueue.items;
      gen.Generate();
      Repr := Repr + gen.Repr;
      AdmissionConserves(ready, blockedQueue.items, cpu.pcb, finishedQueue.items, gen.input, a0, gen.Admitted());
    }

    /** `scheduler.execute()` then `dispatcher.execute()`: the policy may
        request a switch, which the dispatcher then performs. */
    method DispatchStep(rnd: nat)
      requires Valid()
      modifies scheduler, dispatcher, cpu, readyQueue, blockedQueue, clock, log
      ensures Frame() && Counted() && (cpu.pcb.None? ==> cpu.idle)
      ensures Repr == old(Repr)
      ensures Snapshot() == Switched(Scheduled(old(Snapshot()), scheduler.algorithm, scheduler.timeq, rnd))
    {
      ScheduleStep(rnd);
      SwitchStep();
    }

    /** `scheduler.execute()`: the policy's decision, possibly an interrupt
        naming a ready record. */
    method ScheduleStep(rnd: nat)
      requires Valid()
      modifies scheduler, dispatcher
      ensures Links() && Counted() && (cpu.idle <==> cpu.pcb.None?)
      ensures dispatcher.interrupt ==> 0 <= scheduler.nextPcbIndex < |readyQueue.items|
      ensures Repr == old(Repr)
      ensures Snapshot() == Scheduled(old(Snapshot()), scheduler.algorithm, scheduler.timeq, rnd)
    {
      scheduler.Execute(rnd);
    }

    /** `dispatcher.execute()`: a pending switch is carried out. */
    method SwitchStep()
      requires Links() && Counted() && (cpu.idle <==> cpu.pcb.None?)
      requires dispatcher.interrupt ==> 0 <= scheduler.nextPcbIndex < |readyQueue.items|
      modifies dispatcher, cpu, readyQueue, blockedQueue, clock, log
      ensures Frame() && Counted() && (cpu.pcb.None? ==> cpu.idle)
      ensures Repr == old(Repr)
      ensures Snapshot() == Switched(old(Snapshot()))
    {
      if dispatcher.interrupt {
        DispatchConserves(dispatcher.Snap(), scheduler.nextPcbIndex, finishedQueue.items, gen.input[..gen.Admitted()]);
      }
      dispatcher.Execute();
    }

    /** `cpu.execute()`: one half-tick of work, retiring a finished record. */
    method CpuStep()
      requires Frame() && Counted() && (cpu.pcb.None? ==> cpu.idle)
      modifies cpu, finishedQueue, log
      ensures Valid() && Repr == old(Repr)
      ensures Snapshot() == Ran(old(Snapshot()))
    {
      ExecuteConserves(readyQueue.items, blockedQueue.items, cpu.State(), clock.time, gen.input[..gen.Admitted()]);
      cpu.Execute();
    }

    /** `serveIO(...)`. */
    method IoStep()
      requires Valid()
      modifies readyQueue, blockedQueue, log
      ensures Valid() && Repr == old(Repr)
      ensures Snapshot() == Served(old(Snapshot()))
    {
      ServiceConserves(readyQueue.items, blockedQueue.items, cpu.pcb, finishedQueue.items, gen.input[..gen.Admitted()]);
      ServeIO(readyQueue, blockedQueue, clock, log);
    }

    /** `stats.execute()` and `clock.step()`. */
    method AccountStep()
      requires Valid()
      modifies readyQueue, stats, clock
      ensures Valid() && Repr == old(Repr)
      ensures Snapshot() == Stepped(Accrued(old(Snapshot())))
    {
      StatsStep();
      ClockStep();
    }

    /** The statistics updater charges the waiting time since its last call
        to every ready record. */
    method StatsStep()
      requires Valid()
      modifies readyQueue, stats
      ensures Valid() && Repr == old(Repr)
      ensures Snapshot() == Accrued(old(Snapshot()))
    {
      ghost var ready, blocked, slot, finished := readyQueue.items, blockedQueue.items, cpu.pcb, finishedQueue.items;
      ghost var admitted := gen.input[..gen.Admitted()];
      ghost var inc := clock.time - stats.lastUpdate;
      ghost var w := Snapshot();
      AccrualConserves(ready, blocked, slot, finished, admitted, inc);
      stats.Execute();
      assert Snapshot() == w.(ready := WithWait(ready, inc), lastUpdate := clock.time);
      assert Conserved(readyQueue.items, blockedQueue.items, cpu.pcb, finishedQueue.items, gen.input[..gen.Admitted()]);
    }

    /** The clock advances by one half-tick. */
    method ClockStep()
      requires Valid()
      modifies clock
      ensures Valid() && Repr == old(Repr)
      ensures Snapshot() == Stepped(old(Snapshot()))
    {
      clock.Step();
    }
  }
}
