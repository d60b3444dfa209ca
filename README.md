# A verified model of a single-CPU scheduling simulator

This project models the simulation engine of a tick-driven, single-CPU process scheduling simulator. The engine holds three queues of process control blocks (PCBs): ready, blocked and finished. It also holds one CPU slot, a shared clock and a lifecycle log of state transitions. Each pass of the main loop runs the same steps in a fixed order:

1. The generator admits every workload record whose arrival time has been reached.
2. The scheduler applies one of five policies. The policies are FCFS, SRTF, round robin, preemptive priority and preemptive random. The policy may request a context switch to one ready-queue index.
3. The dispatcher carries out a requested switch.
4. The CPU burns half a time unit of work and retires a finished record.
5. The I/O server releases blocked records whose I/O is done and serves half a unit on the rest.
6. The statistics updater charges waiting time to every ready record.
7. The clock steps half a unit.

Every time quantity of the simulator is a multiple of 0.5, so the model counts time in integer half-ticks. A value `v` of a `float` field (`time_left`, `resp_time`, `wait_time`, `finish_time`, `io_burst`, the clock, the scheduler's `timer` and `timeq`) is stored as `2*v`. The `int` fields `arrival` and `burst` stay in whole units, so `time_left` starts at `2*burst` and the response time is `now - 2*arrival`.

The modules follow the source files:

- `Records` covers `PCB.h` and `PCBStatus.h`.
- `Containers` models the queue, the clock and the lifecycle vector.
- `Processor` covers `CPU.cpp`.
- `Schedulers` covers `Schedulers.cpp`.
- `Stats` covers the accrual, tally and grid parts of `StatUpdater.cpp`.
- `Generator` covers `PCBGenerator.cpp`.
- `Service` covers `serveIO` of `main.cpp`.
- `Passes` holds the invariant every step keeps and one pass of the loop of `main.cpp` as pure functions on a `World` value: `Pass` is the composition of the steps in their order.
- `Simulation` covers the set-up and the loop of `main.cpp`, on the classes.

Objects whose fields the source updates in place are classes:

- the queues, the clock and the log;
- the CPU, the scheduler, the dispatcher, the statistics updater and the generator;
- a `Simulator` that wires them together as `main` does.

Each state-changing method states its new state as a function of the old one. The properties are proved about those functions. In particular, each step method of the `Simulator` states that its new `World` snapshot is the matching pure step of the old one, `Tick` states that one pass is admission followed by `Pass`, and `Run` returns the sequence of worlds it went through, each linked to the next by one pass.

The main invariant of the whole simulation is `Passes.Conserved`. It says that every admitted record is in exactly one place: the ready queue, the blocked queue, the CPU or the finished queue. Every step of a pass preserves it. When a run ends because all work is done, each workload pid has reached the finished queue exactly once.

Where the design description and the code differ, the model follows the code:

- The lifecycle log is ordered by `std::sort`, which is not stable. The grid therefore takes any time-sorted order of the events, not the emission order among equal times.
- Preemptive priority also switches when the best ready priority only equals the running one and the timer has run out, as the code's `low_index >= 0 && (timer <= 0 || …)` does.
- The design refuses an unknown policy; the code accepts any algorithm code. With a code outside 0..4 the scheduler never interrupts, so nothing is ever installed and, once any record has been admitted, the loop of `main` never ends (`Schedulers.UnknownAlgorithm`).
- The arrival-order check compares against `last_arr`, which is never updated from 0. Out-of-order arrivals are therefore accepted, and only a negative arrival is rejected (`Generator.OrderCheckInert`).

## Model

| member | source | states |
|---|---|---|
| Records.DefaultPCB | headers/PCB.h:13 | the default PCB has every field zero and is not started |
| Records.NewPCB | headers/PCB.h:14-16 | pid, arrival, burst and priority come from the arguments; the remaining time equals the burst; the I/O burst is a whole number of units; response, wait and finish times and the context count start at zero; the record is not started |
| Records.StateName | headers/PCBStatus.h:59-85 | each of the five states has the name `e2s` gives it: CREATED, IN_READY_QUEUE, IN_BLOCKED_QUEUE, IN_RUNNING_QUEUE, COMPLETED |
| Records.StateNameRoundTrip | headers/PCBStatus.h:59-85 | the name of each state reads back as that state, so `e2s` loses no information |
| Records.StateNameInjective | headers/PCBStatus.h:59-85 | two states have the same name if and only if they are the same state |
| Records.PCBStatus.RecordState | headers/PCBStatus.h:34-36 | only the recorded state changes; time and pid are kept |
| Records.PCBStatus.RecordCpuTime | headers/PCBStatus.h:38-40 | only the recorded time changes; state and pid are kept |
| Records.PCBStatus.RecordPid | headers/PCBStatus.h:42-44 | only the pid changes; state and time are kept |
| Records.StatusGetters | headers/PCBStatus.h:32-56 | the three getters return exactly what the three-argument constructor stored |
| Records.DefaultStatus | headers/PCBStatus.h:31 | the default event is CREATED at time 0 with pid -1 |
| Records.PidsRemoveAt | source/Schedulers.cpp:196 | removing the record at an index takes exactly its pid out of the queue's pid multiset |
| Containers.DList.constructor | source/main.cpp:66-70 | a new queue is empty |
| Containers.DList.AddEnd | source/PCBGenerator.cpp:44 | `add_end` appends a copy at the tail and keeps the rest |
| Containers.DList.RemoveIndex | source/Schedulers.cpp:196 | `removeindex` returns the record at the index and keeps the others in order |
| Containers.DList.SetIndex | source/StatUpdater.cpp:26-27 | writing through `getindex(i)` replaces exactly the record at index i |
| Containers.Clock.constructor | source/main.cpp:77 | the clock starts at time 0 |
| Containers.Clock.Step | source/main.cpp:101 | each step adds exactly one half-tick |
| Containers.StatusLog.constructor | source/main.cpp:73 | the lifecycle vector starts empty |
| Containers.StatusLog.PushBack | source/PCBGenerator.cpp:37 | `push_back` appends the event and keeps the earlier ones |
| Processor.Worked | source/CPU.cpp:28-32 | one half-tick of work: the record becomes started; the response time is set to `now - arrival` only if it was not started before; the remaining time drops by one half-tick; no other field changes |
| Processor.ExecutedEmpty | source/CPU.cpp:26 | with no record installed, `execute` changes nothing |
| Processor.ExecutedOutcome | source/CPU.cpp:25-40 | after `execute`, the CPU is idle exactly when its slot is empty. The slot empties exactly when the remaining time was at most one half-tick. The record then goes to the finished tail with finish time `now + 0.5`, and a COMPLETED event is logged at that time. Otherwise the record stays worked and the finished queue and log are unchanged |
| Processor.ExecutedConserves | source/CPU.cpp:33-38 | the CPU slot and the finished queue together hold the same pids before and after `execute` |
| Processor.RunForSetsResponseOnce | source/CPU.cpp:28-32 | over any run of executions the response time is set once, by the first one, and never changed afterwards. Each execution lowers the remaining time by one half-tick. Wait time, context count, priority and I/O burst are untouched |
| Processor.CPU.constructor | source/CPU.cpp:6-12 | a new CPU is idle with an empty slot and holds the given finished queue, clock and vector |
| Processor.CPU.Execute | source/CPU.cpp:25-40 | the new CPU state (slot, idle flag, finished queue, log) is `Executed` of the old one at the current time |
| Processor.CPU.Terminate | source/CPU.cpp:43-54 | the record is appended to the finished tail with finish time `now + 0.5`, a COMPLETED event is logged at that time, and the slot is emptied |
| Schedulers.Countdown | source/Schedulers.cpp:44-47 | the timer drops by exactly one half-tick when positive and is otherwise unchanged, so a non-negative timer never goes below zero |
| Schedulers.ScanMin | source/Schedulers.cpp:93-98 | the scan never raises its best value; it either keeps its start pair or ends on an index holding a value strictly below the start |
| Schedulers.ScanMinSpec | source/Schedulers.cpp:93-98 | the scan finds an index exactly when some key is strictly below the start value. It then ends on the first index holding the minimum of the scanned keys |
| Schedulers.ScanFromHead | source/Schedulers.cpp:128-137 | started from the head, the scan ends on the lowest index holding the minimum |
| Schedulers.ScanBelow | source/Schedulers.cpp:86-98 | started from the running record's value with index -1, the scan finds an index exactly when the minimum is strictly below that value, and then the lowest index holding it |
| Schedulers.Decide | source/Schedulers.cpp:43-71 | any index written lies in `[0, size)`. Every interrupt comes with an index. With an empty ready queue there is no interrupt and the index is left alone, and only the timer moves. The timer has either counted down or been reset to the quantum on a switch. A non-negative timer and quantum keep the timer non-negative |
| Schedulers.FcfsChoice | source/Schedulers.cpp:74-78 | FCFS always writes index 0 and interrupts exactly when the CPU is idle |
| Schedulers.SrtfChoice | source/Schedulers.cpp:81-105 | SRTF interrupts exactly when the CPU is idle or the least remaining time in the queue is strictly below the running record's. The switch goes to the lowest index holding that minimum. Otherwise no index is written. The timer only counts down |
| Schedulers.RrChoice | source/Schedulers.cpp:108-114 | round robin interrupts exactly when the CPU is idle or the timer has run out. It then writes index 0 and resets the timer to the quantum |
| Schedulers.PpChoice | source/Schedulers.cpp:121-152 | preemptive priority interrupts exactly when one of four conditions holds: the CPU is idle; the running record needs I/O with the timer at most half the quantum; the best ready priority is strictly better than the running one; or it is equal to it with the timer run out. The switch goes to the lowest index holding the best priority and resets the timer |
| Schedulers.PpNeverWorse | source/Schedulers.cpp:139-151 | without the I/O clause, preemptive priority never switches to a worse priority than the running one |
| Schedulers.PrChoice | source/Schedulers.cpp:158-167 | preemptive random interrupts exactly when the CPU is idle or the timer has run out. It then writes `rand() % size` and resets the timer |
| Schedulers.UnknownAlgorithm | source/Schedulers.cpp:67-68 | an algorithm code outside 0..4 makes no decision; only the timer moves |
| Schedulers.DispatchedConserves | source/Schedulers.cpp:194-233 | a dispatch leaves the multiset of pids across the ready queue, the blocked queue and the CPU unchanged |
| Schedulers.DispatchedAccounting | source/Schedulers.cpp:202-239 | the candidate leaves the ready queue and is installed. A previous record, if any, gets one more context switch and goes to the blocked tail when it needs I/O, otherwise to the ready tail, with the matching event. The incoming record is then charged half a unit of wait and the clock steps once. With an empty CPU none of this happens. A RUNNING event is always logged |
| Schedulers.Scheduler.constructor | source/Schedulers.cpp:21-29 | no dispatcher yet, index -1, and both the timer and the quantum equal the given quantum |
| Schedulers.Scheduler.SetDispatcher | source/Schedulers.cpp:33-35 | the dispatcher is set only if none was set before |
| Schedulers.Scheduler.Execute | source/Schedulers.cpp:43-71 | the new timer, index and interrupt flag are those of `Decide` on the old timer, the ready queue and the CPU state |
| Schedulers.Scheduler.Fcfs | source/Schedulers.cpp:74-78 | the new timer, index and interrupt flag follow the FCFS policy |
| Schedulers.Scheduler.Srtf | source/Schedulers.cpp:81-105 | the scan loop and its result follow the SRTF policy |
| Schedulers.Scheduler.Rr | source/Schedulers.cpp:108-114 | the new timer, index and interrupt flag follow the round robin policy |
| Schedulers.Scheduler.Pp | source/Schedulers.cpp:121-152 | the scan loop and its result follow the preemptive priority policy |
| Schedulers.Scheduler.Pr | source/Schedulers.cpp:158-167 | the new timer, index and interrupt flag follow the preemptive random policy for the given random value |
| Schedulers.Dispatcher.constructor | source/Schedulers.cpp:183-191 | the dispatcher holds the given components and no interrupt is pending |
| Schedulers.Dispatcher.Interrupt | source/Schedulers.cpp:243-246 | an interrupt is pending afterwards |
| Schedulers.Dispatcher.SwitchContext | source/Schedulers.cpp:194-199 | the record at the scheduler's index leaves the ready queue, with the rest kept in order, and is installed; the previous slot is returned |
| Schedulers.Dispatcher.Execute | source/Schedulers.cpp:202-240 | with an interrupt pending, the new queues, slot, clock and log are `Dispatched` of the old ones; otherwise nothing changes. The interrupt is cleared either way |
| Stats.WithWait | source/StatUpdater.cpp:24-28 | every queued record's wait time grows by the increment |
| Stats.WithWaitKeepsQueue | source/StatUpdater.cpp:24-28 | accrual changes neither the queue's pids nor their order nor any field but the wait time |
| Stats.StatUpdater.constructor | source/StatUpdater.cpp:7-16 | the updater holds the given queues, clock and vector, and the last update is at time 0 |
| Stats.StatUpdater.Execute | source/StatUpdater.cpp:19-29 | the ready queue becomes the old queue with `now - last_update` added to every wait time, and the last update becomes now |
| Stats.MapStateToColumn | source/StatUpdater.cpp:103-124 | every state maps into the columns `[0, 5)` |
| Stats.MapStateToColumnInjective | source/StatUpdater.cpp:103-124 | the map is CREATED→0, READY→1, RUNNING→2, BLOCKED→3, COMPLETED→4, and it is injective (both directions) |
| Stats.CompareCpuTimesStrictWeak | source/StatUpdater.cpp:126-128 | the comparison is irreflexive and transitive; two events are incomparable exactly when their times are equal |
| Stats.RowsInRange | source/StatUpdater.cpp:141-144 | in a sorted log of non-negative times, every event's row lies between 0 and the last event's row, so `rows = last + 1` bounds every index |
| Stats.CellSnoc | source/StatUpdater.cpp:172-179 | one more event puts "P<pid>" into an empty cell or appends ", P<pid>" to a non-empty one, and leaves every other cell as it was |
| Stats.EmptyGridHolds | source/StatUpdater.cpp:149-161 | empty cells and cleared marks are the grid of an empty log |
| Stats.GridStep | source/StatUpdater.cpp:164-180 | one turn of the grid loop keeps both loop invariants: cells show the events seen so far and marks show the rows they hit |
| Stats.FillGrid | source/StatUpdater.cpp:149-180 | after the loop, every cell holds its events' labels joined by ", " in log order, and a row is marked exactly when some event falls in it |
| Stats.BuildLifecycleGrid | source/StatUpdater.cpp:138-180 | a non-empty sorted log yields a grid with `last + 1` rows in which every event's row is in range, every cell is its labels joined in log order and a row is marked 1 exactly when hit, 0 otherwise; an empty log yields no grid |
| Stats.SumIdsIsSumInRange | source/StatUpdater.cpp:76-85 | the pid-by-pid tally counts each finished record whose pid is in `1..N` exactly once |
| Stats.SumInRangeAll | source/StatUpdater.cpp:76-85 | when every finished pid lies in `1..N`, the tally covers every finished record |
| Stats.StatUpdater.Tally | source/StatUpdater.cpp:76-85 | the burst, turnaround (`finish - arrival`), wait, response and context-switch totals are the sums over the finished records whose pid lies in `1..N`, N being the number of finished records |
| Generator.AdmittedPidsGrow | source/PCBGenerator.cpp:33-46 | admitting the next lines adds exactly their pids to the admitted pids |
| Generator.OrderCheckInert | source/PCBGenerator.cpp:85-88 | with `last_arr` at 0, a line is rejected exactly for a negative arrival, a non-positive burst or a repeated pid |
| Generator.AcceptNext | source/PCBGenerator.cpp:95-96 | accepting a line extends the accepted prefix and adds exactly its pid and arrival to the seen sets |
| Generator.AcceptedWellFormed | source/PCBGenerator.cpp:85-92 | accepted lines have pairwise distinct pids, non-negative arrivals and positive bursts |
| Generator.PCBGenerator.constructor | source/PCBGenerator.cpp:6-22 | the generator starts with nothing admitted, over the given queue, clock and vector, with the first line read |
| Generator.PCBGenerator.Generate | source/PCBGenerator.cpp:29-47 | the lines admitted in this call are appended to the ready tail in input order, each with CREATED then READY at now. Each has arrived by now. Admission stops at the first pending line still in the future, at the end of the input or on a rejected line. A finished or failed generator admits nothing |
| Generator.PCBGenerator.Admit | source/PCBGenerator.cpp:35-45 | one turn of the admission loop admits exactly one more line |
| Generator.PCBGenerator.Enqueue | source/PCBGenerator.cpp:35-44 | the pending record and its two events extend the queue and the log |
| Generator.PCBGenerator.ReadNext | source/PCBGenerator.cpp:49-104 | at the end of the input the generator finishes. Otherwise it stops with an error exactly when the line fails a check; if it does not, the line becomes the pending record and its pid and arrival are marked seen |
| Generator.PCBGenerator.Grow | source/PCBGenerator.cpp:80 | the arrays are doubled until both the pid and the arrival index fit |
| Generator.PCBGenerator.Accept | source/PCBGenerator.cpp:95-96 | the accepted line's pid and arrival are marked and the reader moves past it |
| Generator.PCBGenerator.DoubleArrays | source/PCBGenerator.cpp:110-128 | the size doubles, the first half of both arrays is kept and the new half is false |
| Service.ReleasedKeptSides | source/main.cpp:20-33 | released records have used up their I/O; kept ones still owe some |
| Service.ReleasedKeptPartition | source/main.cpp:20-33 | every blocked record is either released or kept, never both |
| Service.ReleasedKeptPids | source/main.cpp:27-28 | released and kept records together hold the blocked queue's pids |
| Service.DrainedPids | source/main.cpp:36-39 | serving I/O keeps the blocked queue's pids |
| Service.ReleasedAtZero | source/main.cpp:21-38 | on a queue with no negative I/O, released records owe exactly zero and the queue stays non-negative after service |
| Service.ServeStep | source/main.cpp:20-33 | with the `i--` correction, each turn of the release loop looks at the next original record exactly once |
| Service.ReleaseDone | source/main.cpp:20-33 | the done records go to the ready tail in blocked order, each with a READY event at now, and the others stay blocked in their order |
| Service.DrainBlocked | source/main.cpp:36-39 | every blocked record's I/O drops by exactly half a unit |
| Service.ServeIO | source/main.cpp:14-41 | the ready queue gains the released records and the blocked queue becomes the kept ones, each served half a unit. An empty blocked queue is left unchanged |
| Passes.AdmissionConserves | source/main.cpp:95 | admission keeps every admitted record in exactly one place |
| Passes.DispatchConserves | source/main.cpp:97 | a dispatch keeps every admitted record in exactly one place and the blocked queue free of negative I/O, and leaves a record installed. The blocked queue only grows, and it grows exactly when the evicted record still owes I/O, which the new entries then do |
| Passes.ExecuteConserves | source/main.cpp:98 | an execution keeps every admitted record in exactly one place and only extends the finished queue |
| Passes.ServiceConserves | source/main.cpp:99 | I/O service keeps every admitted record in exactly one place and no blocked record owes negative I/O |
| Passes.AccrualConserves | source/main.cpp:100 | wait accrual moves no record |
| Passes.ConservedAtStart | source/main.cpp:66-73 | with empty queues and an empty CPU nothing has been admitted |
| Passes.ConservedAtEnd | source/main.cpp:94 | once the queues and the CPU are empty, the finished queue holds exactly the admitted pids |
| Passes.FinishedOnce | source/main.cpp:94-102 | a fully accepted workload run to completion leaves each of its pids in the finished queue exactly once |
| Simulation.NewShared | source/main.cpp:66-77 | three distinct empty queues, an empty vector and a clock at 0 |
| Simulation.NewComponents | source/main.cpp:82-90 | statistics, CPU, scheduler and dispatcher share the same queues, clock and vector, and the scheduler knows its dispatcher |
| Simulation.Simulator.constructor | source/main.cpp:56-90 | the quantum is kept for algorithms 2, 3 and 4 and is -1 otherwise; everything starts empty at time 0 with the CPU idle and the invariants holding |
| Passes.WithAdmitted | source/PCBGenerator.cpp:33-46 | admission appends the admitted lines' PCBs to the ready tail and their CREATED and READY events to the log, and changes nothing else |
| Passes.Scheduled | source/Schedulers.cpp:43-71 | scheduling changes only the timer, the index and the interrupt flag; an interrupt raised when none was pending names an index in the ready queue |
| Passes.Switched | source/Schedulers.cpp:202-240 | after dispatch no interrupt is pending and a pending one leaves a record installed. The finished queue, the idle flag, the timer, the index and the last update are kept, the clock moves by at most one half-tick, and without an interrupt nothing changes |
| Passes.Ran | source/CPU.cpp:25-54 | execution changes only the slot, the idle flag, the finished queue and the log, and only extends the finished queue and the log |
| Passes.Served | source/main.cpp:14-41 | I/O service changes only the ready queue, the blocked queue and the log, and only extends the ready queue and the log |
| Passes.Accrued | source/StatUpdater.cpp:19-29 | accrual changes only the ready records' wait times and the last update, which becomes now; the ready pids and their order are kept |
| Passes.Stepped | source/main.cpp:101 | the clock step adds exactly one half-tick and changes nothing else |
| Passes.SwitchedKeeps | source/main.cpp:96-97 | scheduling then dispatching keeps every admitted record in one place and no negative I/O, and only extends the log. The clock moves one half-tick exactly when a pending switch evicted a record, and otherwise stays |
| Passes.RanKeeps | source/main.cpp:98 | execution keeps the counts and leaves the CPU idle exactly when its slot is empty |
| Passes.ServedKeeps | source/main.cpp:99 | I/O service keeps the counts |
| Passes.AccruedKeeps | source/main.cpp:100 | accrual keeps the counts |
| Passes.PassKeepsSettled | source/main.cpp:94-102 | a pass from a settled world ends in a settled world: no interrupt pending, idle exactly when the slot is empty, every admitted record in one place and no negative I/O. It only extends the finished queue and the log, and moves the clock by two half-ticks exactly when the scheduler requested a switch while a record was installed (the eviction overhead of the dispatcher), and by one otherwise |
| Passes.TraceSnoc | source/main.cpp:94-102 | a run that was not cut short, followed by one more pass, is a run one pass longer |
| Simulation.Simulator.Tick | source/main.cpp:95-101 | the new world follows from the old one by one pass: the lines admitted have all arrived by now and admission stopped at the end of the input, a rejected line or the first line still in the future; unless a line was rejected, the new world is `Pass` of the world after admission, in the order schedule, dispatch, execute, serve I/O, accrue, step. It keeps the invariants, moves the clock forward unless a line was rejected, and only extends the finished queue |
| Simulation.Simulator.FinishPass | source/main.cpp:96-101 | the steps after admission complete the pass `Follows` describes, from the world before admission |
| Simulation.Simulator.PassStep | source/main.cpp:96-101 | the new world is `Pass` of the old one with the scheduler's algorithm, quantum and random value, and the invariants hold |
| Simulation.Simulator.Loop | source/main.cpp:94-102 | the returned worlds start at the old state and end at the new one, each linked to the next by one pass with its random value; the loop stops only when the work is done, a line was rejected (on the last pass only) or the random values run out |
| Simulation.Simulator.TracedTick | source/main.cpp:94-102 | one more pass extends the recorded run by exactly one world |
| Simulation.Simulator.Completed | source/main.cpp:94 | once the loop condition fails, every line has been admitted and each pid is in the finished queue exactly once |
| Simulation.Simulator.Run | source/main.cpp:94-102 | the trace of `Loop`: every pass in order, each one admission followed by `Pass`. When the work is done, every line has been admitted and each pid is in the finished queue exactly once |
| Simulation.Simulator.GenerateStep | source/main.cpp:95 | the new world is `WithAdmitted` of the old one for exactly the lines admitted in this call: PCBs on the ready tail, CREATED and READY events in the log. Each of those lines has arrived by now, and admission stopped at the first line still in the future unless the input ended or a line was rejected. A finished or failed generator admits nothing |
| Simulation.Simulator.DispatchStep | source/main.cpp:96-97 | the new world is `Switched` of `Scheduled` of the old one: the policy's decision, then the switch it requested. The counts hold and no interrupt is pending |
| Simulation.Simulator.ScheduleStep | source/main.cpp:96 | the new world is `Scheduled` of the old one, so timer, index and interrupt are those of `Decide`, and any interrupt names an index in the ready queue |
| Simulation.Simulator.SwitchStep | source/main.cpp:97 | the new world is `Switched` of the old one: a pending switch is `Dispatched` and the interrupt is cleared. The counts hold |
| Simulation.Simulator.CpuStep | source/main.cpp:98 | the new world is `Ran` of the old one, the CPU's state being `Executed` of the old one at now; the invariants hold |
| Simulation.Simulator.IoStep | source/main.cpp:99 | the new world is `Served` of the old one: released records on the ready tail with READY events, the others blocked with half a unit served; the invariants hold |
| Simulation.Simulator.AccountStep | source/main.cpp:100-101 | the new world is `Stepped` of `Accrued` of the old one: wait accrued to every ready record, then the clock one half-tick on; the invariants hold |
| Simulation.Simulator.StatsStep | source/main.cpp:100 | the new world is `Accrued` of the old one: every ready record's wait grows by the time since the last update, which becomes now; the invariants hold |
| Simulation.Simulator.ClockStep | source/main.cpp:101 | the new world is `Stepped` of the old one: the clock one half-tick on, nothing else changed; the invariants hold |

## Left out

- Reading the workload file: `ifstream` reading, skipping short lines and tokenising are not modelled. The input is a sequence of already-parsed five-integer records. A line with missing or extra values, and the `float` values truncated by the `int` fields of `PCB`, are therefore not modelled. The same goes for the source's behaviour of dropping a last line that has no trailing newline.
- Negative pids: the source indexes its `pids` array with the pid, which is undefined for a negative value. The generator and `Simulator.constructor` require non-negative pids.
- The out-of-bounds `vals[5]` read of the too-many-values check is undefined behaviour and is not modelled.
- The command line: argument checks and `atoi` are not modelled. The quantum is taken as given for algorithms 2, 3 and 4.
- `rand()` and `srand(time(NULL))`: the random value of each pass is a parameter (`rnd`), and `Run` takes one per pass.
- Simulation.Simulator.Run: the loop of `main` is unbounded; the model runs it for at most as many passes as it is given random values, so it does not state that every run terminates.
- The `catch(int)` exit: a rejected line sets an error flag that ends the pass and the run. Freeing the queues is not modelled.
- Memory management (`new`, `delete`, `calloc`) and the aliasing of the CPU's heap-allocated PCB are not modelled; records are values.
- Report output: `print` (its file writing, `setw` formatting and the floating-point averages) and the writing part of `printProcessLifecycle` are not modelled. The column totals (`StatUpdater.Tally`) and the grid (`BuildLifecycleGrid`) are.
- `PCB::print` and `PCBStatus::toString` are console and string output and are not modelled (`e2s` is).
- The default `Scheduler()` and `Dispatcher()` constructors and the three-argument `Scheduler` constructor are not used by `main` and are not modelled.
- `DList.h` and `Clock.h` are not part of this model. The queue is a sequence with the operations the core calls, and the clock is a half-tick counter.
- Integer overflow of `int` fields and the precision of `float` times are not modelled: integers are unbounded, and half-tick values are exact.
- `main` constructs the generator before the other components, and the generator reads its first line in its constructor. The model builds it last. The other constructors only store their arguments, so the order has no effect.
- Service.ReleasedAtZero: it shows that a released record owes exactly zero I/O, and `DispatchedAccounting` shows that only records owing I/O are blocked. The resulting "blocked at most once per record" property over a whole run is not stated as a run invariant.
- Stats.BuildLifecycleGrid: on an empty log the source reads `at(size() - 1)`, which throws `std::out_of_range`; `main` catches only `int`, so an empty workload aborts the program there. The model returns no grid instead.
- Stats.BuildLifecycleGrid: its log is any time-sorted order of the events, because `std::sort` is not stable. It does not state which permutation of the unsorted vector the sort produced.
