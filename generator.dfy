// The process generator: reads the workload one record ahead, rejects
// invalid records, and admits into the ready queue every pending record
// whose arrival time has been reached.
//
// The workload is a sequence of already-tokenised lines of five values
// (pid, arrival, burst, priority, I/O burst).

module Generator {
  import opened Records
  import opened Containers

  /** One workload line, `vals[0..4]`. */
  datatype Record = Record(pid: int, arrival: int, burst: int, priority: int, ioBurst: int)

  /** The PCB built from a line by the five-argument constructor. */
  function PCBOf(r: Record): PCB {
    NewPCB(r.pid, r.arrival, r.burst, r.priority, r.ioBurst)
  }

  function PCBsOf(rs: seq<Record>): (ps: seq<PCB>)
    ensures |ps| == |rs| && forall i :: 0 <= i < |rs| ==> ps[i] == PCBOf(rs[i])
  {
    seq(|rs|, i requires 0 <= i < |rs| => PCBOf(rs[i]))
  }

  /** The pids of a run of lines, in order: those of the PCBs made from them. */
  function RecordPids(rs: seq<Record>): (r: seq<int>)
    ensures |r| == |rs| && forall i :: 0 <= i < |rs| ==> r[i] == rs[i].pid
  {
    PidSeq(PCBsOf(rs))
  }

  /** Admitting the lines from a0 to a1 adds exactly their PCBs' pids to
      the pids admitted so far. */
  lemma AdmittedPidsGrow(input: seq<Record>, a0: nat, a1: nat)
    requires a0 <= a1 <= |input|
    ensures multiset(RecordPids(input[..a1])) == multiset(RecordPids(input[..a0])) + Pids(PCBsOf(input[a0..a1]))
  {
    assert RecordPids(input[..a1]) == RecordPids(input[..a0]) + RecordPids(input[a0..a1]);
  }

  /** The CREATED and READY events, at time `now`, of each admitted line in turn. */
  function AdmissionEvents(rs: seq<Record>, now: int): (es: seq<PCBStatus>)
    ensures |es| == 2 * |rs|
    decreases |rs|
  {
    if rs == [] then []
    else
      var r := rs[|rs| - 1];
      AdmissionEvents(rs[..|rs| - 1], now) + [PCBStatus(Created, now, r.pid), PCBStatus(InReadyQueue, now, r.pid)]
  }

  lemma PCBsOfSnoc(rs: seq<Record>, r: Record)
    ensures PCBsOf(rs + [r]) == PCBsOf(rs) + [PCBOf(r)]
  {
  }

  lemma AdmissionEventsSnoc(rs: seq<Record>, r: Record, now: int)
    ensures AdmissionEvents(rs + [r], now) == AdmissionEvents(rs, now) + [PCBStatus(Created, now, r.pid), PCBStatus(InReadyQueue, now, r.pid)]
  {
    assert (rs + [r])[..|rs|] == rs;
  }

  /** Admitting line `count - 1` after the lines from `start` extends the
      queue by its PCB and the log by its two events. */
  lemma AdmitOneMore(rs: seq<Record>, start: nat, count: nat, queued: seq<PCB>, logged: seq<PCBStatus>, now: int)
    requires start < count <= |rs|
    ensures queued + PCBsOf(rs[start..count]) == queued + PCBsOf(rs[start..count - 1]) + [PCBOf(rs[count - 1])]
    ensures logged + AdmissionEvents(rs[start..count], now) ==
      logged + AdmissionEvents(rs[start..count - 1], now) + [PCBStatus(Created, now, rs[count - 1].pid), PCBStatus(InReadyQueue, now, rs[count - 1].pid)]
  {
    var before, next := rs[start..count - 1], rs[count - 1];
    assert rs[start..count] == before + [next];
    PCBsOfSnoc(before, next);
    AdmissionEventsSnoc(before, next, now);
  }

  /** The pids of the lines accepted so far. */
  function SeenPids(rs: seq<Record>): set<int>
    decreases |rs|
  {
    if rs == [] then {} else SeenPids(rs[..|rs| - 1]) + {rs[|rs| - 1].pid}
  }

  /** The arrival times of the lines accepted so far. */
  function SeenArrivals(rs: seq<Record>): set<int>
    decreases |rs|
  {
    if rs == [] then {} else SeenArrivals(rs[..|rs| - 1]) + {rs[|rs| - 1].arrival}
  }

  /** The checks of `readnext` on a tokenised line: a negative arrival, a
      non-positive burst, an arrival before `last_arr`, or a pid already
      seen make it throw. */
  predicate Rejects(r: Record, lastArr: int, seen: set<int>) {
    r.arrival < 0 || r.burst <= 0 || r.arrival < lastArr || r.pid in seen
  }

  /** `last_arr` is never updated from its initial 0, so the order check
      adds nothing to the negative-arrival check: out-of-order arrivals are
      accepted. */
  lemma OrderCheckInert(r: Record, seen: set<int>)
    ensures Rejects(r, 0, seen) <==> r.arrival < 0 || r.burst <= 0 || r.pid in seen
  {
  }

  /** Every line of the prefix passed the checks against the lines before it. */
  predicate AllAccepted(rs: seq<Record>)
    decreases |rs|
  {
    rs == [] || (AllAccepted(rs[..|rs| - 1]) && !Rejects(rs[|rs| - 1], 0, SeenPids(rs[..|rs| - 1])))
  }

  /** Accepting the line at `pos` extends the accepted prefix and adds its
      pid and arrival to the seen sets. */
  lemma AcceptNext(rs: seq<Record>, pos: nat)
    requires pos < |rs| && AllAccepted(rs[..pos]) && !Rejects(rs[pos], 0, SeenPids(rs[..pos]))
    ensures AllAccepted(rs[..pos + 1])
    ensures SeenPids(rs[..pos + 1]) == SeenPids(rs[..pos]) + {rs[pos].pid}
    ensures SeenArrivals(rs[..pos + 1]) == SeenArrivals(rs[..pos]) + {rs[pos].arrival}
  {
    assert rs[..pos + 1][..pos] == rs[..pos];
  }

  /** Every pid of the lines read is in the seen set. */
  lemma {:induction false} SeenPidsHolds(rs: seq<Record>)
    ensures forall i :: 0 <= i < |rs| ==> rs[i].pid in SeenPids(rs)
    decreases |rs|
  {
    if rs != [] {
      SeenPidsHolds(rs[..|rs| - 1]);
    }
  }

  /** The accepted lines have pairwise distinct pids, non-negative arrivals
      and positive bursts. */
  lemma {:induction false} AcceptedWellFormed(rs: seq<Record>)
    requires AllAccepted(rs)
    ensures forall i, j :: 0 <= i < j < |rs| ==> rs[i].pid != rs[j].pid
    ensures forall i :: 0 <= i < |rs| ==> rs[i].arrival >= 0 && rs[i].burst > 0
    decreases |rs|
  {
    if rs != [] {
      var init, last := rs[..|rs| - 1], rs[|rs| - 1];
      AcceptedWellFormed(init);
      SeenPidsHolds(init);
      assert !Rejects(last, 0, SeenPids(init));
      forall i | 0 <= i < |rs|
        ensures rs[i].arrival >= 0 && rs[i].burst > 0
      {
        if i < |rs| - 1 {
          assert rs[i] == init[i];
        }
      }
    }
  }

  class PCBGenerator {
    const input: seq<Record>
    var pos: nat
    const readyQueue: DList
    const clock: Clock
    var nextPCB: PCB
    var finished: bool
    var error: bool
    const lastArr: int
    var arrivals: array<bool>
    var pids: array<bool>
    var arrSize: int
    const log: StatusLog
    ghost var Repr: set<object>

    /** The arrays, the seen sets and the accepted prefix agree. */
    ghost predicate Core()
      reads this`Repr, this`pos, this`pids, this`arrivals, this`arrSize, pids, arrivals
    {
      && this in Repr && pids in Repr && arrivals in Repr && pids != arrivals
      && readyQueue !in Repr && log !in Repr && clock !in Repr
      && pids.Length == arrSize && arrivals.Length == arrSize && arrSize > 0
      && lastArr == 0
      && pos <= |input|
      && (forall i :: 0 <= i < |input| ==> input[i].pid >= 0)
      && AllAccepted(input[..pos])
      && (forall x :: x in SeenPids(input[..pos]) ==> x < arrSize)
      && (forall x :: x in SeenArrivals(input[..pos]) ==> x < arrSize)
      && (forall i :: 0 <= i < arrSize ==> (pids[i] <==> i in SeenPids(input[..pos])))
      && (forall i :: 0 <= i < arrSize ==> (arrivals[i] <==> i in SeenArrivals(input[..pos])))
    }

    /** Where the reader stands: one line ahead of admission, at the end of
        the input, or stopped on a rejected line. */
    ghost predicate Phase()
      reads this
    {
      && (!finished && !error ==> 0 < pos <= |input| && nextPCB == PCBOf(input[pos - 1]))
      && (finished ==> !error && pos == |input|)
      && (error ==> pos < |input| && Rejects(input[pos], lastArr, SeenPids(input[..pos])))
    }

    ghost predicate Valid()
      reads this, Repr
    {
      this in Repr && pids in Repr && arrivals in Repr && Core() && Phase()
    }

    /** How many lines have been admitted: all lines read, except the
        pending one while there is one. */
    ghost function Admitted(): nat
      reads this
    {
      if !finished && !error && pos > 0 then pos - 1 else pos
    }

    /** Opens the workload and reads its first line. */
    constructor (workload: seq<Record>, lst: DList, c: Clock, lifeCycleVector: StatusLog)
      requires forall i :: 0 <= i < |workload| ==> workload[i].pid >= 0
      ensures Valid() && fresh(Repr)
      ensures input == workload && readyQueue == lst && clock == c && log == lifeCycleVector
      ensures Admitted() == 0
    {
      input := workload;
      readyQueue := lst;
      clock := c;
      log := lifeCycleVector;
      finished := false;
      error := false;
      lastArr := 0;
      arrSize := 25;
      nextPCB := DefaultPCB();
      pos := 0;
      new;
      arrivals := new bool[25](_ => false);
      pids := new bool[25](_ => false);
      Repr := {this, pids, arrivals};
      ReadNext();
    }

    function Finished(): bool
      reads this
    {
      finished
    }

    /** Admit every pending line whose arrival has been reached, in input
        order, each with a CREATED and a READY event at the current time;
        stop at the first line still in the future, at the end of the input,
        or on a rejected line. */
    method Generate()
      requires Valid()
      modifies Repr, readyQueue, log
      ensures Valid() && fresh(Repr - old(Repr))
      ensures old(Admitted()) <= Admitted() <= |input|
      ensures readyQueue.items == old(readyQueue.items) + PCBsOf(input[old(Admitted())..Admitted()])
      ensures log.events == old(log.events) + AdmissionEvents(input[old(Admitted())..Admitted()], clock.time)
      ensures forall i :: old(Admitted()) <= i < Admitted() ==> 2 * input[i].arrival <= clock.time
      ensures !finished && !error ==> clock.time < 2 * nextPCB.arrival
      ensures old(finished) || old(error) ==> Admitted() == old(Admitted()) && finished == old(finished) && error == old(error)
    {
      ghost var start := Admitted();
      ghost var queued := readyQueue.items;
      ghost var logged := log.events;
      while !finished && !error && clock.time >= 2 * nextPCB.arrival
        invariant Valid() && fresh(Repr - old(Repr))
        invariant AdmittedSince(start, Admitted(), queued, logged)
        invariant old(finished) || old(error) ==> Admitted() == start && finished == old(finished) && error == old(error)
        decreases |input| - Admitted()
      {
        Admit(start, queued, logged);
      }
    }

    /** The lines from `start` to `count` have been appended, with their
        events, to the queue and log contents `queued` and `logged`, each
        having arrived by now. */
    ghost predicate AdmittedSince(start: nat, count: nat, queued: seq<PCB>, logged: seq<PCBStatus>)
      reads readyQueue, log, clock
    {
      && start <= count <= |input|
      && readyQueue.items == queued + PCBsOf(input[start..count])
      && log.events == logged + AdmissionEvents(input[start..count], clock.time)
      && (forall i :: start <= i < count ==> 2 * input[i].arrival <= clock.time)
    }

    /** One turn of the admission loop: log the pending record's CREATED and
        READY events, append it to the ready queue, read the line after it. */
    method Admit(ghost start: nat, ghost queued: seq<PCB>, ghost logged: seq<PCBStatus>)
      requires Valid() && !finished && !error && clock.time >= 2 * nextPCB.arrival
      requires AdmittedSince(start, Admitted(), queued, logged)
      modifies Repr, readyQueue, log
      ensures Valid() && fresh(Repr - old(Repr))
      ensures Admitted() == old(Admitted()) + 1
      ensures AdmittedSince(start, Admitted(), queued, logged)
    {
      Enqueue(start, pos, queued, logged);
      ReadNext();
    }

    /** Log the pending record's CREATED and READY events and append it to
        the ready queue: one more line is admitted. */
    method Enqueue(ghost start: nat, ghost count: nat, ghost queued: seq<PCB>, ghost logged: seq<PCBStatus>)
      requires 0 < count <= |input| && AdmittedSince(start, count - 1, queued, logged)
      requires nextPCB == PCBOf(input[count - 1]) && clock.time >= 2 * nextPCB.arrival
      modifies readyQueue, log
      ensures AdmittedSince(start, count, queued, logged)
    {
      AdmitOneMore(input, start, count, queued, logged, clock.time);
      log.PushBack(PCBStatus(Created, clock.time, nextPCB.pid));
      log.PushBack(PCBStatus(InReadyQueue, clock.time, nextPCB.pid));
      readyQueue.AddEnd(nextPCB);
    }

    /** Read the next line: at the end of the input, finish; otherwise grow
        the arrays until the pid and the arrival index fit, check the line,
        and either stop with an error or mark its pid and arrival as seen and
        hold its PCB as the next one to admit. */
    method ReadNext()
      requires Core() && !finished && !error
      modifies Repr
      ensures Valid() && fresh(Repr - old(Repr)) && Admitted() == old(pos)
      ensures old(pos) == |input| ==> finished && pos == old(pos)
      ensures old(pos) < |input| ==> (
        && !finished
        && (error <==> Rejects(input[old(pos)], lastArr, SeenPids(input[..old(pos)])))
        && (!error ==> pos == old(pos) + 1 && nextPCB == PCBOf(input[old(pos)]))
        && (error ==> pos == old(pos)))
    {
      if pos == |input| {
        finished := true;
        return;
      }
      var vals := input[pos];
      Grow(vals);
      var err := false;
      if vals.arrival < 0 && !err { err := true; }
      if vals.burst <= 0 && !err { err := true; }
      if vals.arrival < lastArr && !err { err := true; }
      if pids[vals.pid] { err := true; }
      if err {
        error := true;
        return;
      }
      Accept(vals);
      nextPCB := PCBOf(vals);
    }

    /** Double the arrays until both the line's pid and its arrival index
        fit. */
    method Grow(vals: Record)
      requires Core() && vals.pid >= 0
      modifies this`arrSize, this`arrivals, this`pids, this`Repr
      ensures Core() && fresh(Repr - old(Repr))
      ensures vals.pid < arrSize && vals.arrival < arrSize
    {
      while vals.pid >= arrSize || vals.arrival >= arrSize
        invariant Core() && fresh(Repr - old(Repr))
        decreases (if vals.pid > vals.arrival then vals.pid else vals.arrival) - arrSize
      {
        DoubleArrays();
      }
    }

    /** Mark an accepted line's pid and arrival as seen and move past it. */
    method Accept(vals: Record)
      requires Core() && pos < |input| && vals == input[pos]
      requires !Rejects(vals, 0, SeenPids(input[..pos])) && vals.pid < arrSize && vals.arrival < arrSize
      modifies this`pos, pids, arrivals
      ensures Core() && pos == old(pos) + 1
    {
      AcceptNext(input, pos);
      arrivals[vals.arrival] := true;
      pids[vals.pid] := true;
      pos := pos + 1;
    }

    /** Double both arrays, keeping the first half and clearing the new half. */
    method DoubleArrays()
      requires Core()
      modifies this`arrSize, this`arrivals, this`pids, this`Repr
      ensures Core() && fresh(Repr - old(Repr))
      ensures arrSize == 2 * old(arrSize) && fresh(pids) && fresh(arrivals)
      ensures forall i :: 0 <= i < arrSize ==> pids[i] == (i < old(arrSize) && old(pids[i]))
      ensures forall i :: 0 <= i < arrSize ==> arrivals[i] == (i < old(arrSize) && old(arrivals[i]))
    {
      var half := arrSize;
      var size := arrSize * 2;
      var tempArrs := new bool[size];
      var tempPids := new bool[size];
      var i := 0;
      while i < size
        modifies tempArrs, tempPids
        invariant 0 <= i <= size
        invariant forall k :: 0 <= k < i ==> tempPids[k] == (k < half && pids[k])
        invariant forall k :: 0 <= k < i ==> tempArrs[k] == (k < half && arrivals[k])
      {
        if i < half {
          tempArrs[i] := arrivals[i];
          tempPids[i] := pids[i];
        } else {
          tempArrs[i] := false;
          tempPids[i] := false;
        }
        i := i + 1;
      }
      arrSize := size;
      arrivals := tempArrs;
      pids := tempPids;
      Repr := Repr + {pids, arrivals};
    }
  }
}
