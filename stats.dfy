// The statistics collector: per-tick wait-time accrual over the ready
// queue, the end-of-run tally of the finished queue, and the lifecycle
// timeline grid (rows are half-tick times, columns the five states).

module Stats {
  import opened Records
  import opened Containers

  // ---------------------------------------------------------------------
  // Wait-time accrual

  /** Every record of the queue has waited `inc` more half-ticks. */
  function WithWait(q: seq<PCB>, inc: int): (r: seq<PCB>)
    ensures |r| == |q|
    ensures forall i :: 0 <= i < |q| ==> r[i].waitTime == q[i].waitTime + inc
  {
    seq(|q|, i requires 0 <= i < |q| => q[i].(waitTime := q[i].waitTime + inc))
  }

  /** Accrual changes neither membership, nor order, nor any field but the
      wait time. */
  lemma WithWaitKeepsQueue(q: seq<PCB>, inc: int)
    ensures PidSeq(WithWait(q, inc)) == PidSeq(q)
    ensures forall i :: 0 <= i < |q| ==> WithWait(q, inc)[i].(waitTime := q[i].waitTime) == q[i]
  {
    assert PidSeq(WithWait(q, inc)) == PidSeq(q);
  }

  // ---------------------------------------------------------------------
  // The lifecycle grid

  /** `mapStateToColumn`. */
  function MapStateToColumn(state: ProcessState): (c: int)
    ensures 0 <= c < 5
  {
    match state
    case Created => 0
    case InReadyQueue => 1
    case InRunningQueue => 2
    case InBlockedQueue => 3
    case Completed => 4
  }

  /** The column map is injective onto [0, 5), in lifecycle order. */
  lemma MapStateToColumnInjective(a: ProcessState, b: ProcessState)
    ensures MapStateToColumn(a) == MapStateToColumn(b) <==> a == b
    ensures MapStateToColumn(Created) == 0 && MapStateToColumn(InReadyQueue) == 1
    ensures MapStateToColumn(InRunningQueue) == 2 && MapStateToColumn(InBlockedQueue) == 3
    ensures MapStateToColumn(Completed) == 4
  {
  }

  /** `compareCpuTimes`, the order `std::sort` uses. */
  predicate CompareCpuTimes(a: PCBStatus, b: PCBStatus) {
    a.GetRecordedCpuTime() < b.GetRecordedCpuTime()
  }

  /** The comparison is a strict weak order, as `std::sort` requires;
      events of equal time are incomparable, so their relative order after
      the sort is unspecified. */
  lemma CompareCpuTimesStrictWeak(a: PCBStatus, b: PCBStatus, c: PCBStatus)
    ensures !CompareCpuTimes(a, a)
    ensures CompareCpuTimes(a, b) && CompareCpuTimes(b, c) ==> CompareCpuTimes(a, c)
    ensures !CompareCpuTimes(a, b) && !CompareCpuTimes(b, a) <==> a.GetRecordedCpuTime() == b.GetRecordedCpuTime()
  {
  }

  /** The event log after `std::sort`: times non-decreasing. */
  predicate SortedByTime(es: seq<PCBStatus>) {
    forall i, j :: 0 <= i < j < |es| ==> es[i].currentCpuClockTime <= es[j].currentCpuClockTime
  }

  /** The grid row of an event, `int(time * 2)`: its time in half-ticks. */
  function RowOf(e: PCBStatus): int {
    e.currentCpuClockTime
  }

  function Digit(d: nat): char
    requires d < 10
  {
    "0123456789"[d]
  }

  function NatToString(n: nat): (r: string)
    ensures |r| > 0
    decreases n
  {
    if n < 10 then [Digit(n)] else NatToString(n / 10) + [Digit(n % 10)]
  }

  /** `std::to_string` on an int. */
  function IntToString(i: int): (r: string)
    ensures |r| > 0
  {
    if i < 0 then "-" + NatToString(-i) else NatToString(i)
  }

  /** The label "P<pid>" of an event in a cell. */
  function Label(pid: int): (r: string)
    ensures |r| > 1 && r[0] == 'P'
  {
    "P" + IntToString(pid)
  }

  /** The labels of the events that fall in cell (row, col), in log order. */
  function CellLabels(es: seq<PCBStatus>, row: int, col: int): seq<string>
    decreases |es|
  {
    if es == [] then []
    else
      var e := es[|es| - 1];
      CellLabels(es[..|es| - 1], row, col)
        + (if RowOf(e) == row && MapStateToColumn(e.currentState) == col then [Label(e.pid)] else [])
  }

  /** Strings joined by ", ". */
  function Join(parts: seq<string>): string
    decreases |parts|
  {
    if parts == [] then ""
    else if |parts| == 1 then parts[0]
    else Join(parts[..|parts| - 1]) + ", " + parts[|parts| - 1]
  }

  /** What a grid cell should read: the labels of its events joined by ", ". */
  function Cell(es: seq<PCBStatus>, row: int, col: int): string {
    Join(CellLabels(es, row, col))
  }

  /** Some event of es falls in this row. */
  predicate RowHit(es: seq<PCBStatus>, row: int) {
    exists i :: 0 <= i < |es| && RowOf(es[i]) == row
  }

  /** A join of non-empty labels is empty only when there are none. */
  lemma {:induction false} JoinEmpty(parts: seq<string>)
    requires forall i :: 0 <= i < |parts| ==> |parts[i]| > 0
    ensures Join(parts) == "" <==> parts == []
    decreases |parts|
  {
    if |parts| > 1 {
      JoinEmpty(parts[..|parts| - 1]);
    }
  }

  lemma {:induction false} CellLabelsNonEmpty(es: seq<PCBStatus>, row: int, col: int)
    ensures forall i :: 0 <= i < |CellLabels(es, row, col)| ==> |CellLabels(es, row, col)[i]| > 1
    decreases |es|
  {
    if es != [] {
      CellLabelsNonEmpty(es[..|es| - 1], row, col);
    }
  }

  /** One more event updates a cell exactly as the grid loop does: the
      first label on an empty cell, otherwise ", " and the label appended. */
  lemma CellSnoc(es: seq<PCBStatus>, e: PCBStatus, row: int, col: int)
    ensures Cell(es + [e], row, col) ==
      if RowOf(e) == row && MapStateToColumn(e.currentState) == col then
        (if Cell(es, row, col) == "" then Label(e.pid) else Cell(es, row, col) + ", " + Label(e.pid))
      else Cell(es, row, col)
  {
    assert (es + [e])[..|es + [e]| - 1] == es;
    var before := CellLabels(es, row, col);
    CellLabelsNonEmpty(es, row, col);
    JoinEmpty(before);
    if RowOf(e) == row && MapStateToColumn(e.currentState) == col {
      var after := before + [Label(e.pid)];
      assert CellLabels(es + [e], row, col) == after;
      assert after[..|after| - 1] == before;
      if before == [] {
        assert after == [Label(e.pid)];
      } else {
        assert Join(after) == Join(before) + ", " + Label(e.pid);
      }
    } else {
      assert CellLabels(es + [e], row, col) == before;
    }
  }

  /** The grid loop's invariant: the matrix shows the cells of the events seen so far. */
  predicate MatrixHolds(matrix: seq<seq<string>>, es: seq<PCBStatus>, rows: int) {
    && |matrix| == rows
    && (forall r :: 0 <= r < rows ==> |matrix[r]| == 5)
    && (forall r, c :: 0 <= r < rows && 0 <= c < 5 ==> matrix[r][c] == Cell(es, r, c))
  }

  /** The grid loop's invariant: the marks show the rows hit so far. */
  predicate MarksHold(rowModified: seq<int>, es: seq<PCBStatus>, rows: int) {
    && |rowModified| == rows
    && (forall r :: 0 <= r < rows ==> rowModified[r] == (if RowHit(es, r) then 1 else 0))
  }

  lemma MatrixStep(matrix: seq<seq<string>>, es: seq<PCBStatus>, e: PCBStatus, rows: int, text: string)
    requires MatrixHolds(matrix, es, rows)
    requires 0 <= RowOf(e) < rows
    requires var row, col := RowOf(e), MapStateToColumn(e.currentState);
      text == if matrix[row][col] == "" then "P" + IntToString(e.pid) else matrix[row][col] + ", P" + IntToString(e.pid)
    ensures var row, col := RowOf(e), MapStateToColumn(e.currentState);
      MatrixHolds(matrix[row := matrix[row][col := text]], es + [e], rows)
  {
    var row, col := RowOf(e), MapStateToColumn(e.currentState);
    var m := matrix[row := matrix[row][col := text]];
    forall r, c | 0 <= r < rows && 0 <= c < 5
      ensures m[r][c] == Cell(es + [e], r, c)
    {
      CellSnoc(es, e, r, c);
    }
  }

  /** One turn of the grid loop keeps both of its invariants. */
  lemma GridStep(matrix: seq<seq<string>>, rowModified: seq<int>, events: seq<PCBStatus>, ix: int, rows: int, text: string)
    requires 0 <= ix < |events| && 0 <= RowOf(events[ix]) < rows
    requires MatrixHolds(matrix, events[..ix], rows) && MarksHold(rowModified, events[..ix], rows)
    requires var e := events[ix]; var row, col := RowOf(e), MapStateToColumn(e.currentState);
      text == if matrix[row][col] == "" then "P" + IntToString(e.pid) else matrix[row][col] + ", P" + IntToString(e.pid)
    ensures var e := events[ix]; var row, col := RowOf(e), MapStateToColumn(e.currentState);
      && MatrixHolds(matrix[row := matrix[row][col := text]], events[..ix + 1], rows)
      && MarksHold(rowModified[row := 1], events[..ix + 1], rows)
  {
    assert events[..ix + 1] == events[..ix] + [events[ix]];
    MatrixStep(matrix, events[..ix], events[ix], rows, text);
    MarksStep(rowModified, events[..ix], events[ix], rows);
  }

  /** Empty cells and no marks show an empty log. */
  lemma EmptyGridHolds(rows: int)
    requires rows >= 0
    ensures MatrixHolds(seq(rows, _ => seq(5, _ => "")), [], rows)
    ensures MarksHold(seq(rows, _ => 0), [], rows)
  {
  }

  lemma MarksStep(rowModified: seq<int>, es: seq<PCBStatus>, e: PCBStatus, rows: int)
    requires MarksHold(rowModified, es, rows)
    requires 0 <= RowOf(e) < rows
    ensures MarksHold(rowModified[RowOf(e) := 1], es + [e], rows)
  {
    var row := RowOf(e);
    forall r | 0 <= r < rows
      ensures RowHit(es + [e], r) == (RowHit(es, r) || r == row)
    {
      if RowHit(es + [e], r) && r != row {
        var i :| 0 <= i < |es| + 1 && RowOf((es + [e])[i]) == r;
        assert i < |es| && es[i] == (es + [e])[i];
      }
      if RowHit(es, r) {
        var i :| 0 <= i < |es| && RowOf(es[i]) == r;
        assert (es + [e])[i] == es[i];
      }
      if r == row {
        assert (es + [e])[|es|] == e;
      }
    }
  }

  /** The timeline grid: `rows` half-tick rows, five columns, and the
      `rowmodified` marks. */
  datatype Grid = Grid(rows: int, matrix: seq<seq<string>>, rowModified: seq<int>)

  /** What the grid of a non-empty sorted log shows: one row per half-tick
      up to the last event's, every event's row in range, each cell holding
      its events' labels joined by ", " in log order, and a row marked
      exactly when some event falls in it. */
  ghost predicate Shows(g: Grid, events: seq<PCBStatus>)
    requires events != []
  {
    && g.rows == RowOf(events[|events| - 1]) + 1
    && (forall i :: 0 <= i < |events| ==> 0 <= RowOf(events[i]) < g.rows)
    && |g.matrix| == g.rows && |g.rowModified| == g.rows
    && (forall r :: 0 <= r < g.rows ==> |g.matrix[r]| == 5)
    && (forall r, c :: 0 <= r < g.rows && 0 <= c < 5 ==> g.matrix[r][c] == Cell(events, r, c))
    && (forall r :: 0 <= r < g.rows ==> (g.rowModified[r] == 1 <==> RowHit(events, r)))
    && (forall r :: 0 <= r < g.rows ==> (g.rowModified[r] == 0 <==> !RowHit(events, r)))
  }

  /** In a sorted log of non-negative times, every event's row is at most
      the last event's. */
  lemma RowsInRange(events: seq<PCBStatus>)
    requires events != [] && SortedByTime(events)
    requires forall i :: 0 <= i < |events| ==> events[i].currentCpuClockTime >= 0
    ensures forall i :: 0 <= i < |events| ==> 0 <= RowOf(events[i]) <= RowOf(events[|events| - 1])
  {
    forall i | 0 <= i < |events|
      ensures 0 <= RowOf(events[i]) <= RowOf(events[|events| - 1])
    {
      if i < |events| - 1 {
        assert events[i].currentCpuClockTime <= events[|events| - 1].currentCpuClockTime;
      }
    }
  }

  /** The loop's invariants on the whole log give what the grid shows. */
  lemma ShowsAtEnd(events: seq<PCBStatus>, rows: int, matrix: seq<seq<string>>, rowModified: seq<int>)
    requires events != [] && rows == RowOf(events[|events| - 1]) + 1
    requires forall i :: 0 <= i < |events| ==> 0 <= RowOf(events[i]) < rows
    requires MatrixHolds(matrix, events, rows) && MarksHold(rowModified, events, rows)
    ensures Shows(Grid(rows, matrix, rowModified), events)
  {
  }

  /** The grid-building part of `printProcessLifecycle`, over the event log
      as `std::sort` left it (any order among equal times). The log must not
      be empty: `at(size() - 1)` throws on an empty vector. Every event's
      row is in bounds; each cell holds its events' labels joined by ", " in
      log order; a row is marked exactly when some event falls in it. */
  method BuildLifecycleGrid(events: seq<PCBStatus>) returns (g: Option<Grid>)
    requires SortedByTime(events)
    requires forall i :: 0 <= i < |events| ==> events[i].currentCpuClockTime >= 0
    ensures events == [] <==> g.None?
    ensures g.Some? ==> events != [] && Shows(g.value, events)
  {
    if events == [] {
      return None;
    }
    var rows := RowOf(events[|events| - 1]) + 1;
    RowsInRange(events);
    var matrix, rowModified := FillGrid(events, rows);
    ShowsAtEnd(events, rows, matrix, rowModified);
    return Some(Grid(rows, matrix, rowModified));
  }

  /** The grid loop: start from empty cells and no marks, then place each
      event's label in its row and column and mark its row. */
  method FillGrid(events: seq<PCBStatus>, rows: int) returns (matrix: seq<seq<string>>, rowModified: seq<int>)
    requires rows >= 0
    requires forall i :: 0 <= i < |events| ==> 0 <= RowOf(events[i]) < rows
    ensures MatrixHolds(matrix, events, rows) && MarksHold(rowModified, events, rows)
  {
    matrix := seq(rows, _ => seq(5, _ => ""));
    rowModified := seq(rows, _ => 0);
    var ix := 0;
    assert events[..0] == [];
    EmptyGridHolds(rows);
    while ix < |events|
      invariant 0 <= ix <= |events|
      invariant MatrixHolds(matrix, events[..ix], rows)
      invariant MarksHold(rowModified, events[..ix], rows)
    {
      var status := events[ix];
      var row := RowOf(status);
      var col := MapStateToColumn(status.GetRecordedState());
      var text := if matrix[row][col] == "" then "P" + IntToString(status.GetPid())
                  else matrix[row][col] + ", P" + IntToString(status.GetPid());
      GridStep(matrix, rowModified, events, ix, rows, text);
      rowModified := rowModified[row := 1];
      matrix := matrix[row := matrix[row][col := text]];
      ix := ix + 1;
    }
    assert events[..ix] == events;
  }

  // ---------------------------------------------------------------------
  // The end-of-run tally

  /** The five columns summed by `print`. */
  datatype Field = Burst | Turnaround | Wait | Response | Contexts

  /** Turnaround: finish time minus arrival (in half-ticks). */
  function TurnaroundOf(p: PCB): int {
    p.finishTime - 2 * p.arrival
  }

  /** What one finished record adds to a column: burst in whole units, the
      times in half-ticks, the context-switch count as is. */
  function Measure(p: PCB, fld: Field): int {
    match fld
    case Burst => p.burst
    case Turnaround => TurnaroundOf(p)
    case Wait => p.waitTime
    case Response => p.respTime
    case Contexts => p.numContext
  }

  /** The inner loop of the tally: the records of f with this pid. */
  function SumWithPid(f: seq<PCB>, id: int, fld: Field): int
    decreases |f|
  {
    if f == [] then 0
    else
      var p := f[|f| - 1];
      SumWithPid(f[..|f| - 1], id, fld) + (if p.pid == id then Measure(p, fld) else 0)
  }

  /** The outer loop of the tally: pids 1..n in turn. */
  function SumIds(f: seq<PCB>, n: int, fld: Field): int
    decreases n
  {
    if n <= 0 then 0 else SumIds(f, n - 1, fld) + SumWithPid(f, n, fld)
  }

  /** The records of f whose pid lies in 1..n, each once, in queue order. */
  function SumInRange(f: seq<PCB>, n: int, fld: Field): int
    decreases |f|
  {
    if f == [] then 0
    else
      var p := f[|f| - 1];
      SumInRange(f[..|f| - 1], n, fld) + (if 1 <= p.pid <= n then Measure(p, fld) else 0)
  }

  /** All records of f. */
  function SumAll(f: seq<PCB>, fld: Field): int
    decreases |f|
  {
    if f == [] then 0 else SumAll(f[..|f| - 1], fld) + Measure(f[|f| - 1], fld)
  }

  lemma {:induction false} SumInRangeStep(f: seq<PCB>, n: int, fld: Field)
    requires n >= 0
    ensures SumInRange(f, n + 1, fld) == SumInRange(f, n, fld) + SumWithPid(f, n + 1, fld)
    decreases |f|
  {
    if f != [] {
      SumInRangeStep(f[..|f| - 1], n, fld);
    }
  }

  lemma {:induction false} SumInRangeNone(f: seq<PCB>, fld: Field)
    ensures SumInRange(f, 0, fld) == 0
    decreases |f|
  {
    if f != [] {
      SumInRangeNone(f[..|f| - 1], fld);
    }
  }

  /** The pid-by-pid tally counts exactly the finished records whose pid is
      in 1..n, each once. */
  lemma {:induction false} SumIdsIsSumInRange(f: seq<PCB>, n: nat, fld: Field)
    ensures SumIds(f, n, fld) == SumInRange(f, n, fld)
  {
    if n == 0 {
      SumInRangeNone(f, fld);
    } else {
      SumIdsIsSumInRange(f, n - 1, fld);
      SumInRangeStep(f, n - 1, fld);
    }
  }

  /** When every finished pid lies in 1..n (the workload numbers its
      processes 1..N), the tally covers every finished record. */
  lemma {:induction false} SumInRangeAll(f: seq<PCB>, n: int, fld: Field)
    requires forall i :: 0 <= i < |f| ==> 1 <= f[i].pid <= n
    ensures SumInRange(f, n, fld) == SumAll(f, fld)
    decreases |f|
  {
    if f != [] {
      SumInRangeAll(f[..|f| - 1], n, fld);
    }
  }

  /** The column totals of `print`. */
  datatype Totals = Totals(burst: int, turnaround: int, wait: int, response: int, contexts: int)

  class StatUpdater {
    const readyQueue: DList
    const finishedQueue: DList
    const clock: Clock
    const algorithm: int
    const timeq: int
    var lastUpdate: int
    const log: StatusLog

    constructor (rq: DList, fq: DList, cl: Clock, alg: int, tq: int, vec: StatusLog)
      ensures readyQueue == rq && finishedQueue == fq && clock == cl && log == vec
      ensures algorithm == alg && timeq == tq && lastUpdate == 0
    {
      readyQueue := rq;
      finishedQueue := fq;
      clock := cl;
      algorithm := alg;
      timeq := tq;
      lastUpdate := 0;
      log := vec;
    }

    /** Called once per tick: every ready record accrues the time elapsed
        since the previous call (which includes any context-switch half-tick
        charged in between). */
    method Execute()
      modifies this, readyQueue
      ensures lastUpdate == clock.time
      ensures readyQueue.items == WithWait(old(readyQueue.items), clock.time - old(lastUpdate))
    {
      var increment := clock.time - lastUpdate;
      lastUpdate := clock.time;
      var index := 0;
      while index < readyQueue.Size()
        invariant 0 <= index <= |readyQueue.items| == |old(readyQueue.items)|
        invariant lastUpdate == clock.time
        invariant readyQueue.items[..index] == WithWait(old(readyQueue.items), increment)[..index]
        invariant readyQueue.items[index..] == old(readyQueue.items)[index..]
      {
        var temp := readyQueue.items[index];
        readyQueue.SetIndex(index, temp.(waitTime := temp.waitTime + increment));
        index := index + 1;
      }
    }

    /** The tally of `print`: for each pid 1..N (N = size of the finished
        queue), every finished record with that pid; a record whose pid lies
        outside 1..N is not counted. */
    method Tally() returns (t: Totals)
      ensures t.burst == SumInRange(finishedQueue.items, |finishedQueue.items|, Burst)
      ensures t.turnaround == SumInRange(finishedQueue.items, |finishedQueue.items|, Turnaround)
      ensures t.wait == SumInRange(finishedQueue.items, |finishedQueue.items|, Wait)
      ensures t.response == SumInRange(finishedQueue.items, |finishedQueue.items|, Response)
      ensures t.contexts == SumInRange(finishedQueue.items, |finishedQueue.items|, Contexts)
    {
      var f := finishedQueue.items;
      var numTasks := |f|;
      var totBurst, totTurn, totWait, totResp, contexts := 0, 0, 0, 0, 0;
      var id := 1;
      while id < numTasks + 1
        invariant 1 <= id <= numTasks + 1
        invariant totBurst == SumIds(f, id - 1, Burst) && totTurn == SumIds(f, id - 1, Turnaround)
        invariant totWait == SumIds(f, id - 1, Wait) && totResp == SumIds(f, id - 1, Response)
        invariant contexts == SumIds(f, id - 1, Contexts)
      {
        var index := 0;
        while index < |f|
          invariant 0 <= index <= |f|
          invariant totBurst == SumIds(f, id - 1, Burst) + SumWithPid(f[..index], id, Burst)
          invariant totTurn == SumIds(f, id - 1, Turnaround) + SumWithPid(f[..index], id, Turnaround)
          invariant totWait == SumIds(f, id - 1, Wait) + SumWithPid(f[..index], id, Wait)
          invariant totResp == SumIds(f, id - 1, Response) + SumWithPid(f[..index], id, Response)
          invariant contexts == SumIds(f, id - 1, Contexts) + SumWithPid(f[..index], id, Contexts)
        {
          assert f[..index + 1][..index] == f[..index];
          if f[index].pid == id {
            var temp := f[index];
            var turnaround := temp.finishTime - 2 * temp.arrival;
            totBurst := totBurst + temp.burst;
            totTurn := totTurn + turnaround;
            totWait := totWait + temp.waitTime;
            totResp := totResp + temp.respTime;
            contexts := contexts + temp.numContext;
          }
          index := index + 1;
        }
        assert f[..index] == f;
        id := id + 1;
      }
      SumIdsIsSumInRange(f, numTasks, Burst);
      SumIdsIsSumInRange(f, numTasks, Turnaround);
      SumIdsIsSumInRange(f, numTasks, Wait);
      SumIdsIsSumInRange(f, numTasks, Response);
      SumIdsIsSumInRange(f, numTasks, Contexts);
      t := Totals(totBurst, totTurn, totWait, totResp, contexts);
    }
  }
}
