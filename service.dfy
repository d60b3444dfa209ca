// The I/O service of `main`: blocked records whose I/O is done return to
// the ready queue; the others are served half a unit.

module Service {
  import opened Records
  import opened Containers

  // ---------------------------------------------------------------------
  // The I/O service

  /** The blocked records whose I/O is done (burst at or below zero), in order. */
  function Released(s: seq<PCB>): seq<PCB>
    decreases |s|
  {
    if s == [] then []
    else
      var last := s[|s| - 1];
      Released(s[..|s| - 1]) + (if last.ioBurst <= 0 then [last] else [])
  }

  /** The blocked records still waiting on I/O, in order. */
  function Kept(s: seq<PCB>): seq<PCB>
    decreases |s|
  {
    if s == [] then []
    else
      var last := s[|s| - 1];
      Kept(s[..|s| - 1]) + (if last.ioBurst > 0 then [last] else [])
  }

  /** Half a unit of I/O served on every record. */
  function Drained(s: seq<PCB>): (r: seq<PCB>)
    ensures |r| == |s|
  {
    seq(|s|, i requires 0 <= i < |s| => s[i].(ioBurst := s[i].ioBurst - 1))
  }

  /** The READY events, at time `now`, of the released records. */
  function ReleaseEvents(r: seq<PCB>, now: int): (es: seq<PCBStatus>)
    ensures |es| == |r|
  {
    seq(|r|, i requires 0 <= i < |r| => PCBStatus(InReadyQueue, now, r[i].pid))
  }

  /** Released records have used up their I/O; kept ones still owe some. */
  lemma {:induction false} ReleasedKeptSides(s: seq<PCB>)
    ensures forall i :: 0 <= i < |Released(s)| ==> Released(s)[i].ioBurst <= 0
    ensures forall i :: 0 <= i < |Kept(s)| ==> Kept(s)[i].ioBurst > 0
    decreases |s|
  {
    if s != [] {
      ReleasedKeptSides(s[..|s| - 1]);
    }
  }

  /** The released and the kept records split the blocked queue: every
      record goes to exactly one side. */
  lemma {:induction false} ReleasedKeptPartition(s: seq<PCB>)
    ensures |Released(s)| + |Kept(s)| == |s|
    ensures multiset(Released(s)) + multiset(Kept(s)) == multiset(s)
    decreases |s|
  {
    if s != [] {
      var init, last := s[..|s| - 1], s[|s| - 1];
      ReleasedKeptPartition(init);
      assert s == init + [last];
    }
  }

  /** Together the released and the kept records hold the pids of the
      blocked queue. */
  lemma {:induction false} ReleasedKeptPids(s: seq<PCB>)
    ensures Pids(Released(s)) + Pids(Kept(s)) == Pids(s)
    decreases |s|
  {
    if s != [] {
      var init, last := s[..|s| - 1], s[|s| - 1];
      ReleasedKeptPids(init);
      assert s == init + [last];
      PidsAppend(init, [last]);
      PidsAppend(Released(init), if last.ioBurst <= 0 then [last] else []);
      PidsAppend(Kept(init), if last.ioBurst > 0 then [last] else []);
    }
  }

  /** Serving I/O keeps the pids of the blocked queue. */
  lemma DrainedPids(s: seq<PCB>)
    ensures Pids(Drained(s)) == Pids(s)
  {
    assert PidSeq(Drained(s)) == PidSeq(s);
  }

  /** No blocked record owes a negative amount of I/O. */
  predicate IoNonNegative(blocked: seq<PCB>) {
    forall i :: 0 <= i < |blocked| ==> blocked[i].ioBurst >= 0
  }

  /** A blocked queue whose bursts are never negative releases only records
      whose I/O is exactly used up, and stays non-negative after service. */
  lemma {:induction false} ReleasedAtZero(s: seq<PCB>)
    requires IoNonNegative(s)
    ensures forall i :: 0 <= i < |Released(s)| ==> Released(s)[i].ioBurst == 0
    ensures IoNonNegative(Drained(Kept(s)))
    decreases |s|
  {
    ReleasedKeptSides(s);
    if s != [] {
      ReleasedAtZero(s[..|s| - 1]);
    }
  }

  /** Released and Kept extend one record at a time. */
  lemma SplitStep(s: seq<PCB>, j: nat)
    requires j < |s|
    ensures Released(s[..j + 1]) == Released(s[..j]) + (if s[j].ioBurst <= 0 then [s[j]] else [])
    ensures Kept(s[..j + 1]) == Kept(s[..j]) + (if s[j].ioBurst > 0 then [s[j]] else [])
  {
    assert s[..j + 1][..j] == s[..j];
  }

  /** One turn of the release loop over the blocked queue `items`, which
      holds the kept part of the first j original records followed by the
      rest: the record under the cursor is the j-th original, and either
      removing it or stepping over it leaves the same shape for j + 1. */
  lemma ServeStep(blocked: seq<PCB>, j: nat, items: seq<PCB>, released: seq<PCB>, kept: seq<PCB>, now: int)
    requires j < |blocked| && released == Released(blocked[..j]) && kept == Kept(blocked[..j])
    requires items == kept + blocked[j..]
    ensures |kept| < |items| && items[|kept|] == blocked[j]
    ensures var p := blocked[j];
      && (p.ioBurst <= 0 ==>
            && released + [p] == Released(blocked[..j + 1]) && kept == Kept(blocked[..j + 1])
            && items[..|kept|] + items[|kept| + 1..] == kept + blocked[j + 1..]
            && ReleaseEvents(released + [p], now) == ReleaseEvents(released, now) + [PCBStatus(InReadyQueue, now, p.pid)])
      && (p.ioBurst > 0 ==>
            && released == Released(blocked[..j + 1]) && kept + [p] == Kept(blocked[..j + 1])
            && items == kept + [p] + blocked[j + 1..])
  {
    SplitStep(blocked, j);
    assert blocked[j..] == [blocked[j]] + blocked[j + 1..];
    assert items[..|kept|] == kept;
    assert items[|kept| + 1..] == blocked[j + 1..];
    ReleaseEventsSnoc(released, blocked[j], now);
  }

  lemma ReleaseEventsSnoc(r: seq<PCB>, p: PCB, now: int)
    ensures ReleaseEvents(r + [p], now) == ReleaseEvents(r, now) + [PCBStatus(InReadyQueue, now, p.pid)]
  {
  }

  /** `serveIO`: move every blocked record whose I/O is done to the ready
      tail, in blocked order, each with a READY event at the current time;
      then serve half a unit of I/O on every record still blocked. */
  method ServeIO(rq: DList, bq: DList, clock: Clock, stateVec: StatusLog)
    requires rq != bq
    modifies rq, bq, stateVec
    ensures rq.items == old(rq.items) + Released(old(bq.items))
    ensures bq.items == Drained(Kept(old(bq.items)))
    ensures stateVec.events == old(stateVec.events) + ReleaseEvents(Released(old(bq.items)), clock.time)
  {
    if bq.Size() > 0 {
      ReleaseDone(rq, bq, clock, stateVec);
      DrainBlocked(bq);
    }
  }

  /** The first loop of `serveIO`: the index steps back after each removal,
      so every record is examined once, in order. */
  method ReleaseDone(rq: DList, bq: DList, clock: Clock, stateVec: StatusLog)
    requires rq != bq
    modifies rq, bq, stateVec
    ensures rq.items == old(rq.items) + Released(old(bq.items))
    ensures bq.items == Kept(old(bq.items))
    ensures stateVec.events == old(stateVec.events) + ReleaseEvents(Released(old(bq.items)), clock.time)
  {
    ghost var blocked, ready, events := bq.items, rq.items, stateVec.events;
    ghost var released, kept := [], [];
    var i := 0;
    ghost var j := 0;
    while i < bq.Size()
      invariant 0 <= j <= |blocked| && i == |kept|
      invariant released == Released(blocked[..j]) && kept == Kept(blocked[..j])
      invariant bq.items == kept + blocked[j..]
      invariant rq.items == ready + released
      invariant stateVec.events == events + ReleaseEvents(released, clock.time)
      decreases |blocked| - j
    {
      ServeStep(blocked, j, bq.items, released, kept, clock.time);
      var p := bq.items[i];
      if p.ioBurst <= 0 {
        stateVec.PushBack(PCBStatus(InReadyQueue, clock.time, p.pid));
        rq.AddEnd(p);
        var _ := bq.RemoveIndex(i);
        released := released + [p];
      } else {
        i := i + 1;
        kept := kept + [p];
      }
      j := j + 1;
    }
    assert j == |blocked| by {
      assert |bq.items| == |kept| + |blocked| - j;
    }
    assert blocked[..j] == blocked;
  }

  /** The second loop of `serveIO`: half a unit of I/O off every record. */
  method DrainBlocked(bq: DList)
    modifies bq
    ensures bq.items == Drained(old(bq.items))
  {
    var k := 0;
    while k < bq.Size()
      invariant 0 <= k <= |bq.items| == |old(bq.items)|
      invariant forall m :: 0 <= m < k ==> bq.items[m] == Drained(old(bq.items))[m]
      invariant forall m :: k <= m < |bq.items| ==> bq.items[m] == old(bq.items)[m]
    {
      var q := bq.items[k];
      bq.SetIndex(k, q.(ioBurst := q.ioBurst - 1));
      k := k + 1;
    }
    assert bq.items == Drained(old(bq.items));
  }
}
