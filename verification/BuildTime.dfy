/** Weighted build times (tools/report_build_time_ninja.py): a sweep over start and stop events that
    divides elapsed time among the tasks running at once.  Times are exact reals. */
module BuildTime {
  import opened Prelude
  import Sorting

  datatype Task = Task(start: real, end: real)

  datatype Event = Event(time: real, stop: bool, task: nat)

  function StartOf(tasks: seq<Task>, j: nat): Event
    requires j < |tasks|
  {
    Event(tasks[j].start, false, j)
  }

  function StopOf(tasks: seq<Task>, j: nat): Event
    requires j < |tasks|
  {
    Event(tasks[j].end, true, j)
  }

  /** The sort key: time, and at the same time "start" before "stop". */
  predicate Before(a: Event, b: Event) {
    a.time < b.time || (a.time == b.time && (a.stop ==> b.stop))
  }

  ghost predicate Sorted(es: seq<Event>) {
    forall i, j | 0 <= i < j < |es| :: Before(es[i], es[j])
  }

  /** The start and the stop of every task, once each, and nothing else. */
  ghost predicate AllEvents(tasks: seq<Task>, es: seq<Event>) {
    && Distinct(es)
    && (forall j | 0 <= j < |tasks| :: StartOf(tasks, j) in es)
    && (forall j | 0 <= j < |tasks| :: StopOf(tasks, j) in es)
    && (forall e | e in es :: e.task < |tasks| && e == if e.stop then StopOf(tasks, e.task) else StartOf(tasks, e.task))
  }

  /** Sorting keeps the events what they are. */
  lemma PermutedEvents(tasks: seq<Task>, es: seq<Event>, r: seq<Event>)
    requires AllEvents(tasks, es) && multiset(r) == multiset(es)
    ensures AllEvents(tasks, r)
  {
    Sorting.PartOfDistinct(r, es);
    forall e ensures e in r <==> e in es { assert e in multiset(r) <==> e in multiset(es); }
  }

  // ----- What the sweep is to compute

  /** Tasks among the first `n` that run all through the time from `lo` to `hi`. */
  ghost function Overlap(tasks: seq<Task>, lo: real, hi: real, n: nat): set<nat>
    requires n <= |tasks|
  {
    set j: nat | j < n && tasks[j].start <= lo && hi <= tasks[j].end
  }

  /** The time stamps of the events. */
  ghost function Times(es: seq<Event>): seq<real> { seq(|es|, i requires 0 <= i < |es| => es[i].time) }

  ghost predicate Increasing(ts: seq<real>) { forall i, j | 0 <= i < j < |ts| :: ts[i] <= ts[j] }

  /** What each running task gets of the segment from stamp `k - 1` to stamp `k`. */
  ghost function Part(tasks: seq<Task>, ts: seq<real>, k: nat): real
    requires 0 < k < |ts|
  {
    var running := Overlap(tasks, ts[k - 1], ts[k], |tasks|);
    if ts[k - 1] < ts[k] && running != {} then (ts[k] - ts[k - 1]) / |running| as real else 0.0
  }

  /** Task `j`'s share of the segments between the first `k` stamps that lie in its interval. */
  ghost function Share(tasks: seq<Task>, ts: seq<real>, j: nat, k: nat): real
    requires j < |tasks| && k <= |ts|
  {
    if k <= 1 then 0.0
    else
      Share(tasks, ts, j, k - 1)
      + if tasks[j].start <= ts[k - 2] && ts[k - 1] <= tasks[j].end then Part(tasks, ts, k - 1) else 0.0
  }

  ghost function Level(tasks: seq<Task>, ts: seq<real>, k: nat): real
    requires k <= |ts|
  {
    if k <= 1 then 0.0 else Level(tasks, ts, k - 1) + Part(tasks, ts, k - 1)
  }

  /** The time between the first `k` stamps during which at least one task runs. */
  ghost function Busy(tasks: seq<Task>, ts: seq<real>, k: nat): real
    requires k <= |ts|
  {
    if k <= 1 then 0.0
    else
      Busy(tasks, ts, k - 1)
      + if Overlap(tasks, ts[k - 2], ts[k - 1], |tasks|) != {} then ts[k - 1] - ts[k - 2] else 0.0
  }

  ghost function SumShares(tasks: seq<Task>, ts: seq<real>, n: nat, k: nat): real
    requires n <= |tasks| && k <= |ts|
  {
    if n == 0 then 0.0 else SumShares(tasks, ts, n - 1, k) + Share(tasks, ts, n - 1, k)
  }

  // ----- Conservation

  /** A segment in its interval gives task `j` the segment's part. */
  lemma ShareStep(tasks: seq<Task>, ts: seq<real>, j: nat, k: nat, part: real)
    requires j < |tasks| && 2 <= k <= |ts| && part == Part(tasks, ts, k - 1)
    ensures Share(tasks, ts, j, k)
            == Share(tasks, ts, j, k - 1)
               + if tasks[j].start <= ts[k - 2] && ts[k - 1] <= tasks[j].end then part else 0.0
  {
  }

  lemma OverlapStep(tasks: seq<Task>, lo: real, hi: real, n: nat)
    requires 0 < n <= |tasks|
    ensures |Overlap(tasks, lo, hi, n)|
            == |Overlap(tasks, lo, hi, n - 1)| + if tasks[n - 1].start <= lo && hi <= tasks[n - 1].end then 1 else 0
  {
    var fewer, more := Overlap(tasks, lo, hi, n - 1), Overlap(tasks, lo, hi, n);
    if tasks[n - 1].start <= lo && hi <= tasks[n - 1].end {
      assert more == fewer + {n - 1};
    } else {
      assert more == fewer;
    }
  }

  /** `x` added up `count` times. */
  ghost function Repeated(count: nat, x: real): real {
    if count == 0 then 0.0 else Repeated(count - 1, x) + x
  }

  lemma {:induction false} RepeatedIsProduct(count: nat, x: real)
    ensures Repeated(count, x) == count as real * x
  {
    if count > 0 { RepeatedIsProduct(count - 1, x); }
  }

  lemma {:induction false} OneSegment(tasks: seq<Task>, ts: seq<real>, n: nat, k: nat, lo: real, hi: real, part: real)
    requires n <= |tasks| && 2 <= k <= |ts| && lo == ts[k - 2] && hi == ts[k - 1] && part == Part(tasks, ts, k - 1)
    ensures SumShares(tasks, ts, n, k) == SumShares(tasks, ts, n, k - 1) + Repeated(|Overlap(tasks, lo, hi, n)|, part)
  {
    if n > 0 {
      OneSegment(tasks, ts, n - 1, k, lo, hi, part);
      ShareStep(tasks, ts, n - 1, k, part);
      OverlapStep(tasks, lo, hi, n);
    } else {
      assert Overlap(tasks, lo, hi, n) == {};
    }
  }

  /** The shares of all tasks add up to the time during which at least one task runs. */
  lemma {:induction false} SharesAddUp(tasks: seq<Task>, ts: seq<real>, k: nat)
    requires Increasing(ts) && k <= |ts|
    ensures SumShares(tasks, ts, |tasks|, k) == Busy(tasks, ts, k)
  {
    if k <= 1 {
      NoShares(tasks, ts, |tasks|, k);
    } else {
      SharesAddUp(tasks, ts, k - 1);
      var part := Part(tasks, ts, k - 1);
      OneSegment(tasks, ts, |tasks|, k, ts[k - 2], ts[k - 1], part);
      PartsOfSegment(tasks, ts, k, part);
    }
  }

  /** What the running tasks get of a segment is all of it, if any task runs. */
  lemma PartsOfSegment(tasks: seq<Task>, ts: seq<real>, k: nat, part: real)
    requires Increasing(ts) && 2 <= k <= |ts| && part == Part(tasks, ts, k - 1)
    ensures var running := Overlap(tasks, ts[k - 2], ts[k - 1], |tasks|);
            Repeated(|running|, part) == if running != {} then ts[k - 1] - ts[k - 2] else 0.0
  {
    var running := Overlap(tasks, ts[k - 2], ts[k - 1], |tasks|);
    RepeatedIsProduct(|running|, part);
    assert ts[k - 2] <= ts[k - 1];
    if running != {} && ts[k - 2] < ts[k - 1] { PartsMakeWhole(ts[k - 1] - ts[k - 2], |running| as real); }
  }

  lemma PartsMakeWhole(x: real, n: real)
    requires n > 0.0
    ensures n * (x / n) == x
  {
  }

  lemma {:induction false} NoShares(tasks: seq<Task>, ts: seq<real>, n: nat, k: nat)
    requires n <= |tasks| && k <= |ts| && k <= 1
    ensures SumShares(tasks, ts, n, k) == 0.0
  {
    if n > 0 { NoShares(tasks, ts, n - 1, k); }
  }

  /** No positive stretch of time without a running task. */
  ghost predicate NoGap(tasks: seq<Task>, ts: seq<real>, k: nat)
    requires k <= |ts|
  {
    forall i | 1 <= i < k :: ts[i - 1] < ts[i] ==> Overlap(tasks, ts[i - 1], ts[i], |tasks|) != {}
  }

  /** Busy time is at most the time from first to last stamp, and all of it exactly without gaps. */
  lemma {:induction false} BusyIsLengthWithoutGap(tasks: seq<Task>, ts: seq<real>, k: nat)
    requires Increasing(ts) && 1 <= k <= |ts|
    ensures Busy(tasks, ts, k) <= ts[k - 1] - ts[0]
    ensures Busy(tasks, ts, k) == ts[k - 1] - ts[0] <==> NoGap(tasks, ts, k)
  {
    if k > 1 {
      BusyIsLengthWithoutGap(tasks, ts, k - 1);
      assert ts[k - 2] <= ts[k - 1];
      assert NoGap(tasks, ts, k) <==>
             NoGap(tasks, ts, k - 1) && (ts[k - 2] < ts[k - 1] ==> Overlap(tasks, ts[k - 2], ts[k - 1], |tasks|) != {});
    }
  }

  function Earlier(x: real, y: real): real { if x < y then x else y }

  lemma PartBounds(tasks: seq<Task>, ts: seq<real>, k: nat)
    requires Increasing(ts) && 0 < k < |ts|
    ensures 0.0 <= Part(tasks, ts, k) <= ts[k] - ts[k - 1]
  {
    var running := Overlap(tasks, ts[k - 1], ts[k], |tasks|);
    assert ts[k - 1] <= ts[k];
    if ts[k - 1] < ts[k] && running != {} { QuotientBounds(ts[k] - ts[k - 1], |running| as real); }
  }

  lemma QuotientBounds(x: real, n: real)
    requires x >= 0.0 && n >= 1.0
    ensures 0.0 <= x / n <= x
  {
    var q := x / n;
    assert q * n == x;
    assert q < 0.0 ==> q * n < 0.0;
    assert q >= 0.0 ==> q * n >= q;
  }

  /** A task's share is never negative and never more than the part of its interval swept so far. */
  lemma {:induction false} ShareBounds(tasks: seq<Task>, ts: seq<real>, j: nat, k: nat)
    requires Increasing(ts) && j < |tasks| && 1 <= k <= |ts|
    ensures 0.0 <= Share(tasks, ts, j, k) <= Max(0.0, Earlier(ts[k - 1], tasks[j].end) - tasks[j].start)
  {
    if k > 1 {
      ShareBounds(tasks, ts, j, k - 1);
      PartBounds(tasks, ts, k - 1);
    }
  }

  lemma ShareWithinDuration(tasks: seq<Task>, ts: seq<real>, j: nat)
    requires Increasing(ts) && j < |tasks| && tasks[j].start <= tasks[j].end
    ensures 0.0 <= Share(tasks, ts, j, |ts|) <= tasks[j].end - tasks[j].start
  {
    if |ts| > 0 { ShareBounds(tasks, ts, j, |ts|); }
  }
}
