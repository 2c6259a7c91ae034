/** The sweep itself (SummarizeEntries), and what its running totals stand for. */
module BuildTimeSweep {
  import opened BuildTime
  import opened Prelude
  import Sorting

  class Target {
    const start: real
    const end: real
    var weightedDuration: real

    constructor (start: real, end: real)
      ensures this.start == start && this.end == end && weightedDuration == 0.0
    {
      this.start, this.end, weightedDuration := start, end, 0.0;
    }
  }

  function TasksOf(entries: seq<Target>): (tasks: seq<Task>)
    ensures |tasks| == |entries|
  {
    seq(|entries|, j requires 0 <= j < |entries| => Task(entries[j].start, entries[j].end))
  }

  ghost predicate Started(tasks: seq<Task>, es: seq<Event>, k: nat, j: nat)
    requires k <= |es| && j < |tasks|
  {
    StartOf(tasks, j) in es[..k]
  }

  ghost predicate Stopped(tasks: seq<Task>, es: seq<Event>, k: nat, j: nat)
    requires k <= |es| && j < |tasks|
  {
    StopOf(tasks, j) in es[..k]
  }

  ghost predicate Running(tasks: seq<Task>, es: seq<Event>, k: nat, j: nat)
    requires k <= |es| && j < |tasks|
  {
    Started(tasks, es, k, j) && !Stopped(tasks, es, k, j)
  }

  ghost predicate Schedule(tasks: seq<Task>, es: seq<Event>) {
    AllEvents(tasks, es) && Sorted(es)
  }

  lemma TimesIncrease(es: seq<Event>)
    requires Sorted(es)
    ensures Increasing(Times(es))
  {
    forall i, j | 0 <= i < j < |es| ensures Times(es)[i] <= Times(es)[j] { assert Before(es[i], es[j]); }
  }

  lemma EventAt(tasks: seq<Task>, es: seq<Event>, e: Event, k: nat)
    requires Schedule(tasks, es) && k <= |es| && e in es
    ensures e in es[..k] ==> k > 0 && e.time <= es[k - 1].time
    ensures e !in es[..k] ==> k < |es| && es[k].time <= e.time
  {
    var i :| 0 <= i < |es| && es[i] == e;
    assert i < k ==> es[..k][i] == e;
    assert i < k - 1 ==> Before(es[i], es[k - 1]);
    assert k < i ==> Before(es[k], es[i]);
    assert e in es[..k] ==> i < k by {
      if e in es[..k] {
        var m :| 0 <= m < k && es[..k][m] == e;
        assert es[m] == es[i];
      }
    }
  }

  /** Through a stretch of time of positive length, the tasks started and not stopped are those whose
      interval covers it. */
  lemma RunningCovers(tasks: seq<Task>, es: seq<Event>, k: nat, j: nat)
    requires Schedule(tasks, es) && 0 < k < |es| && j < |tasks| && es[k - 1].time < es[k].time
    ensures Running(tasks, es, k, j) <==> j in Overlap(tasks, es[k - 1].time, es[k].time, |tasks|)
  {
    EventAt(tasks, es, StartOf(tasks, j), k);
    EventAt(tasks, es, StopOf(tasks, j), k);
  }

  // ----- Totals

  ghost function Sum(xs: seq<real>): real {
    if xs == [] then 0.0 else Sum(xs[..|xs| - 1]) + xs[|xs| - 1]
  }

  lemma {:induction false} SumUpdate(xs: seq<real>, j: nat, x: real)
    requires j < |xs|
    ensures Sum(xs[j := x]) == Sum(xs) - xs[j] + x
  {
    var n := |xs| - 1;
    if j < n {
      assert xs[j := x][..n] == xs[..n][j := x];
      SumUpdate(xs[..n], j, x);
    } else {
      assert xs[j := x][..n] == xs[..n];
    }
  }

  lemma {:induction false} SumOfZeros(xs: seq<real>)
    requires forall i | 0 <= i < |xs| :: xs[i] == 0.0
    ensures Sum(xs) == 0.0
  {
    if xs != [] { SumOfZeros(xs[..|xs| - 1]); }
  }

  lemma {:induction false} SumOfShares(tasks: seq<Task>, ts: seq<real>, xs: seq<real>)
    requires |xs| <= |tasks| && forall j | 0 <= j < |xs| :: xs[j] == Share(tasks, ts, j, |ts|)
    ensures Sum(xs) == SumShares(tasks, ts, |xs|, |ts|)
  {
    if xs != [] { SumOfShares(tasks, ts, xs[..|xs| - 1]); }
  }

  // ----- What the sweep has in hand

  /** A task not yet started has no share, a running one the rise of the level since its start, a
      stopped one what was written down.  `done` is what it adds to the total. */
  ghost predicate TaskSwept(tasks: seq<Task>, es: seq<Event>, k: nat, running: map<nat, real>, level: real,
                            weight: real, done: real, j: nat)
    requires k <= |es| && j < |tasks|
  {
    var share := Share(tasks, Times(es), j, k);
    && (Stopped(tasks, es, k, j) ==> Started(tasks, es, k, j) && weight == share && tasks[j].start <= tasks[j].end)
    && (j in running <==> Running(tasks, es, k, j))
    && (!Started(tasks, es, k, j) ==> share == 0.0)
    && (j in running ==> level - running[j] == share)
    && done == if Stopped(tasks, es, k, j) then share else 0.0
  }

  /** So for the first `n` tasks. */
  ghost predicate TasksSwept(tasks: seq<Task>, es: seq<Event>, k: nat, running: map<nat, real>, level: real,
                             weights: seq<real>, done: seq<real>, n: nat)
    requires k <= |es| && n <= |tasks| == |weights| == |done|
  {
    n == 0 || (TasksSwept(tasks, es, k, running, level, weights, done, n - 1)
               && TaskSwept(tasks, es, k, running, level, weights[n - 1], done[n - 1], n - 1))
  }

  ghost predicate Swept(tasks: seq<Task>, es: seq<Event>, k: nat, running: map<nat, real>, level: real, total: real,
                        weights: seq<real>, done: seq<real>)
    requires k <= |es|
  {
    && |tasks| == |weights| == |done| && level == Level(tasks, Times(es), k) && total == Sum(done)
    && (forall j | j in running :: j < |tasks|)
    && TasksSwept(tasks, es, k, running, level, weights, done, |tasks|)
  }

  lemma {:induction false} SweptAt(tasks: seq<Task>, es: seq<Event>, k: nat, running: map<nat, real>, level: real,
                                   weights: seq<real>, done: seq<real>, n: nat, j: nat)
    requires k <= |es| && j < n <= |tasks| == |weights| == |done|
             && TasksSwept(tasks, es, k, running, level, weights, done, n)
    ensures TaskSwept(tasks, es, k, running, level, weights[j], done[j], j)
  {
    if j < n - 1 { SweptAt(tasks, es, k, running, level, weights, done, n - 1, j); }
  }

  lemma {:induction false} SweptAll(tasks: seq<Task>, es: seq<Event>, k: nat, running: map<nat, real>, level: real,
                                    weights: seq<real>, done: seq<real>, n: nat)
    requires k <= |es| && n <= |tasks| == |weights| == |done|
    requires forall j | 0 <= j < |tasks| :: TaskSwept(tasks, es, k, running, level, weights[j], done[j], j)
    ensures TasksSwept(tasks, es, k, running, level, weights, done, n)
  {
    if n > 0 { SweptAll(tasks, es, k, running, level, weights, done, n - 1); }
  }

  // ----- Accounting for elapsed time

  /** The level after the time up to event `k` is accounted for. */
  function Raise(level: real, time: real, last: real, count: nat): real {
    if count > 0 then level + (time - last) / count as real else level
  }

  lemma CountRunning(tasks: seq<Task>, es: seq<Event>, k: nat, running: map<nat, real>, level: real, total: real,
                     weights: seq<real>, done: seq<real>)
    requires Schedule(tasks, es) && 0 < k < |es| && es[k - 1].time < es[k].time
    requires Swept(tasks, es, k, running, level, total, weights, done)
    ensures running.Keys == Overlap(tasks, es[k - 1].time, es[k].time, |tasks|)
  {
    forall j: nat | j < |tasks| ensures j in running <==> j in Overlap(tasks, es[k - 1].time, es[k].time, |tasks|) {
      SweptAt(tasks, es, k, running, level, weights, done, |tasks|, j);
      RunningCovers(tasks, es, k, j);
    }
  }

  /** The level has risen by the segment's part, and so has every running task's share. */
  ghost predicate Raised(tasks: seq<Task>, es: seq<Event>, k: nat, running: map<nat, real>, level: real, level': real)
    requires k < |es|
  {
    && level' == Level(tasks, Times(es), k + 1)
    && forall j | 0 <= j < |tasks| ::
         Share(tasks, Times(es), j, k + 1)
         == Share(tasks, Times(es), j, k) + if j in running then level' - level else 0.0
  }

  lemma LevelRises(tasks: seq<Task>, es: seq<Event>, k: nat, running: map<nat, real>, level: real, total: real,
                   weights: seq<real>, done: seq<real>)
    requires Schedule(tasks, es) && k < |es| && Swept(tasks, es, k, running, level, total, weights, done)
    ensures Raised(tasks, es, k, running, level,
                   Raise(level, es[k].time, es[if k == 0 then 0 else k - 1].time, |running|))
  {
    if k == 0 {
      NothingRuns(tasks, es, running, level, total, weights, done);
    } else {
      var ts := Times(es);
      TimesIncrease(es);
      assert ts[k - 1] <= ts[k];
      assert |running| == |running.Keys|;
      if ts[k - 1] < ts[k] {
        CountRunning(tasks, es, k, running, level, total, weights, done);
      } else {
        ZeroOver(|running|);
      }
    }
  }

  lemma ZeroOver(n: nat)
    ensures n > 0 ==> 0.0 / n as real == 0.0
  {
  }

  lemma NothingRuns(tasks: seq<Task>, es: seq<Event>, running: map<nat, real>, level: real, total: real,
                    weights: seq<real>, done: seq<real>)
    requires Swept(tasks, es, 0, running, level, total, weights, done)
    ensures running == map[]
  {
    forall j: nat | j < |tasks| ensures j !in running {
      SweptAt(tasks, es, 0, running, level, weights, done, |tasks|, j);
      assert es[..0] == [];
    }
  }

  // ----- Events

  /** Event `k` starts or stops its own task and no other. */
  lemma OneEvent(tasks: seq<Task>, es: seq<Event>, k: nat, j: nat)
    requires Schedule(tasks, es) && k < |es| && j < |tasks|
    ensures Started(tasks, es, k + 1, j) <==> Started(tasks, es, k, j) || (es[k].task == j && !es[k].stop)
    ensures Stopped(tasks, es, k + 1, j) <==> Stopped(tasks, es, k, j) || (es[k].task == j && es[k].stop)
    ensures es[k].task == j ==> if es[k].stop then !Stopped(tasks, es, k, j) else !Started(tasks, es, k, j)
  {
    assert es[k] in es;
    assert es[..k + 1] == es[..k] + [es[k]];
    assert es[k] !in es[..k];
  }

  lemma StartKeepsSwept(tasks: seq<Task>, es: seq<Event>, k: nat, running: map<nat, real>, running': map<nat, real>,
                        level: real, level': real, total: real, weights: seq<real>, done: seq<real>)
    requires Schedule(tasks, es) && k < |es| && !es[k].stop && Swept(tasks, es, k, running, level, total, weights, done)
    requires Raised(tasks, es, k, running, level, level') && running' == running[es[k].task := level']
    ensures Swept(tasks, es, k + 1, running', level', total, weights, done)
  {
    assert es[k] in es;
    forall j | 0 <= j < |tasks|
      ensures TaskSwept(tasks, es, k + 1, running', level', weights[j], done[j], j)
    {
      SweptAt(tasks, es, k, running, level, weights, done, |tasks|, j);
      OneEvent(tasks, es, k, j);
    }
    SweptAll(tasks, es, k + 1, running', level', weights, done, |tasks|);
  }

  /** A stopping target is found running exactly when it does not end before it starts. */
  lemma StopFindsStart(tasks: seq<Task>, es: seq<Event>, k: nat, running: map<nat, real>, level: real, total: real,
                       weights: seq<real>, done: seq<real>)
    requires Schedule(tasks, es) && k < |es| && es[k].stop && Swept(tasks, es, k, running, level, total, weights, done)
    ensures es[k].task < |tasks| && done[es[k].task] == 0.0
    ensures es[k].task in running <==> tasks[es[k].task].start <= tasks[es[k].task].end
  {
    assert es[k] in es;
    var i := es[k].task;
    SweptAt(tasks, es, k, running, level, weights, done, |tasks|, i);
    OneEvent(tasks, es, k, i);
    var m :| 0 <= m < |es| && es[m] == StartOf(tasks, i);
    var before := es[..k];
    assert forall n | 0 <= n < k :: before[n] == es[n];
    assert Started(tasks, es, k, i) ==> m < k by {
      if StartOf(tasks, i) in before {
        var n :| 0 <= n < k && before[n] == StartOf(tasks, i);
        assert es[n] == es[m];
      }
    }
    assert m < k ==> before[m] == StartOf(tasks, i);
    assert if m < k then Before(es[m], es[k]) else Before(es[k], es[m]);
  }

  lemma StopKeepsSwept(tasks: seq<Task>, es: seq<Event>, k: nat, running: map<nat, real>, running': map<nat, real>,
                       level: real, level': real,
                       total: real, weights: seq<real>, weights': seq<real>, done: seq<real>, done': seq<real>, i: nat,
                         x: real)
    requires Schedule(tasks, es) && k < |es| && es[k].stop && Swept(tasks, es, k, running, level, total, weights, done)
    requires Raised(tasks, es, k, running, level, level')
    requires i == es[k].task && i in running && x == level' - running[i]
    requires running' == running - {i} && done' == done[i := x] && weights' == weights[i := x]
    ensures Swept(tasks, es, k + 1, running', level', total + x, weights', done')
  {
    StopFindsStart(tasks, es, k, running, level, total, weights, done);
    forall j | 0 <= j < |tasks|
      ensures TaskSwept(tasks, es, k + 1, running', level', weights'[j], done'[j], j)
    {
      SweptAt(tasks, es, k, running, level, weights, done, |tasks|, j);
      OneEvent(tasks, es, k, j);
    }
    SweptAll(tasks, es, k + 1, running', level', weights', done', |tasks|);
    SumUpdate(done, i, x);
  }

  // ----- The program

  datatype Summary =
    | Summary(length: real, weightedTotal: real)
    | IndexError
    | KeyError

  ghost predicate NoRepeats(entries: seq<Target>) {
    forall i, j | 0 <= i < j < |entries| :: entries[i] != entries[j]
  }

  /** The first loop: earliest start, latest end, and the list of events. */
  method CollectEvents(entries: seq<Target>) returns (earliest: real, latest: real, es: seq<Event>)
    ensures AllEvents(TasksOf(entries), es)
    ensures earliest == EarliestOf(TasksOf(entries), |entries|) && latest == LatestOf(TasksOf(entries), |entries|)
  {
    earliest, latest, es := -1.0, 0.0, [];
    ghost var tasks := TasksOf(entries);
    for j := 0 to |entries|
      invariant earliest == EarliestOf(tasks, j) && latest == LatestOf(tasks, j)
      invariant FirstEvents(tasks, es, j)
    {
      if earliest < 0.0 || entries[j].start < earliest {
        earliest := entries[j].start;
      }
      if entries[j].end > latest {
        latest := entries[j].end;
      }
      es := es + [Event(entries[j].start, false, j)] + [Event(entries[j].end, true, j)];
    }
    FirstEventsAreAll(tasks, es);
  }

  ghost predicate FirstEvents(tasks: seq<Task>, es: seq<Event>, n: nat)
    requires n <= |tasks|
  {
    && |es| == 2 * n
    && forall i | 0 <= i < |es| :: es[i] == if i % 2 == 0 then StartOf(tasks, i / 2) else StopOf(tasks, i / 2)
  }

  lemma FirstEventsAreAll(tasks: seq<Task>, es: seq<Event>)
    requires FirstEvents(tasks, es, |tasks|)
    ensures AllEvents(tasks, es)
  {
    forall j | 0 <= j < |tasks| ensures StartOf(tasks, j) in es && StopOf(tasks, j) in es {
      assert es[2 * j] == StartOf(tasks, j) && es[2 * j + 1] == StopOf(tasks, j);
    }
  }

  /** The source's running minimum, which takes a negative value for "none yet". */
  ghost function EarliestOf(tasks: seq<Task>, n: nat): real
    requires n <= |tasks|
  {
    if n == 0 then -1.0
    else
      var e := EarliestOf(tasks, n - 1);
      if e < 0.0 || tasks[n - 1].start < e then tasks[n - 1].start else e
  }

  ghost function LatestOf(tasks: seq<Task>, n: nat): real
    requires n <= |tasks|
  {
    if n == 0 then 0.0 else Max(LatestOf(tasks, n - 1), tasks[n - 1].end)
  }

  ghost function Weights(entries: seq<Target>): (weights: seq<real>)
    reads entries
    ensures |weights| == |entries| && forall j | 0 <= j < |entries| :: weights[j] == entries[j].weightedDuration
  {
    seq(|entries|, j requires 0 <= j < |entries| reads entries => entries[j].weightedDuration)
  }

  /** Accounting for the time up to event `k`. */
  method Accumulate(time: real, lastTime: real, running: map<nat, real>, level: real, ghost total: real,
                    ghost tasks: seq<Task>, ghost es: seq<Event>, ghost k: nat, ghost weights: seq<real>,
                      ghost done: seq<real>)
    returns (level': real)
    requires Schedule(tasks, es) && k < |es| && Swept(tasks, es, k, running, level, total, weights, done)
    requires time == es[k].time && lastTime == es[if k == 0 then 0 else k - 1].time
    ensures Raised(tasks, es, k, running, level, level')
  {
    level' := level;
    if |running| > 0 {
      level' := level + (time - lastTime) / |running| as real;
    }
    LevelRises(tasks, es, k, running, level, total, weights, done);
  }

  /** The event loop on the start of a task. */
  method StartTask(e: Event, lastTime: real, running: map<nat, real>, level: real, ghost total: real,
                   ghost tasks: seq<Task>, ghost es: seq<Event>, ghost k: nat, ghost weights: seq<real>,
                     ghost done: seq<real>)
    returns (running': map<nat, real>, level': real)
    requires Schedule(tasks, es) && k < |es| && e == es[k] && !e.stop
             && lastTime == es[if k == 0 then 0 else k - 1].time
    requires Swept(tasks, es, k, running, level, total, weights, done)
    ensures Swept(tasks, es, k + 1, running', level', total, weights, done)
  {
    level' := Accumulate(e.time, lastTime, running, level, total, tasks, es, k, weights, done);
    running' := running[e.task := level'];
    StartKeepsSwept(tasks, es, k, running, running', level, level', total, weights, done);
  }

  /** The event loop on the stop of a running task, but for writing down its weighted duration. */
  method StopTask(e: Event, lastTime: real, running: map<nat, real>, level: real, total: real,
                  ghost tasks: seq<Task>, ghost es: seq<Event>, ghost k: nat, ghost weights: seq<real>,
                    ghost done: seq<real>)
    returns (running': map<nat, real>, level': real, total': real, weightedDuration: real, ghost done': seq<real>)
    requires Schedule(tasks, es) && k < |es| && e == es[k] && e.stop && lastTime == es[if k == 0 then 0 else k - 1].time
    requires Swept(tasks, es, k, running, level, total, weights, done) && e.task in running
    ensures level' == Level(tasks, Times(es), k + 1) && weightedDuration == level' - running[e.task]
    ensures running' == running - {e.task} && total' == total + weightedDuration
    ensures e.task < |weights|
            && Swept(tasks, es, k + 1, running', level', total', weights[e.task := weightedDuration], done')
  {
    level' := Accumulate(e.time, lastTime, running, level, total, tasks, es, k, weights, done);
    weightedDuration := level' - running[e.task];
    total' := total + weightedDuration;
    running' := running - {e.task};
    done' := done[e.task := weightedDuration];
    StopKeepsSwept(tasks, es, k, running, running', level, level', total, weights, weights[e.task := weightedDuration],
                   done, done',
                   e.task, weightedDuration);
  }

  /** The event loop on one event. */
  method Step(entries: seq<Target>, e: Event, lastTime: real, running: map<nat, real>, level: real, total: real,
              ghost es: seq<Event>, ghost k: nat, ghost done: seq<real>)
    returns (ok: bool, running': map<nat, real>, level': real, total': real, ghost done': seq<real>)
    requires NoRepeats(entries) && Schedule(TasksOf(entries), es) && k < |es| && e == es[k]
    requires lastTime == es[if k == 0 then 0 else k - 1].time
    requires Swept(TasksOf(entries), es, k, running, level, total, Weights(entries), done)
    modifies entries
    ensures ok ==> Swept(TasksOf(entries), es, k + 1, running', level', total', Weights(entries), done')
    ensures !ok ==> exists j | 0 <= j < |entries| :: entries[j].end < entries[j].start
  {
    ghost var tasks, weights := TasksOf(entries), Weights(entries);
    ok, running', level', total', done' := true, running, level, total, done;
    if !e.stop {
      running', level' := StartTask(e, lastTime, running, level, total, tasks, es, k, weights, done);
    } else if e.task !in running {
      StopFindsStart(tasks, es, k, running, level, total, weights, done);
      ok := false;
      assert entries[e.task].end < entries[e.task].start;
    } else {
      var weightedDuration;
      running', level', total', weightedDuration, done' :=
        StopTask(e, lastTime, running, level, total, tasks, es, k, weights, done);
      entries[e.task].weightedDuration := weightedDuration;
      assert Weights(entries) == weights[e.task := weightedDuration];
    }
  }

  /** The event loop: it fails exactly when some task ends before it starts. */
  method Sweep(entries: seq<Target>, es: seq<Event>) returns (ok: bool, total: real)
    requires NoRepeats(entries) && Schedule(TasksOf(entries), es) && es != []
    modifies entries
    ensures ok <==> forall j | 0 <= j < |entries| :: entries[j].start <= entries[j].end
    ensures ok ==> total == Busy(TasksOf(entries), Times(es), |es|)
    ensures ok ==> forall j | 0 <= j < |entries| ::
              && entries[j].weightedDuration == Share(TasksOf(entries), Times(es), j, |es|)
              && 0.0 <= entries[j].weightedDuration <= entries[j].end - entries[j].start
  {
    var running, lastTime, level := map[], es[0].time, 0.0;
    ghost var done := seq(|entries|, j => 0.0);
    ok, total := true, 0.0;
    SweepBegins(TasksOf(entries), es, Weights(entries), done);
    for k := 0 to |es|
      invariant lastTime == es[if k == 0 then 0 else k - 1].time && ok
      invariant Swept(TasksOf(entries), es, k, running, level, total, Weights(entries), done)
    {
      ok, running, level, total, done := Step(entries, es[k], lastTime, running, level, total, es, k, done);
      if !ok {
        return;
      }
      lastTime := es[k].time;
    }
    SweepEnds(TasksOf(entries), es, running, level, total, Weights(entries), done);
  }

  /** Summarize divides the busy time among the tasks. */
  method Summarize(entries: seq<Target>) returns (r: Summary, ghost es: seq<Event>)
    requires NoRepeats(entries)
    modifies entries
    ensures r.IndexError? <==> entries == []
    ensures r.Summary? <==> entries != [] && forall j | 0 <= j < |entries| :: entries[j].start <= entries[j].end
    ensures Schedule(TasksOf(entries), es)
    ensures r.Summary? ==> forall j | 0 <= j < |entries| ::
              && entries[j].weightedDuration == Share(TasksOf(entries), Times(es), j, |es|)
              && 0.0 <= entries[j].weightedDuration <= entries[j].end - entries[j].start
    ensures r.Summary? ==> r.weightedTotal == Busy(TasksOf(entries), Times(es), |es|)
    ensures r.Summary? && (forall j | 0 <= j < |entries| :: entries[j].start >= 0.0) ==>
              && r.weightedTotal <= r.length
              && (r.weightedTotal == r.length <==> NoGap(TasksOf(entries), Times(es), |es|))
  {
    var earliest, latest, events := CollectEvents(entries);
    ghost var tasks := TasksOf(entries);
    var sorted := Sorting.Sort(events, (a, b) => Before(a, b));
    es := sorted;
    PermutedEvents(tasks, events, es);
    SomeEvent(tasks, es);
    if |sorted| == 0 {
      return IndexError, es;
    }
    var ok, total := Sweep(entries, sorted);
    if !ok {
      return KeyError, es;
    }
    r := Summary(latest - earliest, total);
    if forall j | 0 <= j < |entries| :: entries[j].start >= 0.0 {
      LengthOfSchedule(tasks, es);
    }
  }

  lemma SomeEvent(tasks: seq<Task>, es: seq<Event>)
    requires AllEvents(tasks, es)
    ensures tasks == [] <==> es == []
  {
    if tasks != [] { assert StartOf(tasks, 0) in es; }
    if es != [] { assert es[0] in es; }
  }

  lemma SweepBegins(tasks: seq<Task>, es: seq<Event>, weights: seq<real>, done: seq<real>)
    requires |done| == |tasks| == |weights| && forall j | 0 <= j < |done| :: done[j] == 0.0
    ensures Swept(tasks, es, 0, map[], 0.0, 0.0, weights, done)
  {
    SumOfZeros(done);
    assert es[..0] == [];
    forall j | 0 <= j < |tasks| ensures TaskSwept(tasks, es, 0, map[], 0.0, weights[j], done[j], j) { }
    SweptAll(tasks, es, 0, map[], 0.0, weights, done, |tasks|);
  }

  /** At the end nothing runs, every task has its share, and the total is the busy time. */
  lemma SweepEnds(tasks: seq<Task>, es: seq<Event>, running: map<nat, real>, level: real, total: real,
                  weights: seq<real>, done: seq<real>)
    requires Schedule(tasks, es) && Swept(tasks, es, |es|, running, level, total, weights, done)
    ensures running == map[] && total == Busy(tasks, Times(es), |es|)
    ensures forall j | 0 <= j < |tasks| ::
              && tasks[j].start <= tasks[j].end && weights[j] == Share(tasks, Times(es), j, |es|)
              && 0.0 <= weights[j] <= tasks[j].end - tasks[j].start
  {
    assert es[..|es|] == es;
    TimesIncrease(es);
    forall j: nat | j < |tasks|
      ensures j !in running && weights[j] == done[j] == Share(tasks, Times(es), j, |es|)
      ensures tasks[j].start <= tasks[j].end && 0.0 <= weights[j] <= tasks[j].end - tasks[j].start
    {
      SweptAt(tasks, es, |es|, running, level, weights, done, |tasks|, j);
      assert Stopped(tasks, es, |es|, j);
      ShareWithinDuration(tasks, Times(es), j);
    }
    SumOfShares(tasks, Times(es), done);
    SharesAddUp(tasks, Times(es), |es|);
  }

  // ----- Length

  lemma {:induction false} EarliestIsLeast(tasks: seq<Task>, n: nat) returns (least: nat)
    requires 0 < n <= |tasks| && forall j | 0 <= j < |tasks| :: tasks[j].start >= 0.0
    ensures least < n && tasks[least].start == EarliestOf(tasks, n)
    ensures forall j | 0 <= j < n :: EarliestOf(tasks, n) <= tasks[j].start
  {
    if n == 1 {
      least := 0;
    } else {
      least := EarliestIsLeast(tasks, n - 1);
      if tasks[n - 1].start < EarliestOf(tasks, n - 1) { least := n - 1; }
    }
  }

  lemma {:induction false} LatestIsGreatest(tasks: seq<Task>, n: nat) returns (greatest: nat)
    requires 0 < n <= |tasks| && forall j | 0 <= j < |tasks| :: 0.0 <= tasks[j].end
    ensures greatest < n && tasks[greatest].end == LatestOf(tasks, n)
    ensures forall j | 0 <= j < n :: tasks[j].end <= LatestOf(tasks, n)
  {
    if n == 1 {
      greatest := 0;
    } else {
      greatest := LatestIsGreatest(tasks, n - 1);
      if LatestOf(tasks, n - 1) < tasks[n - 1].end { greatest := n - 1; }
    }
  }

  /** The reported length runs from the first stamp to the last ... */
  lemma EndsOfSchedule(tasks: seq<Task>, es: seq<Event>)
    requires Schedule(tasks, es) && es != [] && tasks != []
    requires forall j | 0 <= j < |tasks| :: 0.0 <= tasks[j].start <= tasks[j].end
    ensures es[0].time == EarliestOf(tasks, |tasks|) && es[|es| - 1].time == LatestOf(tasks, |tasks|)
  {
    var least := EarliestIsLeast(tasks, |tasks|);
    var greatest := LatestIsGreatest(tasks, |tasks|);
    var i :| 0 <= i < |es| && es[i] == StartOf(tasks, least);
    var m :| 0 <= m < |es| && es[m] == StopOf(tasks, greatest);
    assert i == 0 || Before(es[0], es[i]);
    assert m == |es| - 1 || Before(es[m], es[|es| - 1]);
    assert es[0] in es && es[|es| - 1] in es;
  }

  /** ... so it is the busy time exactly when no gap lies between. */
  lemma LengthOfSchedule(tasks: seq<Task>, es: seq<Event>)
    requires Schedule(tasks, es) && es != [] && tasks != []
    requires forall j | 0 <= j < |tasks| :: 0.0 <= tasks[j].start <= tasks[j].end
    ensures var length := LatestOf(tasks, |tasks|) - EarliestOf(tasks, |tasks|);
            && Busy(tasks, Times(es), |es|) <= length
            && (Busy(tasks, Times(es), |es|) == length <==> NoGap(tasks, Times(es), |es|))
  {
    EndsOfSchedule(tasks, es);
    TimesIncrease(es);
    BusyIsLengthWithoutGap(tasks, Times(es), |es|);
  }
}
