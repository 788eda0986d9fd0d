/**
 * The execution loop's guarantees over one iteration and over many:
 * blocked subtasks stay pending, no subtask is started twice, progress
 * never falls, results reach the context only through the iteration that
 * started their worker, and a loop that stops short of completing has a
 * subtask whose dependencies can no longer be met.
 */
module SchedulerClaims {
  import opened Wrappers
  import opened Models
  import opened Scheduler
  import opened SchedulerProperties
  import SubtaskRun
  import DataAnalysis

  // ---------------------------------------------------------------------------
  // Blocked subtasks

  /** The dependency id is unknown to `subtask_map`, or names a failed subtask. */
  predicate Hopeless(st: Sched, id: string) {
    id !in st.index || (st.index[id] < |st.subs| && st.subs[st.index[id]].status == Failed)
  }

  /** A subtask that is neither ready nor running is left alone by an iteration. */
  lemma IdleUntouched(setup: Setup, st: Sched, tick: Tick, i: nat)
    requires Inv(st) && Settled(tick) && i < |st.subs|
    requires i !in st.ready && i !in st.running
    ensures Iteration(setup, st, tick).subs[i] == st.subs[i]
  {
    BegunKeeps(setup, st, tick.now);
    LaunchRunning(setup, st, st.ready, tick.now);
    var b := Begun(setup, st, tick.now);
    assert b.st.subs[i] == st.subs[i];
    assert i !in b.st.running;
    FinishesInv(setup, b.st, b.started, tick.finishes, tick.now);
    IterationParts(setup, st, tick);
  }

  /**
   * A pending subtask with a dependency that is unknown or failed is not
   * ready, is left pending by the iteration, and that dependency stays
   * unknown or failed.
   */
  lemma BlockedStaysPending(setup: Setup, st: Sched, tick: Tick, i: nat, k: nat)
    requires Inv(st) && Settled(tick) && i < |st.subs| && st.subs[i].status == Pending
    requires k < |st.subs[i].DependencyIds()| && Hopeless(st, st.subs[i].DependencyIds()[k])
    ensures var r := Iteration(setup, st, tick);
      && r.subs[i] == st.subs[i] && i !in r.ready
      && Hopeless(r, r.subs[i].DependencyIds()[k])
  {
    var d := st.subs[i].DependencyIds()[k];
    assert !Done(st.subs, st.index, d);
    assert i !in st.ready by {
      forall p | 0 <= p < |st.ready| ensures st.ready[p] != i {
        assert ReadyNow(st.subs, st.index, st.subs[st.ready[p]]);
      }
    }
    IdleUntouched(setup, st, tick, i);
    IterationInv(setup, st, tick);
    var r := Iteration(setup, st, tick);
    assert !Done(r.subs, r.index, d);
  }

  /** The loop's successive states, for as long as it continues and inputs remain. */
  function Iterate(setup: Setup, st: Sched, ticks: seq<Tick>): (r: Sched)
    requires Shaped(st)
    ensures Shaped(r)
    decreases |ticks|
  {
    if |ticks| == 0 || !Continues(st) then st
    else Iterate(setup, Iteration(setup, st, ticks[0]), ticks[1..])
  }

  predicate AllSettled(ticks: seq<Tick>) {
    forall t :: 0 <= t < |ticks| ==> Settled(ticks[t])
  }

  /** Over any number of iterations, a subtask with an unknown or failed dependency never leaves PENDING. */
  lemma {:induction false} BlockedForever(setup: Setup, st: Sched, ticks: seq<Tick>, i: nat, k: nat)
    requires Inv(st) && AllSettled(ticks) && i < |st.subs| && st.subs[i].status == Pending
    requires k < |st.subs[i].DependencyIds()| && Hopeless(st, st.subs[i].DependencyIds()[k])
    ensures |Iterate(setup, st, ticks).subs| == |st.subs|
    ensures Iterate(setup, st, ticks).subs[i] == st.subs[i]
    decreases |ticks|
  {
    if |ticks| > 0 && Continues(st) {
      BlockedStaysPending(setup, st, ticks[0], i, k);
      IterationInv(setup, st, ticks[0]);
      BlockedForever(setup, Iteration(setup, st, ticks[0]), ticks[1..], i, k);
    }
  }

  // ---------------------------------------------------------------------------
  // At most one worker run per subtask

  /** The workers each iteration starts, one iteration after another. */
  function Starts(setup: Setup, st: Sched, ticks: seq<Tick>): (r: seq<nat>)
    requires Shaped(st)
    decreases |ticks|
  {
    if |ticks| == 0 || !Continues(st) then []
    else Begun(setup, st, ticks[0].now).started + Starts(setup, Iteration(setup, st, ticks[0]), ticks[1..])
  }

  /** A worker an iteration starts belongs to a pending subtask, which is no longer pending afterwards. */
  lemma StartedFromPending(setup: Setup, st: Sched, tick: Tick, j: nat)
    requires Inv(st) && Settled(tick)
    requires j in Begun(setup, st, tick.now).started
    ensures j < |st.subs| && st.subs[j].status == Pending
    ensures Iteration(setup, st, tick).subs[j].status != Pending
  {
    LaunchStartsServed(setup, st, st.ready, tick.now);
    assert j in st.ready;
    var p :| 0 <= p < |st.ready| && st.ready[p] == j;
    LaunchStartedState(setup, st, st.ready, tick.now, j);
    BegunKeeps(setup, st, tick.now);
    var b := Begun(setup, st, tick.now);
    FinishesInv(setup, b.st, b.started, tick.finishes, tick.now);
    IterationParts(setup, st, tick);
  }

  /** Every worker started over a run of iterations belongs to a subtask pending at the start. */
  lemma {:induction false} StartsWerePending(setup: Setup, st: Sched, ticks: seq<Tick>)
    requires Inv(st) && AllSettled(ticks)
    ensures forall j :: j in Starts(setup, st, ticks) ==> j < |st.subs| && st.subs[j].status == Pending
    decreases |ticks|
  {
    if |ticks| > 0 && Continues(st) {
      var next := Iteration(setup, st, ticks[0]);
      IterationInv(setup, st, ticks[0]);
      StartsWerePending(setup, next, ticks[1..]);
      forall j | j in Starts(setup, st, ticks) ensures j < |st.subs| && st.subs[j].status == Pending {
        if j in Begun(setup, st, ticks[0].now).started {
          StartedFromPending(setup, st, ticks[0], j);
        }
      }
    }
  }

  predicate Distinct(xs: seq<nat>) {
    forall k, l :: 0 <= k < l < |xs| ==> xs[k] != xs[l]
  }

  lemma DistinctConcat(a: seq<nat>, b: seq<nat>)
    requires Distinct(a) && Distinct(b) && forall x :: x in a ==> x !in b
    ensures Distinct(a + b)
  {
    forall k, l | 0 <= k < l < |a + b| ensures (a + b)[k] != (a + b)[l] {
      if k < |a| && l >= |a| {
        assert (a + b)[k] in a && (a + b)[l] == b[l - |a|];
      }
    }
  }

  /** No subtask's worker is started twice, however many iterations run. */
  lemma {:induction false} NoSubtaskStartedTwice(setup: Setup, st: Sched, ticks: seq<Tick>)
    requires Inv(st) && AllSettled(ticks)
    ensures Distinct(Starts(setup, st, ticks))
    decreases |ticks|
  {
    if |ticks| > 0 && Continues(st) {
      var next := Iteration(setup, st, ticks[0]);
      var first := Begun(setup, st, ticks[0].now).started;
      IterationInv(setup, st, ticks[0]);
      NoSubtaskStartedTwice(setup, next, ticks[1..]);
      StartsWerePending(setup, next, ticks[1..]);
      LaunchStartsServed(setup, st, st.ready, ticks[0].now);
      forall j | j in first ensures j !in Starts(setup, next, ticks[1..]) {
        StartedFromPending(setup, st, ticks[0], j);
      }
      DistinctConcat(first, Starts(setup, next, ticks[1..]));
    }
  }

  // ---------------------------------------------------------------------------
  // Progress

  lemma {:induction false} CountCompletedGrows(a: seq<Subtask>, b: seq<Subtask>)
    requires |a| == |b|
    requires forall i :: 0 <= i < |a| && a[i].status == Completed ==> b[i].status == Completed
    ensures CountCompleted(a) <= CountCompleted(b)
    decreases |a|
  {
    if |a| > 0 {
      CountCompletedGrows(a[1..], b[1..]);
    }
  }

  /** Task progress never falls from one iteration to the next. */
  lemma ProgressNeverFalls(setup: Setup, st: Sched, tick: Tick)
    requires Inv(st) && Settled(tick)
    ensures Progress(st.subs) <= Progress(Iteration(setup, st, tick).subs)
  {
    IterationInv(setup, st, tick);
    var r := Iteration(setup, st, tick);
    CountCompletedGrows(st.subs, r.subs);
    ProgressOrder(st.subs, r.subs);
  }

  /** The progress of the stored task record never falls from one iteration's snapshot to the next. */
  lemma SavedProgressNeverFalls(task: TaskResponse, setup: Setup, st: Sched, tick: Tick, now: int)
    requires Inv(st) && Settled(tick)
    ensures Saved(task, st, now).progress <= Saved(task, Iteration(setup, st, tick), tick.now).progress
  {
    ProgressNeverFalls(setup, st, tick);
  }

  lemma ProgressOrder(a: seq<Subtask>, b: seq<Subtask>)
    requires |a| == |b| && CountCompleted(a) <= CountCompleted(b)
    ensures Progress(a) <= Progress(b)
  {
    if |a| > 0 {
      QuotientOrder(CountCompleted(a) as real, CountCompleted(b) as real, |a| as real);
    }
  }

  lemma QuotientOrder(x: real, y: real, n: real)
    requires n > 0.0 && x <= y
    ensures x / n <= y / n
  {
  }

  // ---------------------------------------------------------------------------
  // What workers see and what the loop records

  /** A worker started in an iteration that finishes within it is recorded: its result or its failure. */
  lemma FinishedWorkersReported(setup: Setup, st: Sched, tick: Tick, j: nat)
    requires Inv(st) && Settled(tick)
    requires j in Begun(setup, st, tick.now).started
    ensures var r := Iteration(setup, st, tick);
      j < |r.subs| && j !in r.running ==>
        && (r.subs[j].status == Completed ==> ResultEntry(r.subs[j].id, r.subs[j].kind, r.subs[j].result) in r.completed)
        && (r.subs[j].status == Failed ==> r.subs[j].id in r.failed)
  {
    BegunKeeps(setup, st, tick.now);
    LaunchRunning(setup, st, st.ready, tick.now);
    var b := Begun(setup, st, tick.now);
    assert ReportedFor(b.st, b.started);
    FinishesReported(setup, b.st, b.started, tick.finishes, tick.now);
    IterationParts(setup, st, tick);
  }

  /**
   * A worker started in an earlier iteration is never recorded when it
   * finishes: its id reaches neither the results handed to later workers
   * nor the failed set.
   */
  lemma LateFinishNotReported(setup: Setup, st: Sched, tick: Tick, i: nat)
    requires Inv(st) && Settled(tick) && i in st.running
    requires forall x :: x in st.completed ==> x.id != st.subs[i].id
    requires st.subs[i].id !in st.failed
    ensures var r := Iteration(setup, st, tick);
      (forall x :: x in r.completed ==> x.id != st.subs[i].id) && st.subs[i].id !in r.failed
  {
    LateBegun(setup, st, tick.now, i);
    BegunKeeps(setup, st, tick.now);
    var b := Begun(setup, st, tick.now);
    FinishesNew(setup, b.st, b.started, tick.finishes, tick.now);
    IterationParts(setup, st, tick);
  }

  /** A running worker's subtask is not ready, so the launch loop neither fails it nor starts it again. */
  lemma LateBegun(setup: Setup, st: Sched, now: int, i: nat)
    requires Inv(st) && i in st.running && st.subs[i].id !in st.failed
    ensures var b := Begun(setup, st, now);
      i < |b.st.subs| && b.st.subs[i].id == st.subs[i].id
      && st.subs[i].id !in b.st.failed && NotAt(b.st, b.started, i)
  {
    var id := st.subs[i].id;
    RunningNotReady(st, i);
    LaunchFailedFrom(setup, st, st.ready, now);
    var b := Begun(setup, st, now);
    forall m | m in b.started ensures m in st.ready {
      var k :| 0 <= k < |b.started| && b.started[k] == m;
    }
  }

  lemma RunningNotReady(st: Sched, i: nat)
    requires Inv(st) && i in st.running
    ensures NotAt(st, st.ready, i)
  {
    var id := st.subs[i].id;
    forall m | m in st.ready ensures m < |st.subs| && st.subs[m].id != id {
      var p :| 0 <= p < |st.ready| && st.ready[p] == m;
      assert ReadyNow(st.subs, st.index, st.subs[st.ready[p]]);
      assert st.index[st.subs[m].id] == m != i == st.index[id];
    }
  }

  /** No position in `ln` holds a subtask with the id of the subtask at `i`. */
  predicate NotAt(st: Sched, ln: seq<nat>, i: nat)
    requires i < |st.subs|
  {
    !IdOf(st.subs, ln, st.subs[i].id)
  }

  /** A worker started in an iteration sees the task and exactly the results recorded before that iteration. */
  lemma StartedWithEarlierResults(setup: Setup, st: Sched, tick: Tick, j: nat)
    requires Inv(st) && Settled(tick)
    requires j in Begun(setup, st, tick.now).started
    ensures var r := Iteration(setup, st, tick);
      j in r.contexts && r.contexts[j] == ContextFor(setup, st.completed)
  {
    LaunchStartsServed(setup, st, st.ready, tick.now);
    LaunchStartedState(setup, st, st.ready, tick.now, j);
    BegunKeeps(setup, st, tick.now);
    var b := Begun(setup, st, tick.now);
    FinishesInv(setup, b.st, b.started, tick.finishes, tick.now);
    IterationParts(setup, st, tick);
  }

  /**
   * The research a data-analysis worker finds: the first research result
   * completed so far once any result is recorded, and before that the first
   * one in the `subtask_results` list the request's own context carried.
   */
  lemma WorkerFindsResearch(setup: Setup, completed: seq<ResultEntry>)
    ensures |completed| > 0 ==>
      DataAnalysis.ResearchIn(Some(ContextFor(setup, completed))) == DataAnalysis.FirstResearch(completed)
    ensures |completed| == 0 && setup.request.Some? && setup.request.value.results.Some? ==>
      DataAnalysis.ResearchIn(Some(ContextFor(setup, completed))) == DataAnalysis.FirstResearch(setup.request.value.results.value)
    ensures |completed| == 0 && (setup.request.None? || setup.request.value.results.None?) ==>
      DataAnalysis.ResearchIn(Some(ContextFor(setup, completed))).None?
  {
  }

  // ---------------------------------------------------------------------------
  // When the loop stops

  /**
   * When the loop stops after an iteration with no subtask failed and not
   * all completed, some subtask is still pending with a dependency that is
   * not completed; the task is then left in progress.
   */
  lemma StuckMeansUnmetDependency(st: Sched, task: TaskResponse, now: int)
    requires Inv(st) && st.ready == Ready(st.subs, st.index)
    requires !Continues(st) && !AllCompleted(st.subs) && !AnyFailed(st.subs)
    ensures exists i :: 0 <= i < |st.subs| && st.subs[i].status == Pending && !Satisfied(st.subs, st.index, st.subs[i])
    ensures Conclude(task.(subtasks := st.subs), st.logs, now) == (task.(subtasks := st.subs), st.logs)
  {
    var i :| 0 <= i < |st.subs| && st.subs[i].status != Completed;
    assert st.subs[i].status == Pending;
    assert i !in st.ready;
    assert !Satisfied(st.subs, st.index, st.subs[i]);
  }
}
