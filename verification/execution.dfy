/**
 * `execute_task` as written and as evidently intended. The loop writes the
 * execution log with the plain JSON encoder after every iteration, but
 * worker entries carry datetime timestamps, which that encoder refuses; the
 * exception ends execution with the task still in progress. Writing the log
 * with the encoder that renders datetimes lets the loop run to its end.
 */
module TaskExecution {
  import opened Wrappers
  import opened Models
  import opened Scheduler
  import opened SchedulerProperties
  import AgentFactory
  import SubtaskRun
  import Summary

  /** `execute_task` as written: the log is stored with `json.dumps`. */
  function ExecuteTaskAsWritten(stored: Option<TaskResponse>, setup: Setup, factory: AgentFactory.Factory,
                                ticks: seq<Tick>, now: int): (r: Ending)
    requires AgentFactory.Valid(factory)
    ensures stored.None? <==> r.NotFound?
  {
    ExecuteWith(true, stored, setup, factory, ticks, now)
  }

  /** `execute_task` with the log stored through the datetime-aware encoder: it never aborts. */
  function ExecuteTask(stored: Option<TaskResponse>, setup: Setup, factory: AgentFactory.Factory,
                       ticks: seq<Tick>, now: int): (r: Ending)
    requires AgentFactory.Valid(factory)
    ensures stored.None? <==> r.NotFound?
    ensures !r.Aborted?
  {
    if stored.Some? then
      LoopNeverAborts(setup, stored.value.(status := InProgress, updatedAt := DateTime(now)),
                      Start(stored.value.subtasks, factory), ticks, now);
      ExecuteWith(false, stored, setup, factory, ticks, now)
    else
      ExecuteWith(false, stored, setup, factory, ticks, now)
  }

  /** With the datetime-aware encoder no store of the log fails, so the loop never aborts. */
  lemma {:induction false} LoopNeverAborts(setup: Setup, task: TaskResponse, st: Sched, ticks: seq<Tick>, now: int)
    requires Shaped(st)
    ensures !Loop(false, setup, task, st, ticks, now).Aborted?
    decreases |ticks|
  {
    if Continues(st) && |ticks| > 0 {
      var next := Iteration(setup, st, ticks[0]);
      LoopNeverAborts(setup, Saved(task, next, ticks[0].now), next, ticks[1..], ticks[0].now);
    }
  }

  /** Once the log holds a datetime it keeps holding one while workers finish. */
  lemma {:induction false} FinishesKeepDateTime(setup: Setup, st: Sched, ln: seq<nat>, finishes: seq<(nat, SubtaskRun.Run)>, now: int)
    requires Shaped(st) && HasDateTime(st.logs)
    ensures HasDateTime(Finishes(setup, st, ln, finishes, now).logs)
    decreases |finishes|
  {
    if |finishes| > 0 {
      var one := FinishOne(setup, st, ln, finishes[0].0, finishes[0].1, now);
      var k :| 0 <= k < |st.logs| && st.logs[k].timestamp.DateTime?;
      assert one.logs[k] == st.logs[k];
      FinishesKeepDateTime(setup, one, ln, finishes[1..], now);
    }
  }

  /** A running worker that finishes appends an entry stamped with a datetime. */
  lemma FinishOneLogsDateTime(setup: Setup, st: Sched, ln: seq<nat>, i: nat, run: SubtaskRun.Run, now: int)
    requires Shaped(st) && i in st.running
    ensures HasDateTime(FinishOne(setup, st, ln, i, run, now).logs)
  {
    var r := FinishOne(setup, st, ln, i, run, now);
    assert r.logs[|st.logs|].timestamp == DateTime(now);
  }

  /**
   * As written, the first iteration in which a running worker finishes
   * ends execution: storing the log raises, and the task stored last is
   * the one saved for that iteration, still in progress.
   */
  lemma AsWrittenAbortsOnFinish(setup: Setup, task: TaskResponse, st: Sched, ticks: seq<Tick>, now: int)
    requires Shaped(st) && Continues(st) && |ticks| > 0 && |ticks[0].finishes| > 0
    requires ticks[0].finishes[0].0 in Begun(setup, st, ticks[0].now).st.running
    ensures Loop(true, setup, task, st, ticks, now)
      == Aborted(Saved(task, Iteration(setup, st, ticks[0]), ticks[0].now), DatetimeNotSerializable)
  {
    var tick := ticks[0];
    var b := Begun(setup, st, tick.now);
    var f := tick.finishes[0];
    FinishOneLogsDateTime(setup, b.st, b.started, f.0, f.1, tick.now);
    FinishesKeepDateTime(setup, FinishOne(setup, b.st, b.started, f.0, f.1, tick.now), b.started, tick.finishes[1..], tick.now);
    IterationParts(setup, st, tick);
  }

  /** A stored task whose one subtask is pending, has no dependencies, and whose type has an agent. */
  predicate OneReadySubtask(t: TaskResponse, factory: AgentFactory.Factory) {
    && |t.subtasks| == 1
    && t.subtasks[0].status == Pending && t.subtasks[0].dependencies.None?
    && t.subtasks[0].kind in factory.types
  }

  /** The one iteration of that task's execution: its worker completes without containers. */
  predicate CompletingTick(tick: Tick) {
    && |tick.finishes| == 1 && tick.finishes[0].0 == 0
    && tick.finishes[0].1.raised.None? && tick.finishes[0].1.agentResult.status == Completed
  }

  /** The first launch of that task starts its one worker. */
  lemma OneSubtaskStarts(t: TaskResponse, setup: Setup, factory: AgentFactory.Factory, now: int)
    requires AgentFactory.Valid(factory) && OneReadySubtask(t, factory)
    ensures var st := Start(t.subtasks, factory);
      Inv(st) && Continues(st) && Begun(setup, st, now).started == [0]
      && 0 in Begun(setup, st, now).st.running
  {
    var st := Start(t.subtasks, factory);
    StartInv(t.subtasks, factory);
    assert 0 in st.ready;
    assert st.ready == [0];
    LaunchStartsServed(setup, st, st.ready, now);
    LaunchRunning(setup, st, st.ready, now);
    assert WithAgent(st.subs, st.factory.types, [0]) == [0];
  }

  /**
   * The discrepancy on one concrete shape of input: as written, execution
   * of a one-subtask task aborts with the task in progress once the worker
   * completes.
   */
  lemma OneSubtaskTaskAborts(t: TaskResponse, factory: AgentFactory.Factory, tick: Tick, now: int)
    requires AgentFactory.Valid(factory) && OneReadySubtask(t, factory) && CompletingTick(tick)
    ensures var r := ExecuteTaskAsWritten(Some(t), Setup(None, false), factory, [tick], now);
      r.Aborted? && r.task.status == InProgress && r.error == DatetimeNotSerializable
  {
    var setup := Setup(None, false);
    var running := t.(status := InProgress, updatedAt := DateTime(now));
    OneSubtaskStarts(running, setup, factory, tick.now);
    AsWrittenAbortsOnFinish(setup, running, Start(running.subtasks, factory), [tick], now);
  }

  /** With the datetime-aware encoder, the same inputs finish with the task completed. */
  lemma OneSubtaskTaskCompletes(t: TaskResponse, factory: AgentFactory.Factory, tick: Tick, now: int)
    requires AgentFactory.Valid(factory) && OneReadySubtask(t, factory) && CompletingTick(tick)
    ensures var r := ExecuteTask(Some(t), Setup(None, false), factory, [tick], now);
      r.Finished? && r.task.status == Completed
  {
    var setup := Setup(None, false);
    var running := t.(status := InProgress, updatedAt := DateTime(now));
    var st := Start(running.subtasks, factory);
    OneSubtaskStarts(running, setup, factory, tick.now);
    OneSubtaskCompletes(setup, st, tick);
    var next := Iteration(setup, st, tick);
    LoopStep(setup, running, st, [tick], now);
    LoopEndsCompleted(setup, Saved(running, next, tick.now), next, tick.now);
  }

  /** With the datetime-aware encoder, an iteration always hands over to the next. */
  lemma LoopStep(setup: Setup, task: TaskResponse, st: Sched, ticks: seq<Tick>, now: int)
    requires Shaped(st) && Continues(st) && |ticks| > 0
    ensures var next := Iteration(setup, st, ticks[0]);
      Loop(false, setup, task, st, ticks, now) == Loop(false, setup, Saved(task, next, ticks[0].now), next, ticks[1..], ticks[0].now)
  {
  }

  /** A loop that stops with every subtask completed stores the task as completed. */
  lemma LoopEndsCompleted(setup: Setup, task: TaskResponse, st: Sched, now: int)
    requires Shaped(st) && !Continues(st) && AllCompleted(st.subs)
    ensures var r := Loop(false, setup, task, st, [], now);
      r.Finished? && r.task.status == Completed && r.task.result == Some(Summary.FinalResult(st.subs))
  {
  }

  /** After the worker completes, nothing is ready or running and the only subtask has completed. */
  lemma OneSubtaskCompletes(setup: Setup, st: Sched, tick: Tick)
    requires Inv(st) && |st.subs| == 1 && !setup.useContainers && CompletingTick(tick)
    requires Begun(setup, st, tick.now).started == [0] && 0 in Begun(setup, st, tick.now).st.running
    ensures var next := Iteration(setup, st, tick);
      !Continues(next) && AllCompleted(next.subs)
  {
    var b := Begun(setup, st, tick.now);
    var f := tick.finishes[0];
    var one := FinishOne(setup, b.st, b.started, f.0, f.1, tick.now);
    assert one.subs[0].status == Completed;
    assert Finishes(setup, b.st, b.started, tick.finishes, tick.now) == one;
    IterationParts(setup, st, tick);
    var next := Iteration(setup, st, tick);
    assert next.subs == one.subs;
    assert !ReadyNow(next.subs, next.index, next.subs[0]);
    assert next.ready == [];
    assert AllCompleted(next.subs);
  }
}
