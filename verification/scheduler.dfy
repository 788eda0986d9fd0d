/**
 * `execute_task`: the loop that runs a task's subtasks in parallel while
 * respecting their dependencies, as a step function over the state the loop
 * keeps between iterations.
 *
 * The workers are asynchronous. Their progress is an input of each
 * iteration (`Tick`): which started workers finish during that iteration's
 * bounded wait, in which order, and with what outcome. A worker changes its
 * subtask in place, so the new status is seen at once; only the workers
 * started in the same iteration are reported back to the loop's own
 * bookkeeping (`completed_subtasks`, `failed_subtasks`, `subtask_map`).
 */
module Scheduler {
  import opened Wrappers
  import opened Models
  import opened Seqs
  import AgentFactory
  import SubtaskRun
  import Summary

  // ---------------------------------------------------------------------------
  // State and inputs

  /**
   * What the loop keeps between iterations: the subtasks (`task.subtasks`,
   * whose objects the workers change in place), `subtask_map` as the position
   * each id refers to, the results of completed subtasks in insertion order,
   * the ids of failed subtasks, the ready list, the agent factory, and the
   * execution log. `running` holds the subtasks whose worker has started and
   * not yet finished, and `contexts` the context each started worker received.
   */
  datatype Sched = Sched(
    subs: seq<Subtask>,
    index: map<string, nat>,
    completed: seq<ResultEntry>,
    failed: set<string>,
    ready: seq<nat>,
    running: set<nat>,
    contexts: map<nat, WorkerContext>,
    factory: AgentFactory.Factory,
    logs: seq<LogEntry>)

  /** Every position the state holds refers to a subtask, and the factory is consistent. */
  predicate Shaped(st: Sched) {
    && AgentFactory.Valid(st.factory)
    && (forall id :: id in st.index ==> st.index[id] < |st.subs|)
    && (forall k :: 0 <= k < |st.ready| ==> st.ready[k] < |st.subs|)
    && (forall i :: i in st.running ==> i < |st.subs|)
  }

  /**
   * The stored request as execution reads it: its task text, the entries of
   * its context that hold text, and the `subtask_results` list its context
   * carries, if any.
   */
  datatype RequestRecord = RequestRecord(task: string, entries: Context, results: Option<seq<ResultEntry>>)

  /**
   * The fixed surroundings of one execution: the stored request (absent when
   * there is no request record) and whether container isolation is on.
   */
  datatype Setup = Setup(request: Option<RequestRecord>, useContainers: bool)

  /** The entries of `c` whose key is not `key`, in order. */
  function WithoutKey(c: Context, key: string): (r: Context)
    ensures forall k :: 0 <= k < |r| ==> r[k].0 != key
    ensures forall e :: e in r <==> e in c && e.0 != key
    ensures |r| <= |c|
  {
    if |c| == 0 then []
    else if c[0].0 == key then WithoutKey(c[1..], key)
    else [c[0]] + WithoutKey(c[1..], key)
  }

  /**
   * The context every worker starts from: empty without a request record,
   * otherwise the request's context with `task` set to the request's task
   * text, replacing any `task` entry the context had.
   */
  function BaseContext(request: Option<RequestRecord>): (c: WorkerContext)
    ensures request.None? ==> c.entries == [] && c.task.None? && c.subtaskResults.None?
    ensures request.Some? ==> c.task == Some(request.value.task) && c.subtaskResults == request.value.results
    ensures request.Some? ==> forall e :: e in c.entries <==> e in request.value.entries && e.0 != "task"
  {
    match request
    case None => WorkerContext([], None, None)
    case Some(q) => WorkerContext(WithoutKey(q.entries, "task"), Some(q.task), q.results)
  }

  /** One iteration's wait: the workers that finish during it, in order, and the clock. */
  datatype Tick = Tick(finishes: seq<(nat, SubtaskRun.Run)>, now: int)

  const DependencyFailed := "Dependency failed"
  const NoAgentDetails := "No agent available"
  const NoAgentFor := "No agent available for type: "
  const ExecutingWith := "Executing with "
  const AllCompletedDetails := "All subtasks completed successfully"
  const SomeFailed := "One or more subtasks failed"

  function NoAgentError(kind: string): string {
    NoAgentFor + kind
  }

  /** A log entry written by the loop itself: its timestamp is already ISO text. */
  function LoopEntry(s: Subtask, action: string, details: string, now: int): (e: LogEntry)
    ensures e.timestamp == Iso(now) && e.subtaskId == Some(s.id) && e.action == action && e.details == Some(details)
  {
    LogEntry(Iso(now), Some(s.id), Some(s.kind), action, Some(details))
  }

  function TaskEntry(action: string, details: string, now: int): (e: LogEntry)
    ensures e.timestamp == Iso(now) && e.subtaskId.None? && e.action == action && e.details == Some(details)
  {
    LogEntry(Iso(now), None, None, action, Some(details))
  }

  // ---------------------------------------------------------------------------
  // subtask_map and readiness

  /** `{subtask.id: subtask for subtask in subtasks}`: a repeated id refers to its last position. */
  function IndexOf(subs: seq<Subtask>): (r: map<string, nat>)
    ensures forall id :: id in r <==> exists i :: 0 <= i < |subs| && subs[i].id == id
    ensures forall id :: id in r ==> r[id] < |subs| && subs[r[id]].id == id
    ensures forall id :: id in r ==> forall i :: r[id] < i < |subs| ==> subs[i].id != id
  {
    if |subs| == 0 then map[]
    else
      var last := |subs| - 1;
      var before := IndexOf(subs[..last]);
      assert forall i :: 0 <= i < last ==> subs[..last][i] == subs[i];
      before[subs[last].id := last]
  }

  /** Putting a smaller position in front keeps a list of positions increasing. */
  lemma ConsPositions(from: nat, rest: seq<nat>)
    requires forall k :: 0 <= k < |rest| ==> from < rest[k]
    requires forall k, l :: 0 <= k < l < |rest| ==> rest[k] < rest[l]
    ensures var r := [from] + rest;
      && r[0] == from && r[1..] == rest
      && (forall k :: 1 <= k < |r| ==> r[k] == rest[k - 1])
      && forall k, l :: 0 <= k < l < |r| ==> r[k] < r[l]
  {
    var r := [from] + rest;
    assert forall k :: 1 <= k < |r| ==> r[k] == rest[k - 1];
  }

  /** The positions, in increasing order, of the subtasks from `from` on that `keep` accepts. */
  function Positions(subs: seq<Subtask>, keep: Subtask -> bool, from: nat): (r: seq<nat>)
    requires from <= |subs|
    ensures forall k :: 0 <= k < |r| ==> from <= r[k] < |subs| && keep(subs[r[k]])
    ensures forall i :: from <= i < |subs| && keep(subs[i]) ==> i in r
    ensures forall k, l :: 0 <= k < l < |r| ==> r[k] < r[l]
    ensures |r| <= |subs| - from
    ensures (forall i :: from <= i < |subs| ==> !keep(subs[i])) ==> r == []
    decreases |subs| - from
  {
    if from == |subs| then []
    else
      var rest := Positions(subs, keep, from + 1);
      if keep(subs[from]) then
        ConsPositions(from, rest);
        [from] + rest
      else rest
  }

  /** The subtask `subtask_map` gives for `id` exists and has completed. */
  predicate Done(subs: seq<Subtask>, index: map<string, nat>, id: string) {
    id in index && index[id] < |subs| && subs[index[id]].status == Completed
  }

  /** Every dependency of `s` is done; an absent or empty dependency list is satisfied. */
  predicate Satisfied(subs: seq<Subtask>, index: map<string, nat>, s: Subtask) {
    forall k :: 0 <= k < |s.DependencyIds()| ==> Done(subs, index, s.DependencyIds()[k])
  }

  predicate ReadyNow(subs: seq<Subtask>, index: map<string, nat>, s: Subtask) {
    s.status == Pending && Satisfied(subs, index, s)
  }

  /** The ready list recomputed at the end of an iteration. */
  function Ready(subs: seq<Subtask>, index: map<string, nat>): (r: seq<nat>)
    ensures forall i :: i in r <==> 0 <= i < |subs| && ReadyNow(subs, index, subs[i])
    ensures forall k, l :: 0 <= k < l < |r| ==> r[k] < r[l]
    ensures (forall i :: 0 <= i < |subs| ==> !ReadyNow(subs, index, subs[i])) ==> r == []
  {
    Positions(subs, s => ReadyNow(subs, index, s), 0)
  }

  predicate StartsReady(s: Subtask) {
    s.status == Pending && |s.DependencyIds()| == 0
  }

  /** The ready list before the first iteration: pending subtasks without dependencies. */
  function InitialReady(subs: seq<Subtask>): (r: seq<nat>)
    ensures forall i :: i in r <==> 0 <= i < |subs| && StartsReady(subs[i])
    ensures forall k, l :: 0 <= k < l < |r| ==> r[k] < r[l]
    ensures |r| <= |subs|
  {
    Positions(subs, StartsReady, 0)
  }

  /** The loop's state before the first iteration. */
  function Start(subs: seq<Subtask>, factory: AgentFactory.Factory): (r: Sched)
    requires AgentFactory.Valid(factory)
    ensures Shaped(r) && r.subs == subs && r.index == IndexOf(subs) && r.ready == InitialReady(subs)
    ensures r.completed == [] && r.failed == {} && r.running == {} && r.logs == []
  {
    Sched(subs, IndexOf(subs), [], {}, InitialReady(subs), {}, map[], factory, [])
  }

  // ---------------------------------------------------------------------------
  // Launching the ready subtasks

  function HasFailedDependency(s: Subtask, failed: set<string>): (r: bool)
    ensures r <==> exists k :: 0 <= k < |s.DependencyIds()| && s.DependencyIds()[k] in failed
  {
    FirstIndex(s.DependencyIds(), id => id in failed).Some?
  }

  /**
   * The context a worker receives: the request's context and task text, with
   * `subtask_results` replaced by the results completed so far once there are
   * any.
   */
  function ContextFor(setup: Setup, completed: seq<ResultEntry>): (c: WorkerContext)
    ensures c.entries == BaseContext(setup.request).entries && c.task == BaseContext(setup.request).task
    ensures |completed| > 0 ==> c.subtaskResults == Some(completed)
    ensures |completed| == 0 ==> c.subtaskResults == BaseContext(setup.request).subtaskResults
  {
    var base := BaseContext(setup.request);
    if |completed| > 0 then base.(subtaskResults := Some(completed)) else base
  }

  /** One pass of the launch loop over the ready subtask at position `j`. */
  function LaunchOne(setup: Setup, st: Sched, j: nat, now: int): (r: Sched)
    requires Shaped(st) && j < |st.subs|
    ensures Shaped(r) && |r.subs| == |st.subs|
    ensures r.index == st.index && r.completed == st.completed && r.ready == st.ready
    ensures forall i :: 0 <= i < |st.subs| && i != j ==> r.subs[i] == st.subs[i]
    ensures r.subs[j].id == st.subs[j].id && r.subs[j].kind == st.subs[j].kind
    ensures r.subs[j].dependencies == st.subs[j].dependencies
  {
    var s := st.subs[j];
    if HasFailedDependency(s, st.failed) then
      st.(subs := st.subs[j := s.(status := Failed, error := Some(DependencyFailed), updatedAt := DateTime(now))],
          failed := st.failed + {s.id},
          logs := st.logs + [LoopEntry(s, "failed", DependencyFailed, now)])
    else
      var (factory, agent) := AgentFactory.GetAgent(st.factory, s.kind);
      match agent
      case None =>
        st.(factory := factory,
            subs := st.subs[j := s.(status := Failed, error := Some(NoAgentError(s.kind)), updatedAt := DateTime(now))],
            failed := st.failed + {s.id},
            logs := st.logs + [LoopEntry(s, "failed", NoAgentDetails, now)])
      case Some(a) =>
        st.(factory := factory,
            subs := st.subs[j := s.(status := InProgress, updatedAt := DateTime(now))],
            running := st.running + {j},
            contexts := st.contexts[j := ContextFor(setup, st.completed)],
            logs := st.logs + [LoopEntry(s, "started", ExecutingWith + AgentFactory.ClassName(a.cls), now)])
  }

  /** The launch loop over `todo`, in order; `started` collects the workers it started. */
  datatype Launched = Launched(st: Sched, started: seq<nat>)

  function Launch(setup: Setup, st: Sched, todo: seq<nat>, now: int): (r: Launched)
    requires Shaped(st)
    requires forall k :: 0 <= k < |todo| ==> todo[k] < |st.subs|
    ensures Shaped(r.st) && |r.st.subs| == |st.subs|
    ensures r.st.index == st.index && r.st.ready == st.ready
    ensures forall i :: 0 <= i < |st.subs| ==>
      && r.st.subs[i].id == st.subs[i].id && r.st.subs[i].kind == st.subs[i].kind
      && r.st.subs[i].dependencies == st.subs[i].dependencies
    ensures forall i :: 0 <= i < |st.subs| && i !in todo ==> r.st.subs[i] == st.subs[i]
    ensures forall k :: 0 <= k < |r.started| ==> r.started[k] in todo
    decreases |todo|
  {
    if |todo| == 0 then Launched(st, [])
    else
      var j := todo[0];
      var one := LaunchOne(setup, st, j, now);
      var rest := Launch(setup, one, todo[1..], now);
      var startedHere := if one.subs[j].status == InProgress && st.subs[j].status != InProgress then [j] else [];
      Launched(rest.st, startedHere + rest.started)
  }

  // ---------------------------------------------------------------------------
  // The bounded wait

  /**
   * `completed_subtasks[id] = {...}`: a new id is appended, a known one keeps
   * its place and takes the new entry.
   */
  function Put(entries: seq<ResultEntry>, e: ResultEntry): (r: seq<ResultEntry>)
    ensures e in r
    ensures forall x :: x in r ==> x == e || x in entries
    ensures forall k :: 0 <= k < |entries| && entries[k].id != e.id ==> entries[k] in r
  {
    match FirstIndex(entries, (x: ResultEntry) => x.id == e.id)
    case Some(k) =>
      assert entries[k := e][k] == e;
      assert forall m :: 0 <= m < |entries| && m != k ==> entries[k := e][m] == entries[m];
      entries[k := e]
    case None => entries + [e]
  }

  /** Folding a finished worker that was started in this iteration into the loop's bookkeeping. */
  function Report(st: Sched, i: nat): (r: Sched)
    requires Shaped(st) && i < |st.subs|
    ensures Shaped(r) && r.subs == st.subs && r.running == st.running && r.logs == st.logs
    ensures r.index == st.index[st.subs[i].id := i]
    ensures st.subs[i].status == Completed ==>
      r.completed == Put(st.completed, ResultEntry(st.subs[i].id, st.subs[i].kind, st.subs[i].result)) && r.failed == st.failed
    ensures st.subs[i].status == Failed ==> r.completed == st.completed && r.failed == st.failed + {st.subs[i].id}
    ensures st.subs[i].status !in {Completed, Failed} ==> r.completed == st.completed && r.failed == st.failed
  {
    var s := st.subs[i];
    var mapped := st.(index := st.index[s.id := i]);
    if s.status == Completed then mapped.(completed := Put(st.completed, ResultEntry(s.id, s.kind, s.result)))
    else if s.status == Failed then mapped.(failed := st.failed + {s.id})
    else mapped
  }

  /**
   * A worker finishing: its subtask takes the run's outcome and its entry is
   * logged. Only a started, unfinished worker can finish; it is reported
   * when it belongs to `launchedNow`, the workers started in this iteration.
   */
  function FinishOne(setup: Setup, st: Sched, launchedNow: seq<nat>, i: nat, run: SubtaskRun.Run, now: int): (r: Sched)
    requires Shaped(st)
    ensures Shaped(r) && |r.subs| == |st.subs| && r.ready == st.ready
    ensures i !in st.running ==> r == st
    ensures forall m :: 0 <= m < |st.subs| && m != i ==> r.subs[m] == st.subs[m]
    ensures forall m :: 0 <= m < |st.subs| ==> r.subs[m].id == st.subs[m].id && r.subs[m].dependencies == st.subs[m].dependencies
    ensures i in st.running ==> r.subs[i] == SubtaskRun.Finish(st.subs[i], run, setup.useContainers, now).subtask
    ensures i in st.running ==> r.running == st.running - {i}
    ensures i in st.running ==> r.logs == st.logs + SubtaskRun.Finish(st.subs[i], run, setup.useContainers, now).logs
    ensures i in st.running && i !in launchedNow ==> r.index == st.index && r.completed == st.completed && r.failed == st.failed
  {
    if i !in st.running then st
    else
      var w := SubtaskRun.Finish(st.subs[i], run, setup.useContainers, now);
      var after := st.(subs := st.subs[i := w.subtask], logs := st.logs + w.logs, running := st.running - {i});
      if i in launchedNow then Report(after, i) else after
  }

  function Finishes(setup: Setup, st: Sched, launchedNow: seq<nat>, finishes: seq<(nat, SubtaskRun.Run)>, now: int): (r: Sched)
    requires Shaped(st)
    ensures Shaped(r) && |r.subs| == |st.subs| && r.ready == st.ready
    ensures forall m :: 0 <= m < |st.subs| ==> r.subs[m].id == st.subs[m].id && r.subs[m].dependencies == st.subs[m].dependencies
    decreases |finishes|
  {
    if |finishes| == 0 then st
    else
      var one := FinishOne(setup, st, launchedNow, finishes[0].0, finishes[0].1, now);
      Finishes(setup, one, launchedNow, finishes[1..], now)
  }

  /** The entries the workers started in this iteration write as they start, in launch order. */
  function StartEntries(setup: Setup, subs: seq<Subtask>, started: seq<nat>, now: int): (r: seq<LogEntry>)
    requires forall k :: 0 <= k < |started| ==> started[k] < |subs|
    decreases |started|
  {
    if |started| == 0 then []
    else SubtaskRun.StartLogs(subs[started[0]], setup.useContainers, now) + StartEntries(setup, subs, started[1..], now)
  }

  // ---------------------------------------------------------------------------
  // One iteration and progress

  function CountCompleted(subs: seq<Subtask>): (n: nat)
    ensures n <= |subs|
    ensures n == |subs| <==> forall i :: 0 <= i < |subs| ==> subs[i].status == Completed
  {
    if |subs| == 0 then 0
    else (if subs[0].status == Completed then 1 else 0) + CountCompleted(subs[1..])
  }

  /** `completed_count / total_count if total_count > 0 else 0` */
  function Progress(subs: seq<Subtask>): (p: real)
    ensures 0.0 <= p <= 1.0
    ensures |subs| > 0 ==> p * (|subs| as real) == CountCompleted(subs) as real
    ensures |subs| == 0 ==> p == 0.0
  {
    if |subs| == 0 then 0.0
    else
      var c := CountCompleted(subs);
      CountRatio(c, |subs|);
      c as real / |subs| as real
  }

  /** A count out of a positive total is a fraction between zero and one. */
  lemma CountRatio(c: nat, n: nat)
    requires 0 < n && c <= n
    ensures 0.0 <= c as real / n as real <= 1.0
    ensures (c as real / n as real) * (n as real) == c as real
  {
    var q := c as real / n as real;
    assert q * (n as real) == c as real;
    var d := 1.0 - q;
    assert d * (n as real) == (n - c) as real;
  }

  /**
   * One pass of the `while` body: launch every ready subtask, wait while
   * workers finish, then recompute the ready list.
   */
  function Iteration(setup: Setup, st: Sched, tick: Tick): (r: Sched)
    requires Shaped(st)
    ensures Shaped(r) && |r.subs| == |st.subs|
    ensures forall m :: 0 <= m < |st.subs| ==> r.subs[m].id == st.subs[m].id && r.subs[m].dependencies == st.subs[m].dependencies
    ensures r.ready == Ready(r.subs, r.index)
  {
    var launched := Launch(setup, st, st.ready, tick.now);
    var l := launched.st;
    var begun := l.(logs := l.logs + StartEntries(setup, l.subs, launched.started, tick.now));
    var waited := Finishes(setup, begun, launched.started, tick.finishes, tick.now);
    waited.(ready := Ready(waited.subs, waited.index))
  }

  /** `while ready_subtasks or any(st.status == IN_PROGRESS ...)` */
  predicate Continues(st: Sched) {
    |st.ready| > 0 || exists i :: 0 <= i < |st.subs| && st.subs[i].status == InProgress
  }

  // ---------------------------------------------------------------------------
  // The final status

  predicate AllCompleted(subs: seq<Subtask>) {
    forall i :: 0 <= i < |subs| ==> subs[i].status == Completed
  }

  predicate AnyFailed(subs: seq<Subtask>) {
    exists i :: 0 <= i < |subs| && subs[i].status == Failed
  }

  /** The task record and log after the loop: completed, failed, or left as it was. */
  function Conclude(task: TaskResponse, logs: seq<LogEntry>, now: int): (r: (TaskResponse, seq<LogEntry>))
    ensures AllCompleted(task.subtasks) ==>
      r.0 == task.(status := Completed, result := Some(Summary.FinalResult(task.subtasks)))
      && r.1 == logs + [TaskEntry("task_completed", AllCompletedDetails, now)]
    ensures !AllCompleted(task.subtasks) && AnyFailed(task.subtasks) ==>
      r.0 == task.(status := Failed, error := Some(SomeFailed))
      && r.1 == logs + [TaskEntry("task_failed", SomeFailed, now)]
    ensures !AllCompleted(task.subtasks) && !AnyFailed(task.subtasks) ==> r == (task, logs)
  {
    if AllCompleted(task.subtasks) then
      (task.(status := Completed, result := Some(Summary.FinalResult(task.subtasks))),
       logs + [TaskEntry("task_completed", AllCompletedDetails, now)])
    else if AnyFailed(task.subtasks) then
      (task.(status := Failed, error := Some(SomeFailed)), logs + [TaskEntry("task_failed", SomeFailed, now)])
    else (task, logs)
  }

  // ---------------------------------------------------------------------------
  // The whole execution

  /** How `execute_task` ends. */
  datatype Ending =
    | NotFound
      /** The loop ended; the final task record and log were stored. */
    | Finished(task: TaskResponse, logs: seq<LogEntry>)
      /** An exception ended execution; `task` is the last task record stored. */
    | Aborted(task: TaskResponse, error: string)
      /** The inputs ran out while the loop would go on. */
    | Unfinished(task: TaskResponse, st: Sched)

  /**
   * Writing the log to the store: with the plain encoder (`plainJson`), as
   * the loop does, or with the encoder that renders datetimes.
   */
  function StoreLogs(plainJson: bool, logs: seq<LogEntry>): (r: Result<seq<LogEntry>, string>)
    ensures !plainJson ==> r == Success(EncoderDumps(logs))
    ensures plainJson ==> r == PlainDumps(logs)
    ensures plainJson ==> (r.Failure? <==> HasDateTime(logs))
    ensures plainJson && r.Success? ==> r.value == logs
    ensures !plainJson ==> r.Success? && !HasDateTime(r.value) && |r.value| == |logs|
  {
    if plainJson then PlainDumps(logs) else Success(EncoderDumps(logs))
  }

  /**
   * The task record stored after an iteration. A running subtask appears as
   * its launch left it: the step updates its agent writes in place are not
   * part of the model.
   */
  function Saved(task: TaskResponse, st: Sched, now: int): (t: TaskResponse)
    ensures t.subtasks == st.subs && t.progress == Progress(st.subs) && t.status == task.status
    ensures t.taskId == task.taskId && t.result == task.result && t.error == task.error
    ensures t.createdAt == task.createdAt && t.updatedAt == DateTime(now)
  {
    task.(subtasks := st.subs, progress := Progress(st.subs), updatedAt := DateTime(now))
  }

  function Loop(plainJson: bool, setup: Setup, task: TaskResponse, st: Sched, ticks: seq<Tick>, now: int): (r: Ending)
    requires Shaped(st)
    ensures r.NotFound? ==> false
    decreases |ticks|
  {
    if !Continues(st) then
      var (final, logs) := Conclude(task.(subtasks := st.subs), st.logs, now);
      match StoreLogs(plainJson, logs)
      case Failure(e) => Aborted(final, e)
      case Success(_) => Finished(final, logs)
    else if |ticks| == 0 then Unfinished(task, st)
    else
      var next := Iteration(setup, st, ticks[0]);
      var saved := Saved(task, next, ticks[0].now);
      match StoreLogs(plainJson, next.logs)
      case Failure(e) => Aborted(saved, e)
      case Success(_) => Loop(plainJson, setup, saved, next, ticks[1..], ticks[0].now)
  }

  /**
   * `execute_task(task_id)` with the store's task record (`stored`), the
   * agent factory, the iterations' inputs and the clock at the start.
   */
  function ExecuteWith(plainJson: bool, stored: Option<TaskResponse>, setup: Setup,
                       factory: AgentFactory.Factory, ticks: seq<Tick>, now: int): (r: Ending)
    requires AgentFactory.Valid(factory)
    ensures stored.None? <==> r.NotFound?
  {
    match stored
    case None => NotFound
    case Some(t) =>
      var running := t.(status := InProgress, updatedAt := DateTime(now));
      Loop(plainJson, setup, running, Start(running.subtasks, factory), ticks, now)
  }
}
