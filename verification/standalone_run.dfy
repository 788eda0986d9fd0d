/**
 * The standalone server's task submission and its simulated execution
 * (`standalone_server.py`): a fixed three-subtask plan, then a background
 * run that takes the subtasks strictly one after the other through
 * started, four progress marks and completed, storing the task after every
 * change and appending one log entry per step.
 *
 * The run is seen through what it stores: the log entries in order and the
 * successive task snapshots. Subtask and task ids (uuids), the clock
 * readings and the random sleeps are not modelled.
 */
module StandaloneRun {
  import opened Wrappers
  import opened Models
  import Strings

  datatype Sub = Sub(id: string, kind: string, description: string, status: Status, progress: real, result: Option<string>)

  datatype Task = Task(id: string, status: Status, progress: real, result: Option<string>, subtasks: seq<Sub>)

  /** What a simulated log entry records; a progress mark carries its percentage. */
  datatype Step = TaskStarted | SubtaskStarted | Mark(percent: nat) | SubtaskCompleted | TaskCompleted

  /** One simulated log entry: the subtask it is about (id and type), if any, and its step. */
  datatype Entry = Entry(subtask: Option<(string, string)>, step: Step)

  /** The entry's `action` field. */
  function Action(e: Entry): string {
    match e.step
    case TaskStarted => "task_started"
    case SubtaskStarted => "started"
    case Mark(_) => "progress"
    case SubtaskCompleted => "completed"
    case TaskCompleted => "task_completed"
  }

  /** The entry's `details` field. */
  function Details(e: Entry): string {
    var kind := if e.subtask.Some? then e.subtask.value.1 else "";
    match e.step
    case TaskStarted => "Task execution started"
    case SubtaskStarted => "Executing " + kind + " subtask"
    case Mark(p) => "Progress: " + Strings.NatText(p) + "%"
    case SubtaskCompleted => "Completed " + kind + " subtask"
    case TaskCompleted => "All subtasks completed successfully"
  }

  /** The sample result a subtask of the given type completes with. */
  function SampleFor(kind: string): string {
    "Completed " + kind + " with sample result"
  }

  /** What the run stores: the log entries in order, the task snapshots in order, and the task at the end. */
  datatype Run = Run(logs: seq<Entry>, snapshots: seq<Task>, final: Task)

  const SampleResult := "Task completed successfully with sample results"

  function NewSub(id: string, kind: string, description: string): (s: Sub)
    ensures s.status == Pending && s.progress == 0.0 && s.result.None?
  {
    Sub(id, kind, description, Pending, 0.0, None)
  }

  function Kinds(subs: seq<Sub>): (r: seq<string>)
    ensures |r| == |subs| && forall k :: 0 <= k < |subs| ==> r[k] == subs[k].kind
  {
    seq(|subs|, k requires 0 <= k < |subs| => subs[k].kind)
  }

  /** `submit_task`: whatever the request, a pending task with three pending subtasks, research, analysis and execution. */
  function Submit(taskId: string, ids: (string, string, string)): (r: Task)
    ensures r.id == taskId && r.status == Pending && r.progress == 0.0 && r.result.None?
    ensures Kinds(r.subtasks) == ["research", "analysis", "execution"]
    ensures AllPending(r.subtasks)
  {
    Task(taskId, Pending, 0.0, None,
         [NewSub(ids.0, "research", "Research information related to the task"),
          NewSub(ids.1, "analysis", "Analyze the task requirements"),
          NewSub(ids.2, "execution", "Execute the task")])
  }

  predicate AllPending(subs: seq<Sub>) {
    forall k :: 0 <= k < |subs| ==> subs[k].status == Pending
  }

  // ---------------------------------------------------------------------------
  // The simulated run

  /** The subtask an entry is about. */
  function Tag(s: Sub): (string, string) {
    (s.id, s.kind)
  }

  /** The `k`-th of the six entries a subtask's turn logs. */
  function PhaseEntry(s: Sub, k: nat): Entry
    requires k < 6
  {
    Entry(Some(Tag(s)), if k == 0 then SubtaskStarted else if k == 5 then SubtaskCompleted else Mark(25 * k))
  }

  /** The task with subtask `i` replaced. */
  function With(t: Task, i: nat, s: Sub): Task
    requires i < |t.subtasks|
  {
    t.(subtasks := t.subtasks[i := s])
  }

  /**
   * One subtask's turn: marked in progress, its progress set to 0.25, 0.5,
   * 0.75 and 1 in turn, completed with a sample result, then the task's
   * progress set to the share of subtasks done. The task is stored after
   * each of these seven changes, and each but the last logs an entry.
   */
  function RunSubtask(t: Task, i: nat): (r: Run)
    requires i < |t.subtasks|
    ensures |r.logs| == 6 && |r.snapshots| == 7
    ensures |r.final.subtasks| == |t.subtasks|
  {
    var s := t.subtasks[i];
    var started := s.(status := InProgress);
    var done := started.(progress := 1.0, status := Completed, result := Some(SampleFor(s.kind)));
    var t5 := With(t, i, done);
    var t6 := t5.(progress := Share(i + 1, |t.subtasks|));
    Run([PhaseEntry(s, 0), PhaseEntry(s, 1), PhaseEntry(s, 2), PhaseEntry(s, 3), PhaseEntry(s, 4), PhaseEntry(s, 5)],
        [With(t, i, started),
         With(t, i, started.(progress := 0.25)), With(t, i, started.(progress := 0.5)),
         With(t, i, started.(progress := 0.75)), With(t, i, started.(progress := 1.0)),
         t5, t6],
        t6)
  }

  /** The share `done / n` of subtasks done. */
  function Share(done: nat, n: nat): (r: real)
    requires 0 < n
    ensures done == n ==> r == 1.0
  {
    if done == n then 1.0 else done as real / n as real
  }

  /** The subtasks from `i` on, one after the other. */
  function Work(t: Task, i: nat): (r: Run)
    requires i <= |t.subtasks|
    ensures |r.logs| == 6 * (|t.subtasks| - i) && |r.snapshots| == 7 * (|t.subtasks| - i)
    ensures |r.final.subtasks| == |t.subtasks|
    decreases |t.subtasks| - i
  {
    if i == |t.subtasks| then Run([], [], t)
    else
      var one := RunSubtask(t, i);
      var rest := Work(one.final, i + 1);
      Run(one.logs + rest.logs, one.snapshots + rest.snapshots, rest.final)
  }

  /** `update_task_status`: the task in progress, every subtask's turn, then the task completed. */
  function Simulate(t: Task): (r: Run)
    ensures |r.snapshots| == 2 + 7 * |t.subtasks|
  {
    var t1 := t.(status := InProgress);
    var w := Work(t1, 0);
    var tf := w.final.(status := Completed, result := Some(SampleResult));
    Run([Entry(None, TaskStarted)] + w.logs + [Entry(None, TaskCompleted)],
        [t1] + w.snapshots + [tf], tf)
  }

  // ---------------------------------------------------------------------------
  // The log, entry by entry

  lemma RunSubtaskEntries(t: Task, i: nat)
    requires i < |t.subtasks|
    ensures forall k :: 0 <= k < 6 ==> RunSubtask(t, i).logs[k] == PhaseEntry(t.subtasks[i], k)
  {
  }

  lemma RunSubtaskSubtasks(t: Task, i: nat)
    requires i < |t.subtasks|
    ensures forall j :: 0 <= j < |t.subtasks| && j != i ==> RunSubtask(t, i).final.subtasks[j] == t.subtasks[j]
    ensures RunSubtask(t, i).final.subtasks[i] == Done(t.subtasks[i])
  {
  }

  lemma RunSubtaskTask(t: Task, i: nat)
    requires i < |t.subtasks|
    ensures var f := RunSubtask(t, i).final;
      f.status == t.status && f.result == t.result && f.progress == Share(i + 1, |t.subtasks|)
  {
  }

  /** The log of subtasks `i` onwards: the six phase entries of each subtask, in list order. */
  lemma {:induction false} WorkLogs(t: Task, i: nat)
    requires i <= |t.subtasks|
    ensures forall j, k :: i <= j < |t.subtasks| && 0 <= k < 6 ==> Work(t, i).logs[6 * (j - i) + k] == PhaseEntry(t.subtasks[j], k)
    decreases |t.subtasks| - i
  {
    if i < |t.subtasks| {
      var one := RunSubtask(t, i);
      RunSubtaskEntries(t, i);
      RunSubtaskSubtasks(t, i);
      WorkLogs(one.final, i + 1);
      var rest := Work(one.final, i + 1);
      assert Work(t, i).logs == one.logs + rest.logs;
      forall j, k | i <= j < |t.subtasks| && 0 <= k < 6
        ensures (one.logs + rest.logs)[6 * (j - i) + k] == PhaseEntry(t.subtasks[j], k)
      {
        if j > i {
          ShiftSix(i, j, k);
          assert one.final.subtasks[j] == t.subtasks[j];
          assert (one.logs + rest.logs)[6 * (j - i) + k] == rest.logs[6 * (j - (i + 1)) + k];
        }
      }
    }
  }

  lemma ShiftSix(i: nat, j: nat, k: nat)
    requires i < j
    ensures 6 * (j - i) + k == 6 + (6 * (j - (i + 1)) + k)
    ensures 7 * (j - i) + k == 7 + (7 * (j - (i + 1)) + k)
  {
  }

  /** After the turns of subtasks `i` onwards, every one of them is completed and the earlier ones are unchanged. */
  lemma {:induction false} WorkFinalSubtasks(t: Task, i: nat)
    requires i <= |t.subtasks|
    ensures forall j :: 0 <= j < i ==> Work(t, i).final.subtasks[j] == t.subtasks[j]
    ensures forall j :: i <= j < |t.subtasks| ==> Work(t, i).final.subtasks[j] == Done(t.subtasks[j])
    decreases |t.subtasks| - i
  {
    if i < |t.subtasks| {
      var one := RunSubtask(t, i);
      RunSubtaskSubtasks(t, i);
      WorkFinalSubtasks(one.final, i + 1);
      WorkSplit(t, i);
    }
  }

  /** After the turns of subtasks `i` onwards, the task's status and result are unchanged and its progress is 1. */
  lemma {:induction false} WorkFinalTask(t: Task, i: nat)
    requires i <= |t.subtasks|
    ensures var f := Work(t, i).final;
      && f.status == t.status && f.result == t.result
      && (i < |t.subtasks| ==> f.progress == 1.0)
      && (i == |t.subtasks| ==> f.progress == t.progress)
    decreases |t.subtasks| - i
  {
    if i < |t.subtasks| {
      var one := RunSubtask(t, i);
      RunSubtaskTask(t, i);
      WorkFinalTask(one.final, i + 1);
      WorkSplit(t, i);
    }
  }

  /** A subtask once its turn is over. */
  function Done(s: Sub): Sub {
    s.(status := Completed, progress := 1.0, result := Some(SampleFor(s.kind)))
  }

  /**
   * The simulated log has 2 + 6n entries: `task_started`, the six phase
   * entries of every subtask in list order, and `task_completed`; at the
   * end the task and all its subtasks are completed.
   */
  lemma SimulatedLog(t: Task)
    ensures var r := Simulate(t);
      && |r.logs| == 2 + 6 * |t.subtasks|
      && r.logs[0] == Entry(None, TaskStarted) && r.logs[|r.logs| - 1] == Entry(None, TaskCompleted)
      && (forall j, k :: 0 <= j < |t.subtasks| && 0 <= k < 6 ==> r.logs[1 + 6 * j + k] == PhaseEntry(t.subtasks[j], k))
      && r.final.status == Completed && r.final.result == Some(SampleResult)
      && |r.final.subtasks| == |t.subtasks|
      && (forall j :: 0 <= j < |t.subtasks| ==> r.final.subtasks[j] == Done(t.subtasks[j]))
      && (|t.subtasks| > 0 ==> r.final.progress == 1.0)
  {
    var t1 := t.(status := InProgress);
    WorkLogs(t1, 0);
    WorkFinalSubtasks(t1, 0);
    WorkFinalTask(t1, 0);
  }

  /** For the submitted plan the log has exactly twenty entries. */
  lemma SubmittedRunLogsTwenty(taskId: string, ids: (string, string, string))
    ensures |Simulate(Submit(taskId, ids)).logs| == 20
  {
    SimulatedLog(Submit(taskId, ids));
  }

  // ---------------------------------------------------------------------------
  // Strictly one subtask at a time

  /** No subtask has left pending while an earlier one is unfinished. */
  predicate Sequential(subs: seq<Sub>) {
    forall a, b :: 0 <= a < b < |subs| && subs[b].status != Pending ==> subs[a].status == Completed
  }

  /** Subtasks before `i` are completed and those after it pending. */
  predicate Turn(subs: seq<Sub>, i: nat) {
    forall a :: 0 <= a < |subs| ==> (a < i ==> subs[a].status == Completed) && (a > i ==> subs[a].status == Pending)
  }

  lemma TurnSequential(subs: seq<Sub>, i: nat)
    requires Turn(subs, i)
    ensures Sequential(subs)
  {
  }

  /** Every task snapshot stored during subtask `i`'s turn has the subtasks before it completed and those after it pending. */
  lemma RunSubtaskTurn(t: Task, i: nat)
    requires i < |t.subtasks| && Turn(t.subtasks, i)
    ensures forall m :: 0 <= m < 7 ==> Turn(RunSubtask(t, i).snapshots[m].subtasks, i)
    ensures Turn(RunSubtask(t, i).final.subtasks, i + 1)
  {
    var r := RunSubtask(t, i);
    forall m | 0 <= m < 7
      ensures Turn(r.snapshots[m].subtasks, i)
    {
      assert forall a :: 0 <= a < |t.subtasks| && a != i ==> r.snapshots[m].subtasks[a] == t.subtasks[a];
    }
  }

  /** Every snapshot shows the subtasks going in list order. */
  predicate AllSequential(snapshots: seq<Task>) {
    forall m :: 0 <= m < |snapshots| ==> Sequential(snapshots[m].subtasks)
  }

  lemma AllSequentialConcat(a: seq<Task>, b: seq<Task>)
    requires AllSequential(a) && AllSequential(b)
    ensures AllSequential(a + b)
  {
    forall m | 0 <= m < |a + b|
      ensures Sequential((a + b)[m].subtasks)
    {
      if m >= |a| {
        assert (a + b)[m] == b[m - |a|];
      }
    }
  }

  lemma TurnsSequential(snapshots: seq<Task>, i: nat)
    requires forall m :: 0 <= m < |snapshots| ==> Turn(snapshots[m].subtasks, i)
    ensures AllSequential(snapshots)
  {
    forall m | 0 <= m < |snapshots|
      ensures Sequential(snapshots[m].subtasks)
    {
      TurnSequential(snapshots[m].subtasks, i);
    }
  }

  lemma {:induction false} WorkSequential(t: Task, i: nat)
    requires i <= |t.subtasks| && Turn(t.subtasks, i)
    ensures AllSequential(Work(t, i).snapshots)
    ensures Turn(Work(t, i).final.subtasks, |t.subtasks|)
    decreases |t.subtasks| - i
  {
    if i < |t.subtasks| {
      var one := RunSubtask(t, i);
      RunSubtaskTurn(t, i);
      TurnsSequential(one.snapshots, i);
      WorkSequential(one.final, i + 1);
      WorkSplit(t, i);
      AllSequentialConcat(one.snapshots, Work(one.final, i + 1).snapshots);
    }
  }

  /** Run on a task whose subtasks are all pending, every stored snapshot shows the subtasks going strictly in list order. */
  lemma SimulationIsSequential(t: Task)
    requires AllPending(t.subtasks)
    ensures AllSequential(Simulate(t).snapshots)
  {
    var t1 := t.(status := InProgress);
    var w := Work(t1, 0);
    assert Turn(t1.subtasks, 0);
    WorkSequential(t1, 0);
    TurnSequential(t1.subtasks, 0);
    TurnSequential(w.final.subtasks, |t.subtasks|);
    var tf := w.final.(status := Completed, result := Some(SampleResult));
    assert AllSequential([t1]);
    assert AllSequential([tf]);
    AllSequentialConcat([t1], w.snapshots);
    AllSequentialConcat([t1] + w.snapshots, [tf]);
  }

  /** After subtask `j`'s turn, the stored task progress is (j + 1) / n. */
  lemma {:induction false} WorkProgress(t: Task, i: nat, j: nat)
    requires i <= j < |t.subtasks|
    ensures Work(t, i).snapshots[7 * (j - i) + 6].progress == Share(j + 1, |t.subtasks|)
    decreases |t.subtasks| - i, 1
  {
    if j > i {
      WorkProgressLater(t, i, j);
    } else {
      var one := RunSubtask(t, i);
      WorkSplit(t, i);
      RunSubtaskProgress(t, i);
      InBlock(one.snapshots, Work(one.final, i + 1).snapshots, Work(t, i).snapshots, 6);
    }
  }

  lemma {:induction false} WorkProgressLater(t: Task, i: nat, j: nat)
    requires i < j < |t.subtasks|
    ensures Work(t, i).snapshots[7 * (j - i) + 6].progress == Share(j + 1, |t.subtasks|)
    decreases |t.subtasks| - i, 0
  {
    var one := RunSubtask(t, i);
    var rest := Work(one.final, i + 1);
    var k := 7 * (j - (i + 1)) + 6;
    WorkSplit(t, i);
    WorkProgress(one.final, i + 1, j);
    ShiftSix(i, j, 6);
    assert |one.snapshots| + k == 7 * (j - i) + 6;
    assert |one.final.subtasks| == |t.subtasks|;
    AfterBlock(one.snapshots, rest.snapshots, Work(t, i).snapshots, k);
  }

  /** Position `k` in the second of two sequences is position `|a| + k` of their concatenation. */
  lemma AfterBlock<T>(a: seq<T>, b: seq<T>, c: seq<T>, k: nat)
    requires c == a + b && k < |b|
    ensures c[|a| + k] == b[k]
  {
  }

  /** Position `k` in the first of two sequences is position `k` of their concatenation. */
  lemma InBlock<T>(a: seq<T>, b: seq<T>, c: seq<T>, k: nat)
    requires c == a + b && k < |a|
    ensures c[k] == a[k]
  {
  }

  lemma WorkSplit(t: Task, i: nat)
    requires i < |t.subtasks|
    ensures Work(t, i).snapshots == RunSubtask(t, i).snapshots + Work(RunSubtask(t, i).final, i + 1).snapshots
    ensures Work(t, i).final == Work(RunSubtask(t, i).final, i + 1).final
  {
  }

  /** The last snapshot of subtask `i`'s turn records the task progress (i + 1) / n. */
  lemma RunSubtaskProgress(t: Task, i: nat)
    requires i < |t.subtasks|
    ensures RunSubtask(t, i).snapshots[6].progress == Share(i + 1, |t.subtasks|)
  {
  }

  lemma SimulatedProgress(t: Task, j: nat)
    requires j < |t.subtasks|
    ensures Simulate(t).snapshots[1 + 7 * j + 6].progress == Share(j + 1, |t.subtasks|)
  {
    var t1 := t.(status := InProgress);
    WorkProgress(t1, 0, j);
    AfterBlock([t1], Work(t1, 0).snapshots, [t1] + Work(t1, 0).snapshots, 7 * j + 6);
    assert Simulate(t).snapshots == [t1] + Work(t1, 0).snapshots + [Simulate(t).final];
  }
}
