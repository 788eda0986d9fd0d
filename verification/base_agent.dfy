/**
 * What every agent shares: the progress update with its clamp, and the
 * simulated step-by-step lifecycle the data-analysis, content-creation and
 * code-generation agents run before producing their output.
 */
module BaseAgent {
  import opened Wrappers
  import opened Models

  /** `max(0.0, min(1.0, p))` */
  function Clamp(p: real): (r: real)
    ensures 0.0 <= r <= 1.0
    ensures 0.0 <= p <= 1.0 ==> r == p
    ensures p < 0.0 ==> r == 0.0
    ensures p > 1.0 ==> r == 1.0
  {
    var upper := if p < 1.0 then p else 1.0;
    if upper > 0.0 then upper else 0.0
  }

  /** Clamping a clamped value changes nothing. */
  lemma ClampIdempotent(p: real)
    ensures Clamp(Clamp(p)) == Clamp(p)
  {
  }

  /** Clamping keeps the order of progress values. */
  lemma ClampMonotone(p: real, q: real)
    requires p <= q
    ensures Clamp(p) <= Clamp(q)
  {
  }

  /**
   * `update_progress(subtask, progress, result, error)` at clock reading
   * `now`: progress is clamped, and result and error are overwritten only
   * when a value is passed.
   */
  function UpdateProgress(s: Subtask, progress: real, result: Option<string>, error: Option<string>, now: int): (r: Subtask)
    ensures r.progress == Clamp(progress) && r.updatedAt == DateTime(now)
    ensures r.result == (if result.Some? then result else s.result)
    ensures r.error == (if error.Some? then error else s.error)
    ensures r.id == s.id && r.kind == s.kind && r.status == s.status
    ensures r.dependencies == s.dependencies && r.description == s.description
    ensures r.containerId == s.containerId && r.createdAt == s.createdAt
  {
    s.(progress := Clamp(progress),
       updatedAt := DateTime(now),
       result := if result.Some? then result else s.result,
       error := if error.Some? then error else s.error)
  }

  /** Repeating an update with the same arguments has no further effect. */
  lemma UpdateProgressIdempotent(s: Subtask, progress: real, result: Option<string>, error: Option<string>, now: int)
    ensures var once := UpdateProgress(s, progress, result, error, now);
      UpdateProgress(once, progress, result, error, now) == once
  {
  }

  /** `(i + 0.5) / total_steps` */
  function StepProgress(i: nat, steps: nat): (r: real)
    requires i < steps
    ensures 0.0 < r < 1.0
  {
    RatioBetweenZeroAndOne(i as real + 0.5, steps as real);
    (i as real + 0.5) / steps as real
  }

  lemma RatioBetweenZeroAndOne(a: real, b: real)
    requires 0.0 < a < b
    ensures 0.0 < a / b < 1.0
  {
    var q := a / b;
    assert q * b == a;
    var d := 1.0 - q;
    assert d * b == b - a;
    assert d * b > 0.0;
  }

  /** Later steps report more progress. */
  lemma StepProgressIncreasing(i: nat, j: nat, steps: nat)
    requires i < j < steps
    ensures StepProgress(i, steps) < StepProgress(j, steps)
  {
    DivideKeepsOrder(i as real + 0.5, j as real + 0.5, steps as real);
  }

  lemma DivideKeepsOrder(a: real, b: real, n: real)
    requires a < b && n > 0.0
    ensures a / n < b / n
  {
    var d := b / n - a / n;
    assert d * n == b - a;
    assert d * n > 0.0;
  }

  /** An exception raised by an agent's body after `afterSteps` of its steps have run. */
  datatype Fault = Fault(afterSteps: nat, message: string)

  /** The subtask after the first `k` steps: each step sets its progress and an "In progress" result. */
  function AfterSteps(s: Subtask, steps: seq<string>, k: nat, now: int): (r: Subtask)
    requires k <= |steps|
    ensures k == 0 ==> r == s
    ensures k > 0 ==> r.progress == StepProgress(k - 1, |steps|)
    ensures k > 0 ==> r.result == Some("In progress: " + steps[k - 1])
    ensures r.status == s.status && r.error == s.error && r.id == s.id && r.kind == s.kind
    ensures r.dependencies == s.dependencies
  {
    if k == 0 then s
    else
      var before := AfterSteps(s, steps, k - 1, now);
      UpdateProgress(before, StepProgress(k - 1, |steps|), Some("In progress: " + steps[k - 1]), None, now)
  }

  /**
   * The shared `execute` of the simulated agents: mark the subtask in
   * progress, run the steps, then either complete with `output` or, when
   * the body raises, fail with `errorPrefix` followed by the message.
   */
  function RunSimulated(s: Subtask, steps: seq<string>, output: string, errorPrefix: string,
                        fault: Option<Fault>, now: int): (r: Subtask)
    ensures r.id == s.id && r.kind == s.kind && r.dependencies == s.dependencies
    ensures fault.None? ==> r.status == Completed && r.progress == 1.0 && r.result == Some(output)
    ensures fault.None? ==> r.error == s.error
    ensures fault.Some? ==> r.status == Failed && r.error == Some(errorPrefix + fault.value.message)
    ensures fault.Some? && 0 < fault.value.afterSteps <= |steps| ==>
      r.progress == StepProgress(fault.value.afterSteps - 1, |steps|)
    ensures 0.0 <= s.progress <= 1.0 ==> 0.0 <= r.progress <= 1.0
  {
    var running := s.(status := InProgress);
    match fault
    case None =>
      var stepped := AfterSteps(running, steps, |steps|, now);
      stepped.(status := Completed, progress := 1.0, result := Some(output), updatedAt := DateTime(now))
    case Some(f) =>
      var k := if f.afterSteps <= |steps| then f.afterSteps else |steps|;
      var stepped := AfterSteps(running, steps, k, now);
      stepped.(status := Failed, error := Some(errorPrefix + f.message), updatedAt := DateTime(now))
  }

  /**
   * `context.get('task', '') if context else ''`: the task text an agent
   * works from, empty when there is no context or it carries no task.
   */
  function ContextTask(ctx: Option<WorkerContext>): (r: string)
    ensures ctx.Some? && ctx.value.task.Some? ==> r == ctx.value.task.value
    ensures ctx.None? || ctx.value.task.None? ==> r == ""
  {
    match ctx
    case None => ""
    case Some(c) => c.task.GetOr("")
  }
}
