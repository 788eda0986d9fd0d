/**
 * `_execute_subtask`: one worker run for one subtask, either inside a
 * container or directly with the agent, and the log entries it appends.
 *
 * Log entries written here come from `ExecutionLogEntry.dict()`, so their
 * timestamps are still datetime objects (`DateTime`).
 */
module SubtaskRun {
  import opened Wrappers
  import opened Models
  import Containers

  /**
   * What the outside world supplies for one run: the subtask `agent.execute`
   * hands back, the dictionary `execute_in_container` returns, the text
   * `f"{progress * 100:.1f}"` renders for the final progress, and the message
   * of an exception raised on the way, if any.
   */
  datatype Run = Run(agentResult: Subtask, container: Containers.Outcome, percent: string, raised: Option<string>)

  /** What a finished run leaves behind. */
  datatype Worked = Worked(subtask: Subtask, logs: seq<LogEntry>)

  const ContainerFailed := "Container execution failed"

  /** Container isolation is used when it is switched on, for every type except the planner. */
  predicate InContainer(useContainers: bool, kind: string) {
    useContainers && kind != "planner"
  }

  function Entry(s: Subtask, action: string, details: string, now: int): (e: LogEntry)
    ensures e.timestamp == DateTime(now) && e.subtaskId == Some(s.id) && e.subtaskType == Some(s.kind)
    ensures e.action == action && e.details == Some(details)
  {
    LogEntry(DateTime(now), Some(s.id), Some(s.kind), action, Some(details))
  }

  /** The entry a worker appends as soon as it starts: only container runs write one. */
  function StartLogs(s: Subtask, useContainers: bool, now: int): (r: seq<LogEntry>)
    ensures InContainer(useContainers, s.kind) ==> r == [Entry(s, "container_started", "Starting container for " + s.kind, now)]
    ensures !InContainer(useContainers, s.kind) ==> r == []
  {
    if InContainer(useContainers, s.kind) then [Entry(s, "container_started", "Starting container for " + s.kind, now)] else []
  }

  /** `d.get(key)` on a container outcome. */
  function Field(o: Containers.Outcome, key: string): (r: Option<string>)
    ensures r.Some? <==> key in o.fields
    ensures r.Some? ==> r.value == o.fields[key]
  {
    if key in o.fields then Some(o.fields[key]) else None
  }

  /**
   * The subtask after a container run: completed with the container's
   * result when the outcome's status is "completed", failed with its error
   * (or a fixed message when that is missing or empty) otherwise.
   */
  function FromContainer(s: Subtask, o: Containers.Outcome, now: int): (r: Subtask)
    ensures r.id == s.id && r.kind == s.kind && r.dependencies == s.dependencies
    ensures r.containerId == o.containerId
    ensures r.status == Completed <==> Field(o, "status") == Some("completed")
    ensures r.status == Completed ==> r.result == Field(o, "result") && r.progress == 1.0 && r.error == s.error
    ensures r.status != Completed ==> r.status == Failed && r.progress == 0.0 && r.result == s.result
    ensures r.status != Completed && Field(o, "error").Some? && Field(o, "error").value != "" ==> r.error == Field(o, "error")
    ensures r.status != Completed && (Field(o, "error").None? || Field(o, "error").value == "") ==> r.error == Some(ContainerFailed)
  {
    var withId := s.(containerId := o.containerId, updatedAt := DateTime(now));
    if Field(o, "status") == Some("completed") then
      withId.(status := Completed, result := Field(o, "result"), progress := 1.0)
    else
      var err := Field(o, "error");
      withId.(status := Failed, error := if err.Some? && err.value != "" then err else Some(ContainerFailed), progress := 0.0)
  }

  /** The subtask after a direct run: status, progress, result and error are copied from the agent's answer. */
  function FromAgent(s: Subtask, answer: Subtask, now: int): (r: Subtask)
    ensures r.id == s.id && r.kind == s.kind && r.dependencies == s.dependencies && r.containerId == s.containerId
    ensures r.status == answer.status && r.progress == answer.progress
    ensures r.result == answer.result && r.error == answer.error
  {
    s.(status := answer.status, progress := answer.progress, result := answer.result,
       error := answer.error, updatedAt := DateTime(now))
  }

  function RaisedError(s: Subtask, message: string): string {
    "Error executing subtask " + s.id + ": " + message
  }

  /**
   * The end of a run: the subtask as the worker returns it, and the entries
   * the worker appends when it finishes.
   */
  function Finish(s: Subtask, run: Run, useContainers: bool, now: int): (r: Worked)
    ensures r.subtask.id == s.id && r.subtask.kind == s.kind && r.subtask.dependencies == s.dependencies
    ensures |r.logs| == 1 && r.logs[0].timestamp == DateTime(now)
    ensures r.logs[0].subtaskId == Some(s.id) && r.logs[0].subtaskType == Some(s.kind)
    ensures run.raised.Some? ==>
      r.subtask.status == Failed && r.subtask.error == Some(RaisedError(s, run.raised.value))
      && r.logs[0].action == "failed" && r.logs[0].details == r.subtask.error
    ensures run.raised.None? && InContainer(useContainers, s.kind) ==>
      r.subtask == FromContainer(s, run.container, now)
      && r.logs[0].action == (if r.subtask.status == Completed then "container_completed" else "container_failed")
      && r.logs[0].details == Some("Container execution " + StatusValue(r.subtask.status))
    ensures run.raised.None? && !InContainer(useContainers, s.kind) ==>
      r.subtask == FromAgent(s, run.agentResult, now)
      && r.logs[0].action == (if r.subtask.status == Completed then "completed" else "failed")
      && r.logs[0].details == Some("Progress: " + run.percent + "%")
  {
    match run.raised
    case Some(message) =>
      var failed := s.(status := Failed, error := Some(RaisedError(s, message)), updatedAt := DateTime(now));
      Worked(failed, [Entry(s, "failed", RaisedError(s, message), now)])
    case None =>
      if InContainer(useContainers, s.kind) then
        var after := FromContainer(s, run.container, now);
        var action := if after.status == Completed then "container_completed" else "container_failed";
        Worked(after, [Entry(s, action, "Container execution " + StatusValue(after.status), now)])
      else
        var after := FromAgent(s, run.agentResult, now);
        var action := if after.status == Completed then "completed" else "failed";
        Worked(after, [Entry(s, action, "Progress: " + run.percent + "%", now)])
  }

  /** A container run always ends settled: completed or failed, never pending or in progress. */
  lemma ContainerRunSettles(s: Subtask, run: Run, useContainers: bool, now: int)
    requires InContainer(useContainers, s.kind) || run.raised.Some?
    ensures Finish(s, run, useContainers, now).subtask.status in {Completed, Failed}
  {
  }

  /** The container's own failure messages reach the subtask's error unchanged. */
  lemma ContainerErrorsPropagate(s: Subtask, run: Run, created: Option<string>, started: bool,
                                 poll: nat -> Containers.State, logs: string,
                                 parse: string -> Option<Containers.Fields>, now: int)
    requires run.raised.None? && s.kind != "planner"
    requires run.container == Containers.ExecuteInContainer(created, started, poll, logs, parse)
    requires created.None? || (created.value != "" && !started)
    ensures var after := Finish(s, run, true, now).subtask;
      after.status == Failed && after.progress == 0.0
      && after.error == Some(if created.None? then Containers.CreateFailed else Containers.StartFailed)
      && after.containerId == (if created.None? then None else created)
  {
  }
}
