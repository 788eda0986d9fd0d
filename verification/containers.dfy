/**
 * The container manager's decision logic. The Docker daemon is an oracle:
 * whether a container could be created (and the id it got), whether it
 * started, what each status poll reports, the logs it printed, and how the
 * JSON parser reads each log line.
 */
module Containers {
  import opened Wrappers
  import opened Strings
  import opened Seqs

  // ---------------------------------------------------------------------------
  // Tracking map: subtask id to container id

  type Tracking = map<string, string>

  /** `create_container` success: the subtask is recorded as running in `cid`. */
  function Record(t: Tracking, subtaskId: string, cid: string): (r: Tracking)
    ensures subtaskId in r && r[subtaskId] == cid
    ensures forall k :: k != subtaskId ==> (k in r <==> k in t) && (k in t ==> r[k] == t[k])
  {
    t[subtaskId := cid]
  }

  /** `remove_container(cid)` success: every entry that maps to `cid` is deleted, the rest kept. */
  function Remove(t: Tracking, cid: string): (r: Tracking)
    ensures forall k :: k in r ==> r[k] != cid
    ensures forall k :: k in t && t[k] != cid ==> k in r && r[k] == t[k]
    ensures forall k :: k in r ==> k in t
  {
    map k | k in t && t[k] != cid :: t[k]
  }

  /** Cleaning up a container undoes the tracking its creation added. */
  lemma RemoveUndoesRecord(t: Tracking, subtaskId: string, cid: string)
    requires subtaskId !in t
    ensures Remove(Record(t, subtaskId, cid), cid) == Remove(t, cid)
  {
  }

  /** Removal is idempotent. */
  lemma RemoveIdempotent(t: Tracking, cid: string)
    ensures Remove(Remove(t, cid), cid) == Remove(t, cid)
  {
  }

  /** Python's `s[:8]`. */
  function Prefix8(s: string): (r: string)
    ensures |r| == (if |s| < 8 then |s| else 8) && StartsWith(s, r)
  {
    if |s| < 8 then s else s[..8]
  }

  /** `agent-<type>-<first eight characters of the subtask id>` */
  function ContainerName(agentType: string, subtaskId: string): (r: string)
    ensures StartsWith(r, "agent-" + agentType + "-")
    ensures |r| == 7 + |agentType| + (if |subtaskId| < 8 then |subtaskId| else 8)
  {
    var head := "agent-" + agentType + "-";
    assert (head + Prefix8(subtaskId))[..|head|] == head;
    head + Prefix8(subtaskId)
  }

  // ---------------------------------------------------------------------------
  // Polling

  /** What `get_container_status` reports: the state name and, when known, the exit code. */
  datatype State = State(status: string, exitCode: Option<int>)

  const MaxPolls := 60

  /** The number of polls made when polling starts at `k`: stop after an `exited` report or the 60th poll. */
  function PollsUsed(poll: nat -> State, k: nat): (n: nat)
    requires k < MaxPolls
    ensures k < n <= MaxPolls
    ensures forall j :: k <= j < n - 1 ==> poll(j).status != "exited"
    ensures n < MaxPolls ==> poll(n - 1).status == "exited"
    decreases MaxPolls - k
  {
    if poll(k).status == "exited" || k == MaxPolls - 1 then k + 1
    else PollsUsed(poll, k + 1)
  }

  /** A poll that does not read `exited`, with polls left, passes on to the next. */
  lemma PollsUsedStep(poll: nat -> State, k: nat)
    requires k + 1 < MaxPolls && poll(k).status != "exited"
    ensures PollsUsed(poll, k) == PollsUsed(poll, k + 1)
  {
  }

  /** Polling stops at a poll that reads `exited` or is the last allowed. */
  lemma PollsUsedStop(poll: nat -> State, k: nat)
    requires k < MaxPolls && (poll(k).status == "exited" || k + 1 == MaxPolls)
    ensures PollsUsed(poll, k) == k + 1
  {
  }

  /** Polling from `k` makes `n` polls when those before the `n`-th do not read `exited` and the `n`-th stops it. */
  lemma {:induction false} PollsUsedIs(poll: nat -> State, k: nat, n: nat)
    requires k < n <= MaxPolls
    requires forall j :: k <= j < n - 1 ==> poll(j).status != "exited"
    requires poll(n - 1).status == "exited" || n == MaxPolls
    ensures PollsUsed(poll, k) == n
    decreases n - k
  {
    if k == n - 1 {
      PollsUsedStop(poll, k);
    } else {
      PollsUsedStep(poll, k);
      PollsUsedIs(poll, k + 1, n);
    }
  }

  /** The polling loop: returns the last status read and how many polls were made. */
  method PollUntilExited(poll: nat -> State) returns (status: State, count: nat)
    ensures count == PollsUsed(poll, 0) && 1 <= count <= MaxPolls
    ensures status == poll(count - 1)
    ensures count < MaxPolls ==> status.status == "exited"
  {
    status := poll(0);
    count := 1;
    while status.status != "exited" && count < MaxPolls
      invariant 1 <= count <= MaxPolls
      invariant status == poll(count - 1)
      invariant forall j :: 0 <= j < count - 1 ==> poll(j).status != "exited"
      decreases MaxPolls - count
    {
      status := poll(count);
      count := count + 1;
    }
    PollsUsedIs(poll, 0, count);
  }

  // ---------------------------------------------------------------------------
  // execute_in_container

  /** A JSON object read from a log line, with its string-valued fields. */
  type Fields = map<string, string>

  /** The dictionary `execute_in_container` returns: the outcome fields plus the container id. */
  datatype Outcome = Outcome(fields: Fields, containerId: Option<string>)

  const CreateFailed := "Failed to create container"
  const StartFailed := "Failed to start container"

  /** A log line the result search accepts: it parses as a JSON object with a `status` key. */
  predicate StatusLine(parse: string -> Option<Fields>, line: string) {
    parse(line).Some? && "status" in parse(line).value
  }

  /** The fields taken from the container: the first status line, or else the exit-code fallback. */
  function ResultFields(lines: seq<string>, logs: string, last: State, parse: string -> Option<Fields>): (r: Fields)
    ensures (exists i :: 0 <= i < |lines| && StatusLine(parse, lines[i])) ==>
      exists i :: 0 <= i < |lines| && StatusLine(parse, lines[i]) && r == parse(lines[i]).value
                  && forall j :: 0 <= j < i ==> !StatusLine(parse, lines[j])
    ensures (forall i :: 0 <= i < |lines| ==> !StatusLine(parse, lines[i])) ==>
      && "status" in r
      && (r["status"] == "completed" <==> last.exitCode == Some(0))
      && (r["status"] != "completed" ==> r["status"] == "failed")
      && (last.exitCode == Some(0) ==> "result" in r && r["result"] == logs && "error" !in r)
      && (last.exitCode != Some(0) ==> "error" in r && r["error"] == logs && "result" !in r)
  {
    match FirstIndex(lines, line => StatusLine(parse, line))
    case Some(i) => parse(lines[i]).value
    case None =>
      if last.exitCode == Some(0) then map["status" := "completed", "result" := logs]
      else map["status" := "failed", "error" := logs]
  }

  /**
   * `execute_in_container`: `created` is the id Docker gave the new
   * container (none, or an empty id, when creation failed), `started` whether
   * it started, `poll` the successive status reports, `logs` its output and
   * `parse` how each log line reads as JSON.
   */
  function ExecuteInContainer(created: Option<string>, started: bool, poll: nat -> State, logs: string,
                              parse: string -> Option<Fields>): (r: Outcome)
    ensures created.None? || created.value == "" ==>
      r == Outcome(map["status" := "failed", "error" := CreateFailed], None)
    ensures created.Some? && created.value != "" ==> r.containerId == created
    ensures created.Some? && created.value != "" && !started ==>
      r.fields == map["status" := "failed", "error" := StartFailed]
    ensures created.Some? && created.value != "" && started ==>
      r.fields == ResultFields(Split(logs, "\n"), logs, poll(PollsUsed(poll, 0) - 1), parse)
  {
    match created
    case None => Outcome(map["status" := "failed", "error" := CreateFailed], None)
    case Some(cid) =>
      if cid == "" then Outcome(map["status" := "failed", "error" := CreateFailed], None)
      else if !started then Outcome(map["status" := "failed", "error" := StartFailed], created)
      else
        var last := poll(PollsUsed(poll, 0) - 1);
        Outcome(ResultFields(Split(logs, "\n"), logs, last, parse), created)
  }

  /**
   * The tracking map after `execute_in_container`: `create_container` records
   * the container it created, even one whose id is empty; the clean-up
   * scheduled in the `finally` clause, which an empty id never reaches,
   * removes it again when `removed` says that removal succeeded.
   */
  function TrackingAfter(t: Tracking, subtaskId: string, created: Option<string>, removed: bool): (r: Tracking)
    ensures created.None? ==> r == t
    ensures created.Some? && (created.value == "" || !removed) ==> r == Record(t, subtaskId, created.value)
    ensures created.Some? && created.value != "" && removed ==> r == Remove(Record(t, subtaskId, created.value), created.value)
    ensures created.Some? && (created.value == "" || !removed) ==> subtaskId in r && r[subtaskId] == created.value
    ensures created.Some? && created.value != "" && removed ==> forall k :: k in r ==> r[k] != created.value
  {
    match created
    case None => t
    case Some(cid) =>
      if cid != "" && removed then Remove(Record(t, subtaskId, cid), cid)
      else Record(t, subtaskId, cid)
  }

  /** After a successful clean-up no entry refers to the container, and unrelated entries survive. */
  lemma CleanupForgetsContainer(t: Tracking, subtaskId: string, cid: string)
    requires cid != ""
    ensures var r := TrackingAfter(t, subtaskId, Some(cid), true);
      && (forall k :: k in r ==> r[k] != cid)
      && (forall k :: k in t && k != subtaskId && t[k] != cid ==> k in r && r[k] == t[k])
  {
  }
}
