/**
 * The API's replay support in `src/api/app.py`: the replay duration, the
 * replay endpoint's ordering of stored log records, the websocket replay
 * with its pacing and `command` control messages, the rule by which the
 * live log stream sends only new records, and task deletion.
 *
 * A stored log record is seen through its timestamp: the text it carries
 * (compared as a string when sorting) and, when that text parses as an ISO
 * date, the instant it names, in seconds.
 */
module Replay {
  import opened Wrappers
  import Strings
  import Sorting

  datatype Stamp = Stamp(text: string, instant: Option<real>)

  /** A stored log record: its timestamp, if it has one, and the rest of the record. */
  datatype Record = Record(timestamp: Option<Stamp>, body: string)

  /** `x.get('timestamp', '')`, the sort key. */
  function KeyText(r: Record): string {
    if r.timestamp.Some? then r.timestamp.value.text else ""
  }

  /** The instant `datetime.fromisoformat(x.get('timestamp', ''))` yields, if it parses. */
  function InstantOf(r: Record): (t: Option<real>)
    ensures t.Some? ==> r.timestamp.Some? && r.timestamp.value.instant == t
  {
    if r.timestamp.Some? then r.timestamp.value.instant else None
  }

  /** `sorted(logs, key=lambda x: x.get('timestamp', ''))` */
  function SortLogs(logs: seq<Record>): (r: seq<Record>)
    ensures |r| == |logs| && multiset(r) == multiset(logs)
  {
    Sorting.SortBy(logs, KeyText, Strings.LexLe)
  }

  /**
   * The sorted records are in timestamp-text order, are the stored records
   * rearranged, and records with the same timestamp text keep their stored
   * order.
   */
  lemma SortLogsFacts(logs: seq<Record>, k: string)
    ensures Sorting.SortedBy(SortLogs(logs), KeyText, Strings.LexLe)
    ensures multiset(SortLogs(logs)) == multiset(logs)
    ensures Sorting.SameKey(SortLogs(logs), KeyText, Strings.LexLe, k) == Sorting.SameKey(logs, KeyText, Strings.LexLe, k)
  {
    Sorting.LexLeTotalPreorder();
    Sorting.SortBySorted(logs, KeyText, Strings.LexLe);
    Sorting.SortByStable(logs, KeyText, Strings.LexLe, k);
  }

  // ---------------------------------------------------------------------------
  // Duration

  /**
   * `calculate_replay_duration(logs, speed)`: zero for fewer than two
   * records, and zero when a timestamp does not parse or the division
   * fails; otherwise the time from the first record to the last, divided
   * by the speed.
   */
  function Duration(logs: seq<Record>, speed: real): (d: real)
    ensures |logs| < 2 ==> d == 0.0
    ensures |logs| >= 2 && InstantOf(logs[0]).Some? && InstantOf(logs[|logs| - 1]).Some? && speed != 0.0 ==>
      d * speed == InstantOf(logs[|logs| - 1]).value - InstantOf(logs[0]).value
    ensures |logs| >= 2 && (InstantOf(logs[0]).None? || InstantOf(logs[|logs| - 1]).None? || speed == 0.0) ==> d == 0.0
  {
    if |logs| < 2 then 0.0
    else
      var first := InstantOf(logs[0]);
      var last := InstantOf(logs[|logs| - 1]);
      if first.Some? && last.Some? && speed != 0.0 then (last.value - first.value) / speed else 0.0
  }

  /** Doubling the speed halves the duration. */
  lemma DurationHalves(logs: seq<Record>, speed: real)
    requires speed > 0.0
    ensures Duration(logs, 2.0 * speed) * 2.0 == Duration(logs, speed)
  {
    if |logs| >= 2 && InstantOf(logs[0]).Some? && InstantOf(logs[|logs| - 1]).Some? {
      var span := InstantOf(logs[|logs| - 1]).value - InstantOf(logs[0]).value;
      assert Duration(logs, speed) * speed == span;
      assert Duration(logs, 2.0 * speed) * (2.0 * speed) == span;
    }
  }

  // ---------------------------------------------------------------------------
  // HTTP replies

  datatype Reply<T> = Ok(value: T) | HttpError(code: nat, detail: string)

  /** What the replay endpoint returns; `duration` is absent when no log was stored. */
  datatype ReplayData = ReplayData(task: string, logs: seq<Record>, speed: real, duration: Option<real>)

  /** The speed query parameter is accepted when `0 < speed <= 10`. */
  predicate SpeedAccepted(speed: real) {
    0.0 < speed <= 10.0
  }

  /**
   * Marks the 422 reply to an out-of-range speed. FastAPI's query validation
   * writes its own list of validation errors as the body; that body is not
   * modelled.
   */
  const SpeedRejected := "speed out of range"
  const TaskNotFound := "Task not found"

  /**
   * `get_task_replay` as written: its own 404 is raised inside the `try`,
   * caught by `except Exception`, and re-raised as a 500 whose detail is the
   * text of the 404.
   */
  function GetReplayAsWritten(taskData: Option<string>, logsData: Option<seq<Record>>, speed: real): (r: Reply<ReplayData>)
    ensures !SpeedAccepted(speed) ==> r == HttpError(422, SpeedRejected)
    ensures SpeedAccepted(speed) && (taskData.None? || taskData.value == "") ==> r == HttpError(500, "404: " + TaskNotFound)
  {
    var corrected := GetReplay(taskData, logsData, speed);
    if corrected == HttpError(404, TaskNotFound) then HttpError(500, "404: " + TaskNotFound) else corrected
  }

  /**
   * `get_task_replay` with the 404 passed through: the stored records in
   * timestamp order with their duration, or no records and no duration
   * when none were stored.
   */
  function GetReplay(taskData: Option<string>, logsData: Option<seq<Record>>, speed: real): (r: Reply<ReplayData>)
    ensures !SpeedAccepted(speed) ==> r == HttpError(422, SpeedRejected)
    ensures SpeedAccepted(speed) && (taskData.None? || taskData.value == "") ==> r == HttpError(404, TaskNotFound)
    ensures SpeedAccepted(speed) && taskData.Some? && taskData.value != "" ==>
      r.Ok? && r.value.task == taskData.value && r.value.speed == speed
      && (logsData.None? ==> r.value.logs == [] && r.value.duration.None?)
      && (logsData.Some? ==> multiset(r.value.logs) == multiset(logsData.value)
                             && r.value.duration == Some(Duration(r.value.logs, speed)))
  {
    if !SpeedAccepted(speed) then HttpError(422, SpeedRejected)
    else if taskData.None? || taskData.value == "" then HttpError(404, TaskNotFound)
    else if logsData.None? then Ok(ReplayData(taskData.value, [], speed, None))
    else
      var sorted := SortLogs(logsData.value);
      Ok(ReplayData(taskData.value, sorted, speed, Some(Duration(sorted, speed))))
  }

  /** A missing task: a 500 as written, the intended 404 once corrected; every other request is answered alike. */
  lemma MissingTaskReplay(logsData: Option<seq<Record>>, speed: real)
    requires SpeedAccepted(speed)
    ensures GetReplayAsWritten(None, logsData, speed).code == 500
    ensures GetReplay(None, logsData, speed).code == 404
  {
  }

  lemma ReplayAgreesOtherwise(taskData: Option<string>, logsData: Option<seq<Record>>, speed: real)
    requires taskData.Some? && taskData.value != ""
    ensures GetReplayAsWritten(taskData, logsData, speed) == GetReplay(taskData, logsData, speed)
  {
  }

  // ---------------------------------------------------------------------------
  // Deletion

  type Store = map<string, string>

  function TaskKey(id: string): string { "task:" + id }
  function RequestKey(id: string): string { "task_request:" + id }
  function LogsKey(id: string): string { "task_logs:" + id }

  const StorageUnavailable := "Storage service unavailable"
  const InternalError := "Internal Server Error"

  datatype Deletion = Deleted(store: Store) | Refused(code: nat, detail: string)

  /**
   * `delete_task` with its error replies intact: 503 without a store, 404
   * when the task key is absent, and otherwise the task, request and log
   * keys of that id removed.
   */
  function Delete(available: bool, store: Store, id: string): (r: Deletion)
    ensures !available ==> r == Refused(503, StorageUnavailable)
    ensures available && TaskKey(id) !in store ==> r == Refused(404, TaskNotFound)
    ensures available && TaskKey(id) in store ==> r.Deleted?
    ensures r.Deleted? ==>
      && (forall k :: k in r.store <==> k in store && k != TaskKey(id) && k != RequestKey(id) && k != LogsKey(id))
      && (forall k :: k in r.store ==> r.store[k] == store[k])
  {
    if !available then Refused(503, StorageUnavailable)
    else if TaskKey(id) !in store then Refused(404, TaskNotFound)
    else Deleted(store - {TaskKey(id), RequestKey(id), LogsKey(id)})
  }

  /**
   * `delete_task` as written: the handler's first `except` clause names
   * `redis.RedisError`, but `redis` is not imported in the module, so any
   * exception raised in the `try` (its own 503 and 404 included) turns
   * into a `NameError`, which the server answers with a bare 500.
   */
  function DeleteAsWritten(available: bool, store: Store, id: string): (r: Deletion)
    ensures !available || TaskKey(id) !in store ==> r == Refused(500, InternalError)
    ensures available && TaskKey(id) in store ==> r == Delete(available, store, id)
  {
    match Delete(available, store, id)
    case Deleted(s) => Deleted(s)
    case Refused(_, _) => Refused(500, InternalError)
  }

  /** Deleting a task that is not stored: a 500 as written, the intended 404 once corrected. */
  lemma MissingTaskDelete(store: Store, id: string)
    requires TaskKey(id) !in store
    ensures DeleteAsWritten(true, store, id).code == 500
    ensures Delete(true, store, id).code == 404
  {
  }

  /** Deleting twice: the second request finds nothing and changes nothing. */
  lemma DeleteTwice(store: Store, id: string)
    requires TaskKey(id) in store
    ensures Delete(true, Delete(true, store, id).store, id) == Refused(404, TaskNotFound)
  {
  }

  // ---------------------------------------------------------------------------
  // The live log stream

  datatype Delta<T> = Delta(sent: Option<seq<T>>, last: nat)

  /**
   * One check of the live log stream: when the stored list has grown past
   * `last`, send the records from `last` on and remember the new length;
   * otherwise send nothing.
   */
  function LogDelta<T>(logs: seq<T>, last: nat): (r: Delta<T>)
    ensures r.sent.Some? <==> |logs| > last
    ensures r.sent.Some? ==> r.sent.value == logs[last..] && r.last == |logs|
    ensures r.sent.None? ==> r.last == last
  {
    if |logs| > last then Delta(Some(logs[last..]), |logs|) else Delta(None, last)
  }

  /** What a sent delta contributes to the client's copy. */
  function SentOf<T>(d: Delta<T>): seq<T> {
    if d.sent.Some? then d.sent.value else []
  }

  /**
   * Running the rule over successive stored lists: everything sent, and the
   * remembered length at the end.
   */
  function Stream<T>(snapshots: seq<seq<T>>, last: nat): (r: (seq<T>, nat))
    decreases |snapshots|
  {
    if |snapshots| == 0 then ([], last)
    else
      var d := LogDelta(snapshots[0], last);
      var rest := Stream(snapshots[1..], d.last);
      (SentOf(d) + rest.0, rest.1)
  }

  /** Each stored list extends the one before: the log is append-only. */
  ghost predicate Growing<T>(start: seq<T>, snapshots: seq<seq<T>>) {
    && (|snapshots| > 0 ==> |start| <= |snapshots[0]| && snapshots[0][..|start|] == start)
    && (forall k :: 0 <= k < |snapshots| - 1 ==>
          |snapshots[k]| <= |snapshots[k + 1]| && snapshots[k + 1][..|snapshots[k]|] == snapshots[k])
  }

  /**
   * When the log only grows, the client's copy (the records first sent,
   * then every delta) is exactly the latest stored list: nothing is lost
   * and nothing sent twice.
   */
  lemma {:induction false} StreamReassembles<T>(start: seq<T>, snapshots: seq<seq<T>>)
    requires Growing(start, snapshots)
    ensures var r := Stream(snapshots, |start|);
      start + r.0 == (if |snapshots| == 0 then start else snapshots[|snapshots| - 1])
      && r.1 == |start + r.0|
    decreases |snapshots|
  {
    if |snapshots| > 0 {
      var now := snapshots[0];
      var d := LogDelta(now, |start|);
      assert start + SentOf(d) == now by {
        if |now| > |start| {
          assert now == now[..|start|] + now[|start|..];
        }
      }
      assert Growing(now, snapshots[1..]) by {
        forall k | 0 <= k < |snapshots[1..]| - 1
          ensures |snapshots[1..][k]| <= |snapshots[1..][k + 1]| && snapshots[1..][k + 1][..|snapshots[1..][k]|] == snapshots[1..][k]
        {
          assert snapshots[1..][k] == snapshots[k + 1] && snapshots[1..][k + 1] == snapshots[k + 2];
        }
        if |snapshots| > 1 {
          assert snapshots[1..][0] == snapshots[1];
        }
      }
      StreamReassembles(now, snapshots[1..]);
      var rest := Stream(snapshots[1..], |now|);
      assert start + (SentOf(d) + rest.0) == now + rest.0;
      if |snapshots| > 1 {
        assert snapshots[1..][|snapshots[1..]| - 1] == snapshots[|snapshots| - 1];
      }
    }
  }

  /** Checking again before anything new is stored sends nothing. */
  lemma LogDeltaSettles<T>(logs: seq<T>, last: nat)
    ensures LogDelta(logs, LogDelta(logs, last).last).sent.None?
  {
  }
}
