/**
 * The task data model: status values, subtasks and their dependencies,
 * execution-log entries, task requests and responses, and the two ways the
 * system turns them into JSON text.
 *
 * Clock readings are integers. A timestamp field holds either a datetime
 * object (`DateTime`) or the ISO text produced from one (`Iso`); which of
 * the two a record holds matters, because the plain JSON encoder rejects the
 * first.
 */
module Models {
  import opened Wrappers

  // ---------------------------------------------------------------------------
  // Status

  datatype Status = Pending | InProgress | Completed | Failed

  /** The string value each status member carries. */
  function StatusValue(s: Status): string {
    match s
    case Pending => "pending"
    case InProgress => "in_progress"
    case Completed => "completed"
    case Failed => "failed"
  }

  /** `TaskStatus(v)`: looks a status up by its value. */
  function ParseStatus(v: string): (r: Option<Status>)
    ensures r.Some? ==> StatusValue(r.value) == v
  {
    if v == "pending" then Some(Pending)
    else if v == "in_progress" then Some(InProgress)
    else if v == "completed" then Some(Completed)
    else if v == "failed" then Some(Failed)
    else None
  }

  /** Every status is recovered from its value, and exactly four values name a status. */
  lemma StatusValueRoundTrip(s: Status)
    ensures ParseStatus(StatusValue(s)) == Some(s)
  {
  }

  lemma StatusValuesAreFour(v: string)
    ensures ParseStatus(v).Some? <==> v in {"pending", "in_progress", "completed", "failed"}
  {
  }

  // ---------------------------------------------------------------------------
  // Records

  /** A timestamp as a datetime object or as its ISO text. */
  datatype TimeField = DateTime(at: int) | Iso(at: int)

  datatype Dependency = Dependency(subtaskId: string)

  datatype Subtask = Subtask(
    id: string,
    kind: string,
    status: Status,
    description: Option<string>,
    result: Option<string>,
    error: Option<string>,
    progress: real,
    dependencies: Option<seq<Dependency>>,
    containerId: Option<string>,
    createdAt: TimeField,
    updatedAt: TimeField)
  {
    /** The dependency ids, with an absent list read as empty. */
    function DependencyIds(): (r: seq<string>)
      ensures dependencies.None? ==> r == []
      ensures dependencies.Some? ==> |r| == |dependencies.value|
      ensures dependencies.Some? ==> forall i :: 0 <= i < |r| ==> r[i] == dependencies.value[i].subtaskId
    {
      match dependencies
      case None => []
      case Some(ds) => seq(|ds|, i requires 0 <= i < |ds| => ds[i].subtaskId)
    }
  }

  /** `Subtask(id=..., type=..., status=..., description=...)` built at clock reading `now`. */
  function NewSubtask(id: string, kind: string, status: Status, description: Option<string>, now: int): (s: Subtask)
    ensures s.id == id && s.kind == kind && s.status == status && s.description == description
    ensures s.progress == 0.0
    ensures s.result.None? && s.error.None? && s.dependencies.None? && s.containerId.None?
    ensures s.createdAt == DateTime(now) && s.updatedAt == DateTime(now)
  {
    Subtask(id, kind, status, description, None, None, 0.0, None, None, DateTime(now), DateTime(now))
  }

  /** One execution-log record. Only the action is required. */
  datatype LogEntry = LogEntry(
    timestamp: TimeField,
    subtaskId: Option<string>,
    subtaskType: Option<string>,
    action: string,
    details: Option<string>)

  /** What the scheduler records about a subtask that completed: its id, type and result. */
  datatype ResultEntry = ResultEntry(id: string, kind: string, result: Option<string>)

  /** A context dictionary, in insertion order, with values rendered as text. */
  type Context = seq<(string, string)>

  /**
   * The context handed to an agent: the entries of the request's own context
   * other than `task` and `subtask_results`, which agents pass along but do
   * not read; the original task text (absent when the request record is
   * missing); and the `subtask_results` list, which is the results of the
   * subtasks completed so far once one has completed, and before that
   * whatever list the request's context itself carried under that key.
   */
  datatype WorkerContext = WorkerContext(entries: Context, task: Option<string>, subtaskResults: Option<seq<ResultEntry>>)

  datatype TaskRequest = TaskRequest(task: string, context: Context, priority: int, agentType: Option<string>)

  /** `TaskRequest(task=...)` with every other field at its default. */
  function NewTaskRequest(task: string): (r: TaskRequest)
    ensures r.task == task && r.context == [] && r.priority == 1 && r.agentType.None?
  {
    TaskRequest(task, [], 1, None)
  }

  datatype TaskResponse = TaskResponse(
    taskId: string,
    status: Status,
    result: Option<string>,
    error: Option<string>,
    progress: real,
    subtasks: seq<Subtask>,
    createdAt: TimeField,
    updatedAt: TimeField)

  // ---------------------------------------------------------------------------
  // Dictionary rendering and loading

  function AsIso(t: TimeField): (r: TimeField)
    ensures r.Iso? && r.at == t.at
  {
    Iso(t.at)
  }

  function AsDateTime(t: TimeField): (r: TimeField)
    ensures r.DateTime? && r.at == t.at
  {
    DateTime(t.at)
  }

  predicate SubtaskIsRendered(s: Subtask) {
    s.createdAt.Iso? && s.updatedAt.Iso?
  }

  /** `Subtask.dict()`: both timestamps become ISO text; every other field is kept. */
  function SubtaskDict(s: Subtask): (r: Subtask)
    ensures SubtaskIsRendered(r)
    ensures r.createdAt.at == s.createdAt.at && r.updatedAt.at == s.updatedAt.at
    ensures r.(createdAt := s.createdAt, updatedAt := s.updatedAt) == s
  {
    s.(createdAt := AsIso(s.createdAt), updatedAt := AsIso(s.updatedAt))
  }

  /** `Subtask(**d)`: the validator parses ISO text back into datetimes. */
  function LoadSubtask(d: Subtask): (r: Subtask)
    ensures r.createdAt.DateTime? && r.updatedAt.DateTime?
    ensures r.(createdAt := d.createdAt, updatedAt := d.updatedAt) == d
  {
    d.(createdAt := AsDateTime(d.createdAt), updatedAt := AsDateTime(d.updatedAt))
  }

  /** A subtask holding datetimes survives rendering and loading unchanged. */
  lemma SubtaskDictRoundTrip(s: Subtask)
    requires s.createdAt.DateTime? && s.updatedAt.DateTime?
    ensures LoadSubtask(SubtaskDict(s)) == s
  {
  }

  /** Rendering twice is rendering once. */
  lemma SubtaskDictIdempotent(s: Subtask)
    ensures SubtaskDict(SubtaskDict(s)) == SubtaskDict(s)
  {
  }

  /** `TaskResponse.dict()`: the task's timestamps and those of every nested subtask become ISO text. */
  function TaskDict(t: TaskResponse): (r: TaskResponse)
    ensures r.createdAt == AsIso(t.createdAt) && r.updatedAt == AsIso(t.updatedAt)
    ensures |r.subtasks| == |t.subtasks|
    ensures forall i :: 0 <= i < |t.subtasks| ==> r.subtasks[i] == SubtaskDict(t.subtasks[i])
    ensures r.(createdAt := t.createdAt, updatedAt := t.updatedAt, subtasks := t.subtasks) == t
  {
    t.(createdAt := AsIso(t.createdAt), updatedAt := AsIso(t.updatedAt),
       subtasks := seq(|t.subtasks|, i requires 0 <= i < |t.subtasks| => SubtaskDict(t.subtasks[i])))
  }

  /** No datetime is left anywhere in a rendered task. */
  lemma TaskDictFullyRendered(t: TaskResponse)
    ensures TaskDict(t).createdAt.Iso? && TaskDict(t).updatedAt.Iso?
    ensures forall s :: s in TaskDict(t).subtasks ==> SubtaskIsRendered(s)
  {
  }

  // ---------------------------------------------------------------------------
  // JSON encoding of execution logs

  const DatetimeNotSerializable := "Object of type datetime is not JSON serializable"

  predicate HasDateTime(log: seq<LogEntry>) {
    exists i | 0 <= i < |log| :: log[i].timestamp.DateTime?
  }

  /**
   * `json.dumps(log)` with the default encoder: it refuses any record whose
   * timestamp is still a datetime object, and otherwise writes the records
   * as they are.
   */
  function PlainDumps(log: seq<LogEntry>): (r: Result<seq<LogEntry>, string>)
    ensures r.Failure? <==> HasDateTime(log)
    ensures r.Success? ==> r.value == log
  {
    if HasDateTime(log) then Failure(DatetimeNotSerializable) else Success(log)
  }

  /** `json_utils.dumps(log)`: datetimes are written as their ISO text, so encoding always succeeds. */
  function EncoderDumps(log: seq<LogEntry>): (r: seq<LogEntry>)
    ensures |r| == |log| && !HasDateTime(r)
    ensures forall i :: 0 <= i < |log| ==> r[i] == log[i].(timestamp := AsIso(log[i].timestamp))
  {
    seq(|log|, i requires 0 <= i < |log| => log[i].(timestamp := AsIso(log[i].timestamp)))
  }

  /** On a log the plain encoder accepts, both encoders write the same thing. */
  lemma EncodersAgreeWithoutDatetimes(log: seq<LogEntry>)
    requires !HasDateTime(log)
    ensures PlainDumps(log) == Success(EncoderDumps(log))
  {
    assert EncoderDumps(log) == log;
  }
}
