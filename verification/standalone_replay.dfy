/**
 * The standalone server's replay (`standalone_server.py`): the replay
 * endpoint with its own duration rule, and the websocket replay. The
 * websocket replay reads its speed from the client's first message, sends
 * the task's initial state, then one `log_entry` per record in timestamp
 * order, each after a pause of the time since the previous record over the
 * speed (uncapped), and finally `replay_complete`. After each entry the
 * client may send an `action`: `pause` (then wait for `resume` or `stop`),
 * `stop`, or `set_speed` with a `speed`.
 *
 * The client is an input, as in `ReplaySocket`: its opening message, and
 * for each entry what the 0.1 s poll after it saw and the messages that
 * arrive while a pause lasts.
 */
module StandaloneReplay {
  import opened Wrappers
  import opened Replay
  import opened ReplaySocket

  // ---------------------------------------------------------------------------
  // The replay endpoint

  /**
   * The duration `get_task_replay` reports: zero for fewer than two
   * records; the time from the first stored record to the last over the
   * speed when both timestamps parse; otherwise two seconds per record.
   */
  function StandaloneDuration(logs: seq<Record>, speed: real): (d: real)
    requires speed > 0.0
    ensures |logs| < 2 ==> d == 0.0
    ensures |logs| >= 2 && InstantOf(logs[0]).Some? && InstantOf(logs[|logs| - 1]).Some? ==>
      d * speed == InstantOf(logs[|logs| - 1]).value - InstantOf(logs[0]).value
    ensures |logs| >= 2 && (InstantOf(logs[0]).None? || InstantOf(logs[|logs| - 1]).None?) ==>
      d == 2.0 * |logs| as real
  {
    if |logs| < 2 then 0.0
    else
      var first := InstantOf(logs[0]);
      var last := InstantOf(logs[|logs| - 1]);
      if first.Some? && last.Some? then (last.value - first.value) / speed else 2.0 * |logs| as real
  }

  /** Where both servers can time a replay, they agree on its duration. */
  lemma DurationsAgree(logs: seq<Record>, speed: real)
    requires speed > 0.0
    requires |logs| < 2 || (InstantOf(logs[0]).Some? && InstantOf(logs[|logs| - 1]).Some?)
    ensures StandaloneDuration(logs, speed) == Duration(logs, speed)
  {
    if |logs| >= 2 {
      var span := InstantOf(logs[|logs| - 1]).value - InstantOf(logs[0]).value;
      assert StandaloneDuration(logs, speed) * speed == span;
      assert Duration(logs, speed) * speed == span;
    }
  }

  /** Where a timestamp does not parse, the API reports no time and the standalone server two seconds a record. */
  lemma DurationsDiffer(logs: seq<Record>, speed: real)
    requires speed > 0.0 && |logs| >= 2
    requires InstantOf(logs[0]).None? || InstantOf(logs[|logs| - 1]).None?
    ensures Duration(logs, speed) == 0.0
    ensures StandaloneDuration(logs, speed) == 2.0 * |logs| as real
  {
  }

  /**
   * The standalone `get_task_replay`: 422 for a speed outside (0, 10]; 404
   * for a missing task (re-raised as it is); otherwise the records as
   * stored, unsorted, and their duration.
   */
  function GetReplayStandalone(taskData: Option<string>, logsData: Option<seq<Record>>, speed: real): (r: Reply<ReplayData>)
    ensures !SpeedAccepted(speed) ==> r == HttpError(422, SpeedRejected)
    ensures SpeedAccepted(speed) && (taskData.None? || taskData.value == "") ==> r == HttpError(404, TaskNotFound)
    ensures SpeedAccepted(speed) && taskData.Some? && taskData.value != "" ==>
      r.Ok? && r.value.task == taskData.value && r.value.speed == speed
      && (logsData.None? ==> r.value.logs == [])
      && (logsData.Some? ==> r.value.logs == logsData.value)
      && r.value.duration == Some(StandaloneDuration(r.value.logs, speed))
  {
    if !SpeedAccepted(speed) then HttpError(422, SpeedRejected)
    else if taskData.None? || taskData.value == "" then HttpError(404, TaskNotFound)
    else
      var logs := if logsData.None? then [] else logsData.value;
      Ok(ReplayData(taskData.value, logs, speed, Some(StandaloneDuration(logs, speed))))
  }

  /** Both servers answer the same requests with errors, and otherwise return the same records, reordered by the API only. */
  lemma EndpointsCompared(taskData: Option<string>, logsData: Option<seq<Record>>, speed: real)
    ensures GetReplayStandalone(taskData, logsData, speed).Ok? <==> GetReplay(taskData, logsData, speed).Ok?
    ensures GetReplayStandalone(taskData, logsData, speed).HttpError? ==>
      GetReplayStandalone(taskData, logsData, speed) == GetReplay(taskData, logsData, speed)
    ensures GetReplayStandalone(taskData, logsData, speed).Ok? ==>
      multiset(GetReplayStandalone(taskData, logsData, speed).value.logs) == multiset(GetReplay(taskData, logsData, speed).value.logs)
  {
  }

  // ---------------------------------------------------------------------------
  // The websocket replay

  /** The client's opening message: its settings, a disconnect, or something that is not JSON. */
  datatype Opening = Opened(speed: Option<Arg>) | Gone | Garbled

  const NoLogsAvailable := "No logs available for replay"

  /** How a `pause` ends: `resume` (or a failed receive), `stop`, or not within the messages that arrive. */
  datatype Hold = Resumed | StopAsked | Waiting

  /** The wait after `pause`; every other action is ignored meanwhile. */
  function HoldOn(msgs: seq<Received>): (r: Hold)
    ensures r == Waiting <==> forall k :: 0 <= k < |msgs| ==> msgs[k].Json? && msgs[k].command !in {Some("resume"), Some("stop")}
    decreases |msgs|
  {
    if |msgs| == 0 then Waiting
    else match msgs[0]
      case ReceiveError => Resumed
      case Json(c, _) =>
        if c == Some("resume") then Resumed
        else if c == Some("stop") then StopAsked
        else HoldOn(msgs[1..])
  }

  /**
   * The handling of what the poll after an entry saw. Any error, a
   * disconnect included, is swallowed and the replay goes on; only `stop`
   * and a pause that is never lifted end it.
   */
  function Steer(t: Turn, speed: real): (r: Next)
    ensures t.poll.Quiet? || t.poll.Left? || t.poll == Arrived(ReceiveError) ==> r == Go(speed)
    ensures r.Halt? ==> r.ending in {Stopped, StillPaused}
    ensures r.Go? && r.speed != speed ==> t.poll.Arrived? && t.poll.message.Json? && t.poll.message.command == Some("set_speed")
  {
    match t.poll
    case Quiet => Go(speed)
    case Left => Go(speed)
    case Arrived(ReceiveError) => Go(speed)
    case Arrived(Json(c, v)) =>
      if c == Some("pause") then
        match HoldOn(t.whilePaused)
        case Resumed => Go(speed)
        case StopAsked => Halt(Stopped)
        case Waiting => Halt(StillPaused)
      else if c == Some("stop") then Halt(Stopped)
      else if c == Some("set_speed") then
        match v
        case Some(Numeric(x)) => Go(x)
        case _ => Go(speed)
      else Go(speed)
  }

  /**
   * The pause before record `i`: none for the first record or a record
   * without timestamp; the time since the previous record over the speed
   * when that is positive; `None` when a timestamp does not parse, the
   * previous record has none, or the speed is zero.
   */
  function Delay(sorted: seq<Record>, i: nat, speed: real): (r: Option<seq<Action>>)
    requires i < |sorted|
    ensures r.Some? ==> |r.value| <= 1 && forall k :: 0 <= k < |r.value| ==> r.value[k].Sleep? && r.value[k].seconds > 0.0
    ensures r.None? <==> i > 0 && sorted[i].timestamp.Some? && (InstantOf(sorted[i]).None? || InstantOf(sorted[i - 1]).None? || speed == 0.0)
  {
    if i == 0 || sorted[i].timestamp.None? then Some([])
    else
      var cur := InstantOf(sorted[i]);
      var prev := InstantOf(sorted[i - 1]);
      if cur.None? || prev.None? || speed == 0.0 then None
      else
        var d := (cur.value - prev.value) / speed;
        Some(if d > 0.0 then [Sleep(d)] else [])
  }

  /** The replay from record `i` of the sorted records on, at the given speed. */
  function Play(sorted: seq<Record>, i: nat, speed: real, turns: seq<Turn>): (r: Trace)
    requires i <= |sorted|
    ensures forall k :: 0 <= k < |r.actions| && r.actions[k].Sleep? ==> r.actions[k].seconds > 0.0
    ensures r.ending in {Completed, Crashed, StillPaused, Stopped}
    decreases |sorted| - i
  {
    if i == |sorted| then Trace([Send(ReplayComplete)], Completed)
    else match Delay(sorted, i, speed)
      case None => Trace([Send(Fault)], Crashed)
      case Some(wait) =>
        var entry := Send(LogEntry(sorted[i]));
        match Steer(TurnAt(turns, i), speed)
        case Halt(e) => Trace(wait + [entry], e)
        case Go(s) =>
          var rest := Play(sorted, i + 1, s, turns);
          Trace(wait + [entry] + rest.actions, rest.ending)
  }

  /**
   * `replay_websocket_endpoint`: nothing when the client is gone before
   * its settings arrive; an error report when they do not parse or the
   * speed is not a number, or when the first sorted record's timestamp
   * does not parse; a refusal without stored records; otherwise the
   * task's initial state, if stored, and the replay of the sorted records.
   */
  function StandaloneSession(opening: Opening, logsData: Option<seq<Record>>, task: Option<string>, turns: seq<Turn>): (r: Trace)
    ensures opening.Gone? ==> r == Trace([], Disconnected)
    ensures opening.Garbled? || opening == Opened(Some(NotNumeric)) ==> r == Trace([Send(Fault)], Crashed)
    ensures opening.Opened? && opening.speed != Some(NotNumeric) && logsData.None? ==> r == Trace([Send(Error(NoLogsAvailable))], Declined)
    ensures opening.Opened? && opening.speed != Some(NotNumeric) && logsData.Some? && task.Some? ==>
      |r.actions| > 0 && r.actions[0] == Send(TaskInitial(task.value))
  {
    match opening
    case Gone => Trace([], Disconnected)
    case Garbled => Trace([Send(Fault)], Crashed)
    case Opened(v) =>
      match SpeedOf(v, 1.0)
      case None => Trace([Send(Fault)], Crashed)
      case Some(speed) =>
        if logsData.None? then Trace([Send(Error(NoLogsAvailable))], Declined)
        else
          var sorted := SortLogs(logsData.value);
          var initial := if task.Some? then [Send(TaskInitial(task.value))] else [];
          if |sorted| == 0 then Trace(initial, Completed)
          else if sorted[0].timestamp.Some? && InstantOf(sorted[0]).None? then Trace(initial + [Send(Fault)], Crashed)
          else
            var p := Play(sorted, 0, speed, turns);
            Trace(initial + p.actions, p.ending)
  }

  // ---------------------------------------------------------------------------
  // What the client receives

  /** The records sent as `log_entry` messages, in order. */
  function Entries(actions: seq<Action>): (r: seq<Record>)
    decreases |actions|
  {
    if |actions| == 0 then []
    else (if actions[0].Send? && actions[0].message.LogEntry? then [actions[0].message.event] else []) + Entries(actions[1..])
  }

  lemma {:induction false} EntriesAppend(a: seq<Action>, b: seq<Action>)
    ensures Entries(a + b) == Entries(a) + Entries(b)
    decreases |a|
  {
    if |a| > 0 {
      assert (a + b)[1..] == a[1..] + b;
      EntriesAppend(a[1..], b);
    } else {
      assert a + b == b;
    }
  }

  /** The entries of at most one pause, an entry and more actions. */
  lemma EntriesAfterWait(wait: seq<Action>, rec: Record, rest: seq<Action>)
    requires |wait| <= 1 && forall k :: 0 <= k < |wait| ==> wait[k].Sleep?
    ensures Entries(wait + [Send(LogEntry(rec))] + rest) == [rec] + Entries(rest)
  {
    EntriesAppend(wait + [Send(LogEntry(rec))], rest);
    EntriesAppend(wait, [Send(LogEntry(rec))]);
    if |wait| == 1 {
      assert wait[1..] == [];
    }
    assert Entries([Send(LogEntry(rec))]) == [rec] by {
      assert [Send(LogEntry(rec))][1..] == [];
    }
  }

  /**
   * The entries of a trace from record `i` on are the next records in
   * sorted order, each once, and all the rest when the trace completes.
   */
  predicate SentInOrder(sorted: seq<Record>, i: nat, t: Trace) {
    InOrder(sorted, i, Entries(t.actions), t.ending == Completed)
  }

  /** `e` is the run of sorted records starting at `i`, reaching the end when `whole`. */
  predicate InOrder(sorted: seq<Record>, i: nat, e: seq<Record>, whole: bool) {
    && i + |e| <= |sorted|
    && e == sorted[i..i + |e|]
    && (whole ==> i + |e| == |sorted|)
  }

  /** The client receives a prefix of the sorted records, in order, and all of them when the replay completes. */
  lemma {:induction false} PlayEntries(sorted: seq<Record>, i: nat, speed: real, turns: seq<Turn>)
    requires i <= |sorted|
    ensures SentInOrder(sorted, i, Play(sorted, i, speed, turns))
    decreases |sorted| - i
  {
    if i < |sorted| {
      match Delay(sorted, i, speed)
      case None =>
        assert Entries([Send(Fault)]) == [] by {
          assert [Send(Fault)][1..] == [];
        }
      case Some(wait) =>
        match Steer(TurnAt(turns, i), speed)
        case Halt(e) =>
          SentOne(sorted, i, wait, e);
        case Go(s) =>
          PlayEntries(sorted, i + 1, s, turns);
          SentBefore(sorted, i, wait, Play(sorted, i + 1, s, turns));
    }
  }

  /** One pause and entry, then a halt. */
  lemma SentOne(sorted: seq<Record>, i: nat, wait: seq<Action>, e: Ending)
    requires i < |sorted| && e != Completed
    requires |wait| <= 1 && forall k :: 0 <= k < |wait| ==> wait[k].Sleep?
    ensures SentInOrder(sorted, i, Trace(wait + [Send(LogEntry(sorted[i]))], e))
  {
    EntriesAfterWait(wait, sorted[i], []);
    assert wait + [Send(LogEntry(sorted[i]))] + [] == wait + [Send(LogEntry(sorted[i]))];
    InOrderCons(sorted, i, [], false);
  }

  /** One pause and entry in front of a trace that sends the records after it in order. */
  lemma SentBefore(sorted: seq<Record>, i: nat, wait: seq<Action>, rest: Trace)
    requires i < |sorted|
    requires |wait| <= 1 && forall k :: 0 <= k < |wait| ==> wait[k].Sleep?
    requires SentInOrder(sorted, i + 1, rest)
    ensures SentInOrder(sorted, i, Trace(wait + [Send(LogEntry(sorted[i]))] + rest.actions, rest.ending))
  {
    EntriesAfterWait(wait, sorted[i], rest.actions);
    InOrderCons(sorted, i, Entries(rest.actions), rest.ending == Completed);
  }

  /** A run starting at `i + 1` extends by the record at `i`. */
  lemma InOrderCons(sorted: seq<Record>, i: nat, e: seq<Record>, whole: bool)
    requires i < |sorted| && InOrder(sorted, i + 1, e, whole)
    ensures InOrder(sorted, i, [sorted[i]] + e, whole)
  {
    assert [sorted[i]] + sorted[i + 1..i + 1 + |e|] == sorted[i..i + 1 + |e|];
  }

  /** `replay_complete` is sent exactly when the replay completes. */
  lemma {:induction false} PlayCompletes(sorted: seq<Record>, i: nat, speed: real, turns: seq<Turn>)
    requires i <= |sorted|
    ensures var t := Play(sorted, i, speed, turns);
      SendsComplete(t.actions) <==> t.ending == Completed
    decreases |sorted| - i
  {
    var t := Play(sorted, i, speed, turns);
    if i == |sorted| {
      assert t.actions[0] == Send(ReplayComplete);
    } else {
      var entry := Send(LogEntry(sorted[i]));
      match Delay(sorted, i, speed)
      case None =>
        NoneComplete([Send(Fault)]);
      case Some(wait) =>
        match Steer(TurnAt(turns, i), speed)
        case Halt(e) =>
          NoneComplete(wait + [entry]);
        case Go(s) =>
          PlayCompletes(sorted, i + 1, s, turns);
          NoneComplete(wait + [entry]);
          CompleteInTail(wait + [entry], Play(sorted, i + 1, s, turns).actions);
    }
  }

  /** Pauses, entries and error reports hold no `replay_complete`. */
  lemma NoneComplete(actions: seq<Action>)
    requires forall k :: 0 <= k < |actions| ==> actions[k].Sleep? || actions[k].message.LogEntry? || actions[k].message.Fault?
    ensures !SendsComplete(actions)
  {
  }

  /**
   * A client that sends nothing, or leaves, sees every sorted record in
   * order and the replay completes, provided every timestamp parses and
   * the speed is not zero.
   */
  lemma {:induction false} PassiveClientSeesAll(sorted: seq<Record>, i: nat, speed: real, turns: seq<Turn>)
    requires i <= |sorted| && speed != 0.0
    requires forall k :: 0 <= k < |sorted| ==> InstantOf(sorted[k]).Some?
    requires forall k :: 0 <= k < |turns| ==> turns[k].poll.Quiet? || turns[k].poll.Left?
    ensures Play(sorted, i, speed, turns).ending == Completed
    decreases |sorted| - i
  {
    if i < |sorted| {
      assert Delay(sorted, i, speed).Some?;
      assert Steer(TurnAt(turns, i), speed) == Go(speed);
      PassiveClientSeesAll(sorted, i + 1, speed, turns);
    }
  }

  /**
   * The whole replay for such a client: the task's initial state if it is
   * stored, every record in timestamp order, and `replay_complete` exactly
   * when there was a record.
   */
  lemma PassiveSession(logs: seq<Record>, task: Option<string>, v: Option<Arg>, turns: seq<Turn>)
    requires v.None? || (v.Some? && v.value.Numeric? && v.value.x != 0.0)
    requires forall k :: 0 <= k < |logs| ==> InstantOf(logs[k]).Some?
    requires forall k :: 0 <= k < |turns| ==> turns[k].poll.Quiet? || turns[k].poll.Left?
    ensures var t := StandaloneSession(Opened(v), Some(logs), task, turns);
      && t.ending == Completed
      && Entries(t.actions) == SortLogs(logs)
      && (SendsComplete(t.actions) <==> |logs| > 0)
  {
    var sorted := SortLogs(logs);
    var speed := SpeedOf(v, 1.0).value;
    var initial: seq<Action> := if task.Some? then [Send(TaskInitial(task.value))] else [];
    assert Entries(initial) == [] by {
      if task.Some? {
        assert initial[1..] == [];
      }
    }
    NoneCompleteInitial(initial);
    forall k | 0 <= k < |sorted| ensures InstantOf(sorted[k]).Some? {
      assert sorted[k] in multiset(logs);
    }
    if |sorted| > 0 {
      var p := Play(sorted, 0, speed, turns);
      assert StandaloneSession(Opened(v), Some(logs), task, turns) == Trace(initial + p.actions, p.ending);
      PassivePlay(sorted, speed, turns);
      EntriesAppend(initial, p.actions);
      CompleteInTail(initial, p.actions);
    }
  }

  /** A passive client's replay of timed records sends every record in order, then `replay_complete`. */
  lemma PassivePlay(sorted: seq<Record>, speed: real, turns: seq<Turn>)
    requires speed != 0.0
    requires forall k :: 0 <= k < |sorted| ==> InstantOf(sorted[k]).Some?
    requires forall k :: 0 <= k < |turns| ==> turns[k].poll.Quiet? || turns[k].poll.Left?
    ensures var p := Play(sorted, 0, speed, turns);
      p.ending == Completed && Entries(p.actions) == sorted && SendsComplete(p.actions)
  {
    PassiveClientSeesAll(sorted, 0, speed, turns);
    PlayEntries(sorted, 0, speed, turns);
    PlayCompletes(sorted, 0, speed, turns);
  }

  lemma NoneCompleteInitial(initial: seq<Action>)
    requires |initial| <= 1 && forall k :: 0 <= k < |initial| ==> initial[k].Send? && initial[k].message.TaskInitial?
    ensures !SendsComplete(initial)
  {
  }

  /** A `stop` after the first entry ends the replay: one entry, no `replay_complete`. */
  lemma StopAfterFirst(sorted: seq<Record>, speed: real, turns: seq<Turn>, v: Option<Arg>)
    requires |sorted| > 0 && |turns| > 0 && turns[0].poll == Arrived(Json(Some("stop"), v))
    ensures var t := Play(sorted, 0, speed, turns);
      t.ending == Stopped && !SendsComplete(t.actions) && Entries(t.actions) == [sorted[0]]
  {
    PlayEntries(sorted, 0, speed, turns);
    PlayCompletes(sorted, 0, speed, turns);
  }

  /** Unlike the API's replay, the pause is not capped: ten seconds apart at speed 1 means a ten-second pause. */
  lemma PauseNotCapped(a: Record, b: Record, turns: seq<Turn>)
    requires InstantOf(a) == Some(0.0) && InstantOf(b) == Some(10.0)
    requires forall k :: 0 <= k < |turns| ==> turns[k].poll.Quiet?
    ensures |Play([a, b], 0, 1.0, turns).actions| > 1 && Play([a, b], 0, 1.0, turns).actions[1] == Sleep(10.0)
    ensures Gap(a, b, 1.0) == Some(Cap)
  {
    assert Steer(TurnAt(turns, 0), 1.0) == Go(1.0);
    assert Delay([a, b], 0, 1.0) == Some([]);
    assert Delay([a, b], 1, 1.0) == Some([Sleep(10.0)]);
    var rest := Play([a, b], 1, 1.0, turns);
    assert rest.actions[0] == Sleep(10.0);
  }
}
