/**
 * The websocket replay of `src/api/app.py`: `replay_start`, then one
 * `replay_event` per stored record in stored order with a pause between
 * consecutive records (their time difference over the speed, at most two
 * seconds), then `replay_complete`. After each event the client may send a
 * `command`: `pause` (then wait for `resume`), or `speed` with a `value`.
 *
 * The client is an input: for each event, what the 0.1 s poll after it
 * saw, and the messages that arrive while a pause lasts.
 */
module ReplaySocket {
  import opened Wrappers
  import opened Replay

  /** The value a client gives for a speed: a number, or something `float()` rejects. */
  datatype Arg = Numeric(x: real) | NotNumeric

  /** One message the client sends: its control word and its numeric argument, if present; or a receive that failed. */
  datatype Received = Json(command: Option<string>, value: Option<Arg>) | ReceiveError

  /** What the poll after an event saw: nothing within the timeout, a disconnect, or a message. */
  datatype Poll = Quiet | Left | Arrived(message: Received)

  /** The client's behaviour after one event. */
  datatype Turn = Turn(poll: Poll, whilePaused: seq<Received>)

  datatype Message =
    | ReplayStart(total: nat)
    | ReplayEvent(event: Record, index: nat, total: nat)
    | ReplayComplete
    | TaskInitial(task: string)
    | LogEntry(event: Record)
      /** `{"error": ...}` with a known text */
    | Error(text: string)
      /** `{"error": str(e)}` for an exception whose text is not modelled */
    | Fault

  datatype Action = Send(message: Message) | Sleep(seconds: real)

  /**
   * How a replay ends: all records sent; the client left; an exception
   * ended it; a pause that is never resumed; a `stop`; or refused before
   * any record was sent.
   */
  datatype Ending = Completed | Disconnected | Crashed | StillPaused | Stopped | Declined

  datatype Trace = Trace(actions: seq<Action>, ending: Ending)

  /**
   * The text of the exception every unexpected error inside the replay
   * turns into: the handler's `except redis.RedisError` names a module the
   * file never imports.
   */
  const RedisUndefined := "name 'redis' is not defined"
  const NoLogs := "No logs found for replay"
  const Cap := 2.0
  const Fallback := 0.5

  /** `float(msg.get(key, default))`: `None` when `float` raises. */
  function SpeedOf(v: Option<Arg>, default: real): (r: Option<real>)
    ensures v.None? ==> r == Some(default)
    ensures v.Some? && v.value.Numeric? ==> r == Some(v.value.x)
    ensures v == Some(NotNumeric) ==> r.None?
  {
    match v
    case None => Some(default)
    case Some(Numeric(x)) => Some(x)
    case Some(NotNumeric) => None
  }

  function Min(a: real, b: real): real {
    if a <= b then a else b
  }

  /**
   * The pause between a record and the next: their time difference over
   * the speed, capped at two seconds; 0.5 s when a timestamp is missing or
   * does not parse; `None` when the division by a zero speed raises.
   */
  function Gap(cur: Record, next: Record, speed: real): (r: Option<real>)
    ensures r.Some? ==> r.value <= Cap
    ensures r.None? <==> InstantOf(cur).Some? && InstantOf(next).Some? && speed == 0.0
    ensures (InstantOf(cur).None? || InstantOf(next).None?) ==> r == Some(Fallback)
    ensures InstantOf(cur).Some? && InstantOf(next).Some? && speed != 0.0 ==>
      var wanted := (InstantOf(next).value - InstantOf(cur).value) / speed;
      r == Some(if wanted <= Cap then wanted else Cap)
  {
    var c := InstantOf(cur);
    var n := InstantOf(next);
    if c.None? || n.None? then Some(Fallback)
    else if speed == 0.0 then None
    else Some(Min((n.value - c.value) / speed, Cap))
  }

  /**
   * The pause loop: it ends on `resume`, or on any receive or conversion
   * error; `speed` messages update the speed meanwhile. The flag says
   * whether the pause ended; when the messages run out first, the replay
   * stays paused.
   */
  function Paused(msgs: seq<Received>, speed: real): (r: (real, bool))
    ensures !r.1 ==> forall k :: 0 <= k < |msgs| ==> msgs[k].Json? && msgs[k].command != Some("resume")
    decreases |msgs|
  {
    if |msgs| == 0 then (speed, false)
    else match msgs[0]
      case ReceiveError => (speed, true)
      case Json(c, v) =>
        if c == Some("resume") then (speed, true)
        else if c == Some("speed") then
          match SpeedOf(v, 1.0)
          case Some(x) => Paused(msgs[1..], x)
          case None => (speed, true)
        else Paused(msgs[1..], speed)
  }

  /** Whether the replay goes on after an event, and at which speed. */
  datatype Next = Go(speed: real) | Halt(ending: Ending)

  /** The handling of what the poll after an event saw. */
  function Control(t: Turn, speed: real): (r: Next)
    ensures t.poll.Quiet? ==> r == Go(speed)
    ensures t.poll.Left? ==> r == Halt(Disconnected)
    ensures r.Halt? ==> r.ending in {Disconnected, Crashed, StillPaused}
  {
    match t.poll
    case Quiet => Go(speed)
    case Left => Halt(Disconnected)
    case Arrived(ReceiveError) => Halt(Crashed)
    case Arrived(Json(c, v)) =>
      if c == Some("pause") then
        var (s, resumed) := Paused(t.whilePaused, speed);
        if resumed then Go(s) else Halt(StillPaused)
      else if c == Some("speed") then
        match SpeedOf(v, 1.0)
        case Some(x) => Go(x)
        case None => Halt(Crashed)
      else Go(speed)
  }

  function TurnAt(turns: seq<Turn>, i: nat): Turn {
    if i < |turns| then turns[i] else Turn(Quiet, [])
  }

  /** The closing actions of a halted replay: an error report when it crashed. */
  function Closing(e: Ending): seq<Action> {
    if e == Crashed then [Send(Error(RedisUndefined))] else []
  }

  /** The pause after record `i`: none after the last record; `None` when computing it raises. */
  function Pace(logs: seq<Record>, i: nat, speed: real): (r: Option<seq<Action>>)
    requires i < |logs|
    ensures r.Some? ==> forall k :: 0 <= k < |r.value| ==> r.value[k].Sleep? && r.value[k].seconds <= Cap
    ensures r.Some? ==> |r.value| <= 1
    ensures r.None? <==> i < |logs| - 1 && Gap(logs[i], logs[i + 1], speed).None?
  {
    if i == |logs| - 1 then Some([])
    else match Gap(logs[i], logs[i + 1], speed)
      case None => None
      case Some(g) => Some([Sleep(g)])
  }

  /** The replay from record `i` on, at the given speed. */
  function Emit(logs: seq<Record>, i: nat, speed: real, turns: seq<Turn>): (r: Trace)
    requires i <= |logs|
    ensures forall k :: 0 <= k < |r.actions| && r.actions[k].Sleep? ==> r.actions[k].seconds <= Cap
    ensures r.ending in {Completed, Disconnected, Crashed, StillPaused}
    decreases |logs| - i
  {
    if i == |logs| then Trace([Send(ReplayComplete)], Completed)
    else
      var ev := Send(ReplayEvent(logs[i], i, |logs|));
      match Pace(logs, i, speed)
      case None => Trace([ev] + Closing(Crashed), Crashed)
      case Some(wait) =>
        match Control(TurnAt(turns, i), speed)
        case Halt(e) => Trace([ev] + wait + Closing(e), e)
        case Go(s) =>
          var rest := Emit(logs, i + 1, s, turns);
          Trace([ev] + wait + rest.actions, rest.ending)
  }

  /**
   * `replay_websocket_endpoint`: refused without a store or without stored
   * records; otherwise `replay_start` and the replay at speed 1.
   */
  function Session(available: bool, logsData: Option<seq<Record>>, turns: seq<Turn>): (r: Trace)
    ensures !available ==> r == Trace([Send(Error(StorageUnavailable))], Declined)
    ensures available && logsData.None? ==> r == Trace([Send(Error(NoLogs))], Declined)
    ensures available && logsData.Some? ==> |r.actions| > 0 && r.actions[0] == Send(ReplayStart(|logsData.value|))
  {
    if !available then Trace([Send(Error(StorageUnavailable))], Declined)
    else if logsData.None? then Trace([Send(Error(NoLogs))], Declined)
    else
      var e := Emit(logsData.value, 0, 1.0, turns);
      Trace([Send(ReplayStart(|logsData.value|))] + e.actions, e.ending)
  }

  // ---------------------------------------------------------------------------
  // What the client receives

  /** The `replay_event` messages among the actions, in order. */
  function Events(actions: seq<Action>): (r: seq<Message>)
    ensures forall k :: 0 <= k < |r| ==> r[k].ReplayEvent?
    decreases |actions|
  {
    if |actions| == 0 then []
    else (if actions[0].Send? && actions[0].message.ReplayEvent? then [actions[0].message] else []) + Events(actions[1..])
  }

  lemma {:induction false} EventsAppend(a: seq<Action>, b: seq<Action>)
    ensures Events(a + b) == Events(a) + Events(b)
    decreases |a|
  {
    if |a| > 0 {
      assert (a + b)[1..] == a[1..] + b;
      EventsAppend(a[1..], b);
    } else {
      assert a + b == b;
    }
  }

  /** The events for records `i` up to `k`, in stored order. */
  function EventsFrom(logs: seq<Record>, i: nat, k: nat): (r: seq<Message>)
    requires i <= k <= |logs|
    ensures |r| == k - i
    decreases k - i
  {
    if i == k then [] else [ReplayEvent(logs[i], i, |logs|)] + EventsFrom(logs, i + 1, k)
  }

  /** Whether `replay_complete` is among the actions. */
  predicate SendsComplete(actions: seq<Action>) {
    exists k :: 0 <= k < |actions| && actions[k] == Send(ReplayComplete)
  }

  /** The events of an event followed by pauses and more actions. */
  lemma EventsAfterHead(m: Message, wait: seq<Action>, rest: seq<Action>)
    requires m.ReplayEvent?
    requires forall k :: 0 <= k < |wait| ==> wait[k].Sleep?
    requires |wait| <= 1
    ensures Events([Send(m)] + wait + rest) == [m] + Events(rest)
  {
    EventsAppend([Send(m)] + wait, rest);
    EventsAppend([Send(m)], wait);
    if |wait| == 1 {
      assert wait[1..] == [];
    }
  }

  /** An error report holds no events. */
  lemma ClosingHasNoEvents(e: Ending)
    ensures Events(Closing(e)) == []
  {
  }

  /**
   * The events of a trace from record `i` on are those of the next
   * records in stored order, each once, and of all the rest when the trace
   * completes.
   */
  predicate EventsInOrder(logs: seq<Record>, i: nat, t: Trace)
    requires i <= |logs|
  {
    var n := |Events(t.actions)|;
    && i + n <= |logs|
    && Events(t.actions) == EventsFrom(logs, i, i + n)
    && (t.ending == Completed ==> i + n == |logs|)
  }

  /**
   * Control never drops or reorders events: the client receives the events
   * of a prefix of the stored records, each once, in stored order, and all
   * of them when the replay completes.
   */
  lemma {:induction false} EmitEvents(logs: seq<Record>, i: nat, speed: real, turns: seq<Turn>)
    requires i <= |logs|
    ensures EventsInOrder(logs, i, Emit(logs, i, speed, turns))
    decreases |logs| - i
  {
    if i < |logs| {
      var m := ReplayEvent(logs[i], i, |logs|);
      match Pace(logs, i, speed)
      case None =>
        EventOne(logs, i, [], Crashed);
        assert [Send(m)] + [] == [Send(m)];
      case Some(wait) =>
        match Control(TurnAt(turns, i), speed)
        case Halt(e) =>
          EventOne(logs, i, wait, e);
        case Go(s) =>
          EmitEvents(logs, i + 1, s, turns);
          EventBefore(logs, i, wait, Emit(logs, i + 1, s, turns));
    }
  }

  /** One event and pause, then a halt. */
  lemma EventOne(logs: seq<Record>, i: nat, wait: seq<Action>, e: Ending)
    requires i < |logs| && e != Completed
    requires |wait| <= 1 && forall k :: 0 <= k < |wait| ==> wait[k].Sleep?
    ensures EventsInOrder(logs, i, Trace([Send(ReplayEvent(logs[i], i, |logs|))] + wait + Closing(e), e))
  {
    EventsAfterHead(ReplayEvent(logs[i], i, |logs|), wait, Closing(e));
  }

  /** One event and pause in front of a trace that sends the later records' events in order. */
  lemma EventBefore(logs: seq<Record>, i: nat, wait: seq<Action>, rest: Trace)
    requires i < |logs|
    requires |wait| <= 1 && forall k :: 0 <= k < |wait| ==> wait[k].Sleep?
    requires EventsInOrder(logs, i + 1, rest)
    ensures EventsInOrder(logs, i, Trace([Send(ReplayEvent(logs[i], i, |logs|))] + wait + rest.actions, rest.ending))
  {
    EventsAfterHead(ReplayEvent(logs[i], i, |logs|), wait, rest.actions);
  }

  /** `replay_complete` is sent exactly when the replay completes. */
  lemma {:induction false} EmitCompletes(logs: seq<Record>, i: nat, speed: real, turns: seq<Turn>)
    requires i <= |logs|
    ensures var t := Emit(logs, i, speed, turns);
      SendsComplete(t.actions) <==> t.ending == Completed
    decreases |logs| - i
  {
    var t := Emit(logs, i, speed, turns);
    if i == |logs| {
      assert t.actions[0] == Send(ReplayComplete);
    } else {
      var ev := Send(ReplayEvent(logs[i], i, |logs|));
      match Pace(logs, i, speed)
      case None =>
        NoComplete([ev] + Closing(Crashed));
      case Some(wait) =>
        match Control(TurnAt(turns, i), speed)
        case Halt(e) =>
          NoComplete([ev] + wait + Closing(e));
        case Go(s) =>
          EmitCompletes(logs, i + 1, s, turns);
          NoComplete([ev] + wait);
          CompleteInTail([ev] + wait, Emit(logs, i + 1, s, turns).actions);
    }
  }

  /** Actions made only of events, pauses and an error report hold no `replay_complete`. */
  lemma NoComplete(actions: seq<Action>)
    requires forall k :: 0 <= k < |actions| ==> actions[k].Sleep? || actions[k].message.ReplayEvent? || actions[k].message.Error?
    ensures !SendsComplete(actions)
  {
  }

  lemma CompleteInTail(a: seq<Action>, b: seq<Action>)
    requires !SendsComplete(a)
    ensures SendsComplete(a + b) <==> SendsComplete(b)
  {
    if SendsComplete(a + b) {
      var k :| 0 <= k < |a + b| && (a + b)[k] == Send(ReplayComplete);
      assert k >= |a|;
      assert b[k - |a|] == Send(ReplayComplete);
    }
    if SendsComplete(b) {
      var k :| 0 <= k < |b| && b[k] == Send(ReplayComplete);
      assert (a + b)[|a| + k] == Send(ReplayComplete);
    }
  }

  /** A client that never sends anything sees every record, in stored order, and the replay completes. */
  lemma {:induction false} QuietClientSeesAll(logs: seq<Record>, i: nat, speed: real, turns: seq<Turn>)
    requires i <= |logs| && speed != 0.0
    requires forall k :: 0 <= k < |turns| ==> turns[k].poll.Quiet?
    ensures Emit(logs, i, speed, turns).ending == Completed
    decreases |logs| - i
  {
    if i < |logs| {
      assert TurnAt(turns, i).poll.Quiet?;
      QuietClientSeesAll(logs, i + 1, speed, turns);
    }
  }

  /** The whole replay for a quiet client: `replay_start`, every record's event in stored order, `replay_complete`. */
  lemma QuietReplay(logs: seq<Record>, turns: seq<Turn>)
    requires forall k :: 0 <= k < |turns| ==> turns[k].poll.Quiet?
    ensures var t := Session(true, Some(logs), turns);
      t.ending == Completed && t.actions[0] == Send(ReplayStart(|logs|))
      && Events(t.actions) == EventsFrom(logs, 0, |logs|)
  {
    QuietClientSeesAll(logs, 0, 1.0, turns);
    EmitEvents(logs, 0, 1.0, turns);
    var e := Emit(logs, 0, 1.0, turns);
    EventsAppend([Send(ReplayStart(|logs|))], e.actions);
  }

  /** A client that leaves after the first event receives no `replay_complete`. */
  lemma LeavingEndsReplay(logs: seq<Record>, speed: real, turns: seq<Turn>)
    requires |logs| > 0 && |turns| > 0 && turns[0].poll.Left?
    requires |logs| > 1 ==> Gap(logs[0], logs[1], speed).Some?
    ensures Emit(logs, 0, speed, turns).ending == Disconnected
    ensures !SendsComplete(Emit(logs, 0, speed, turns).actions)
  {
    EmitCompletes(logs, 0, speed, turns);
  }
}
