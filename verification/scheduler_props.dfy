/**
 * What the execution loop guarantees, for tasks whose subtask ids are
 * distinct (as the planner's uuid ids are) and whose workers end every run
 * completed or failed (as every agent does).
 */
module SchedulerProperties {
  import opened Wrappers
  import opened Models
  import opened Scheduler
  import AgentFactory
  import SubtaskRun

  // ---------------------------------------------------------------------------
  // Invariants

  /** `subtask_map` points every id at its own subtask, so no id is repeated. */
  predicate Indexed(st: Sched) {
    && (forall i :: 0 <= i < |st.subs| ==> st.subs[i].id in st.index && st.index[st.subs[i].id] == i)
    && (forall id :: id in st.index ==> st.index[id] < |st.subs| && st.subs[st.index[id]].id == id)
  }

  /** A started, unfinished worker's subtask is in progress. */
  predicate RunningInProgress(st: Sched) {
    forall i :: i in st.running ==> i < |st.subs| && st.subs[i].status == InProgress
  }

  /** Every id in `failed_subtasks` belongs to a failed subtask. */
  predicate FailedAreFailed(st: Sched) {
    forall id :: id in st.failed ==> id in st.index && st.index[id] < |st.subs| && st.subs[st.index[id]].status == Failed
  }

  /** The ready list holds distinct pending subtasks whose dependencies are all done. */
  predicate ReadyAreReady(st: Sched) {
    && (forall k :: 0 <= k < |st.ready| ==> st.ready[k] < |st.subs| && ReadyNow(st.subs, st.index, st.subs[st.ready[k]]))
    && (forall k, l :: 0 <= k < l < |st.ready| ==> st.ready[k] < st.ready[l])
  }

  predicate Inv(st: Sched) {
    Shaped(st) && Indexed(st) && RunningInProgress(st) && FailedAreFailed(st) && ReadyAreReady(st)
  }

  /** Every worker run ends with the subtask completed or failed. */
  predicate SettledRun(run: SubtaskRun.Run) {
    run.agentResult.status in {Completed, Failed}
  }

  predicate Settled(tick: Tick) {
    forall k :: 0 <= k < |tick.finishes| ==> SettledRun(tick.finishes[k].1)
  }

  /**
   * From `a` to `b` the subtasks keep their ids and dependencies, a
   * completed or failed subtask keeps its status, and no subtask becomes
   * pending again.
   */
  predicate Advances(a: seq<Subtask>, b: seq<Subtask>) {
    && |a| == |b|
    && (forall i :: 0 <= i < |a| ==> b[i].id == a[i].id && b[i].dependencies == a[i].dependencies)
    && (forall i :: 0 <= i < |a| && a[i].status in {Completed, Failed} ==> b[i].status == a[i].status)
    && (forall i :: 0 <= i < |a| && b[i].status == Pending ==> a[i].status == Pending)
  }

  lemma AdvancesTransitive(a: seq<Subtask>, b: seq<Subtask>, c: seq<Subtask>)
    requires Advances(a, b) && Advances(b, c)
    ensures Advances(a, c)
  {
  }

  /** The start state satisfies the invariant when ids are distinct and nothing is in progress yet. */
  lemma StartInv(subs: seq<Subtask>, factory: AgentFactory.Factory)
    requires AgentFactory.Valid(factory)
    requires forall i, j :: 0 <= i < j < |subs| ==> subs[i].id != subs[j].id
    ensures Inv(Start(subs, factory))
  {
    var st := Start(subs, factory);
    forall i | 0 <= i < |subs| ensures subs[i].id in st.index && st.index[subs[i].id] == i {
      var m := st.index[subs[i].id];
      assert subs[m].id == subs[i].id;
    }
    forall k | 0 <= k < |st.ready| ensures ReadyNow(subs, st.index, subs[st.ready[k]]) {
      assert st.ready[k] in st.ready;
    }
  }

  // ---------------------------------------------------------------------------
  // Launching

  /**
   * A ready subtask is never failed for a failed dependency: its
   * dependencies are done, and a done subtask is not a failed one.
   */
  lemma NoFailedDependency(st: Sched, j: nat)
    requires Shaped(st) && FailedAreFailed(st) && j < |st.subs|
    requires Satisfied(st.subs, st.index, st.subs[j])
    ensures !HasFailedDependency(st.subs[j], st.failed)
  {
    var ids := st.subs[j].DependencyIds();
    forall k | 0 <= k < |ids| ensures ids[k] !in st.failed {
      assert Done(st.subs, st.index, ids[k]);
    }
  }

  /**
   * One pass of the launch loop on a ready subtask: with an agent for its
   * type it is started, in progress, with the context of the results
   * reported so far and a `started` entry; without one it fails at once,
   * with a `failed` entry, and is not started.
   */
  lemma LaunchOneFacts(setup: Setup, st: Sched, j: nat, now: int)
    requires Shaped(st) && FailedAreFailed(st) && j < |st.subs|
    requires ReadyNow(st.subs, st.index, st.subs[j])
    ensures var r := LaunchOne(setup, st, j, now);
      var s := st.subs[j];
      && r.factory.types == st.factory.types
      && (s.kind in st.factory.types ==>
            && r.subs[j] == s.(status := InProgress, updatedAt := DateTime(now))
            && r.running == st.running + {j} && r.failed == st.failed
            && r.contexts == st.contexts[j := ContextFor(setup, st.completed)]
            && r.logs == st.logs + [LoopEntry(s, "started", ExecutingWith + AgentFactory.ClassName(st.factory.types[s.kind]), now)])
      && (s.kind !in st.factory.types ==>
            && r.subs[j] == s.(status := Failed, error := Some(NoAgentError(s.kind)), updatedAt := DateTime(now))
            && r.running == st.running && r.failed == st.failed + {s.id}
            && r.logs == st.logs + [LoopEntry(s, "failed", NoAgentDetails, now)])
  {
    NoFailedDependency(st, j);
  }

  /** What the rest of the launch loop needs from one pass: the status it leaves and the sets it grows. */
  lemma LaunchOneCore(setup: Setup, st: Sched, j: nat, now: int)
    requires Shaped(st) && FailedAreFailed(st) && j < |st.subs|
    requires ReadyNow(st.subs, st.index, st.subs[j])
    ensures var r := LaunchOne(setup, st, j, now);
      var served := st.subs[j].kind in st.factory.types;
      && r.factory.types == st.factory.types
      && r.subs[j].status == (if served then InProgress else Failed)
      && r.running == (if served then st.running + {j} else st.running)
      && r.failed == (if served then st.failed else st.failed + {st.subs[j].id})
  {
    NoFailedDependency(st, j);
  }

  /** The status one pass of the launch loop leaves on a ready subtask. */
  lemma LaunchOneStatus(setup: Setup, st: Sched, j: nat, now: int)
    requires Shaped(st) && FailedAreFailed(st) && j < |st.subs|
    requires ReadyNow(st.subs, st.index, st.subs[j])
    ensures LaunchOne(setup, st, j, now).subs[j].status == (if st.subs[j].kind in st.factory.types then InProgress else Failed)
  {
    NoFailedDependency(st, j);
  }

  /** Dependencies stay satisfied while completed subtasks stay completed. */
  lemma SatisfiedKept(a: seq<Subtask>, b: seq<Subtask>, index: map<string, nat>, s: Subtask)
    requires |a| == |b|
    requires forall m :: 0 <= m < |a| && a[m].status == Completed ==> b[m].status == Completed
    requires Satisfied(a, index, s)
    ensures Satisfied(b, index, s)
  {
    var ids := s.DependencyIds();
    forall k | 0 <= k < |ids| ensures Done(b, index, ids[k]) {
      assert Done(a, index, ids[k]);
    }
  }

  predicate Increasing(xs: seq<nat>) {
    forall k, l :: 0 <= k < l < |xs| ==> xs[k] < xs[l]
  }

  /** The positions of `todo` whose type has an agent: the workers the launch loop starts. */
  function WithAgent(subs: seq<Subtask>, types: map<string, AgentFactory.AgentClass>, todo: seq<nat>): (r: seq<nat>)
    requires forall k :: 0 <= k < |todo| ==> todo[k] < |subs|
    ensures forall j :: j in r <==> j in todo && subs[j].kind in types
    ensures Increasing(todo) ==> Increasing(r)
    decreases |todo|
  {
    if |todo| == 0 then []
    else
      var rest := WithAgent(subs, types, todo[1..]);
      assert forall j :: j in todo[1..] ==> j in todo;
      assert forall j :: j in rest ==> j in todo[1..];
      if subs[todo[0]].kind in types then
        if Increasing(todo) then
          assert Increasing(todo[1..]);
          ConsIncreasing(todo[0], rest);
          [todo[0]] + rest
        else
          [todo[0]] + rest
      else
        assert Increasing(todo) ==> Increasing(todo[1..]);
        rest
  }

  lemma ConsIncreasing(x: nat, xs: seq<nat>)
    requires Increasing(xs) && forall y :: y in xs ==> x < y
    ensures Increasing([x] + xs)
  {
    forall k, l | 0 <= k < l < |[x] + xs| ensures ([x] + xs)[k] < ([x] + xs)[l] {
      assert ([x] + xs)[l] == xs[l - 1] && xs[l - 1] in xs;
      if k > 0 {
        assert ([x] + xs)[k] == xs[k - 1];
      }
    }
  }

  /** What the launch loop may assume of the state and of the positions still to launch. */
  predicate LaunchPre(st: Sched, todo: seq<nat>) {
    && Shaped(st) && Indexed(st) && RunningInProgress(st) && FailedAreFailed(st)
    && (forall k :: 0 <= k < |todo| ==> todo[k] < |st.subs| && ReadyNow(st.subs, st.index, st.subs[todo[k]]))
    && Increasing(todo)
  }

  /** One pass keeps what the rest of the loop needs, and touches only its own subtask. */
  lemma LaunchStep(setup: Setup, st: Sched, todo: seq<nat>, now: int)
    requires LaunchPre(st, todo) && |todo| > 0
    ensures var one := LaunchOne(setup, st, todo[0], now);
      && LaunchPre(one, todo[1..])
      && Advances(st.subs, one.subs)
      && one.completed == st.completed && one.factory.types == st.factory.types
      && todo[0] !in todo[1..]
  {
    var j := todo[0];
    LaunchOneCore(setup, st, j, now);
    var one := LaunchOne(setup, st, j, now);
    forall k | 0 <= k < |todo[1..]|
      ensures todo[1..][k] < |one.subs| && ReadyNow(one.subs, one.index, one.subs[todo[1..][k]])
    {
      assert todo[1..][k] == todo[k + 1] && todo[k + 1] != j;
      SatisfiedKept(st.subs, one.subs, st.index, st.subs[todo[k + 1]]);
    }
    assert FailedAreFailed(one);
    assert RunningInProgress(one);
  }

  /** The launch loop keeps the invariants, and no subtask loses a settled status or becomes pending. */
  lemma {:induction false} LaunchKeeps(setup: Setup, st: Sched, todo: seq<nat>, now: int)
    requires LaunchPre(st, todo)
    ensures var r := Launch(setup, st, todo, now);
      && Advances(st.subs, r.st.subs)
      && Indexed(r.st) && RunningInProgress(r.st) && FailedAreFailed(r.st)
      && r.st.completed == st.completed && r.st.factory.types == st.factory.types
    decreases |todo|
  {
    if |todo| > 0 {
      LaunchStep(setup, st, todo, now);
      var one := LaunchOne(setup, st, todo[0], now);
      LaunchKeeps(setup, one, todo[1..], now);
      AdvancesTransitive(st.subs, one.subs, Launch(setup, one, todo[1..], now).st.subs);
    }
  }

  /** The subtasks at each position have the same type. */
  predicate SameKinds(a: seq<Subtask>, b: seq<Subtask>) {
    |a| == |b| && forall m :: 0 <= m < |a| ==> a[m].kind == b[m].kind
  }

  /** The launch loop starts exactly the ready subtasks that have an agent. */
  lemma LaunchStartsServed(setup: Setup, st: Sched, todo: seq<nat>, now: int)
    requires LaunchPre(st, todo)
    ensures Launch(setup, st, todo, now).started == WithAgent(st.subs, st.factory.types, todo)
  {
    LaunchServedBy(setup, st, todo, now, st.subs);
  }

  /** `LaunchStartsServed`, with the types read from any subtasks of the same types. */
  lemma {:induction false} LaunchServedBy(setup: Setup, st: Sched, todo: seq<nat>, now: int, kinds: seq<Subtask>)
    requires LaunchPre(st, todo) && SameKinds(kinds, st.subs)
    ensures Launch(setup, st, todo, now).started == WithAgent(kinds, st.factory.types, todo)
    decreases |todo|
  {
    if |todo| > 0 {
      LaunchStep(setup, st, todo, now);
      LaunchServedBy(setup, LaunchOne(setup, st, todo[0], now), todo[1..], now, kinds);
      ServedStep(setup, st, todo, now, kinds);
    }
  }

  /** The induction step of `LaunchServedBy`: the first pass adds its subtask exactly when its type has an agent. */
  lemma ServedStep(setup: Setup, st: Sched, todo: seq<nat>, now: int, kinds: seq<Subtask>)
    requires LaunchPre(st, todo) && SameKinds(kinds, st.subs) && |todo| > 0
    requires var one := LaunchOne(setup, st, todo[0], now);
      Shaped(one) && Launch(setup, one, todo[1..], now).started == WithAgent(kinds, st.factory.types, todo[1..])
    ensures Launch(setup, st, todo, now).started == WithAgent(kinds, st.factory.types, todo)
  {
    LaunchStartedHead(setup, st, todo, now);
  }

  /** The first pass of the launch loop starts its subtask exactly when the type has an agent. */
  lemma LaunchStartedHead(setup: Setup, st: Sched, todo: seq<nat>, now: int)
    requires LaunchPre(st, todo) && |todo| > 0
    ensures var here: seq<nat> := if st.subs[todo[0]].kind in st.factory.types then [todo[0]] else [];
      Launch(setup, st, todo, now).started == here + Launch(setup, LaunchOne(setup, st, todo[0], now), todo[1..], now).started
  {
    LaunchOneStatus(setup, st, todo[0], now);
  }

  /** After the launch loop the running workers are the earlier ones and the ones it started. */
  lemma {:induction false} LaunchRunning(setup: Setup, st: Sched, todo: seq<nat>, now: int)
    requires LaunchPre(st, todo)
    ensures var r := Launch(setup, st, todo, now);
      forall m :: m in r.st.running <==> m in st.running || m in r.started
    decreases |todo|
  {
    if |todo| > 0 {
      var j := todo[0];
      LaunchStep(setup, st, todo, now);
      LaunchOneCore(setup, st, j, now);
      LaunchRunning(setup, LaunchOne(setup, st, j, now), todo[1..], now);
    }
  }

  /**
   * A subtask the launch loop starts was not running before; it is in
   * progress and holds the context of the results reported before this
   * iteration.
   */
  lemma {:induction false} LaunchStartedState(setup: Setup, st: Sched, todo: seq<nat>, now: int, j: nat)
    requires LaunchPre(st, todo)
    requires j in todo && st.subs[j].kind in st.factory.types
    ensures var r := Launch(setup, st, todo, now);
      && j !in st.running && r.st.subs[j].status == InProgress
      && j in r.st.contexts && r.st.contexts[j] == ContextFor(setup, st.completed)
    decreases |todo|
  {
    LaunchStep(setup, st, todo, now);
    var one := LaunchOne(setup, st, todo[0], now);
    if j == todo[0] {
      LaunchOneFacts(setup, st, j, now);
      LaunchContextsKept(setup, one, todo[1..], now, j);
    } else {
      assert one.subs[j] == st.subs[j];
      LaunchStartedState(setup, one, todo[1..], now, j);
    }
  }

  /** Later passes of the launch loop leave an earlier subtask and its context alone. */
  lemma {:induction false} LaunchContextsKept(setup: Setup, st: Sched, todo: seq<nat>, now: int, j: nat)
    requires LaunchPre(st, todo) && j !in todo && j < |st.subs|
    ensures var r := Launch(setup, st, todo, now);
      r.st.subs[j] == st.subs[j]
      && (j in st.contexts ==> j in r.st.contexts && r.st.contexts[j] == st.contexts[j])
    decreases |todo|
  {
    if |todo| > 0 {
      LaunchStep(setup, st, todo, now);
      LaunchContextsKept(setup, LaunchOne(setup, st, todo[0], now), todo[1..], now, j);
    }
  }

  lemma LaunchOneFailed(setup: Setup, st: Sched, j: nat, now: int)
    requires Shaped(st) && j < |st.subs|
    ensures forall id :: id in LaunchOne(setup, st, j, now).failed ==> id in st.failed || id == st.subs[j].id
  {
  }

  /** The launch loop adds to `failed_subtasks` only ids of the subtasks it handles. */
  lemma {:induction false} LaunchFailedFrom(setup: Setup, st: Sched, todo: seq<nat>, now: int)
    requires LaunchPre(st, todo)
    ensures var r := Launch(setup, st, todo, now);
      forall id :: id in r.st.failed ==> id in st.failed || IdOf(st.subs, todo, id)
    decreases |todo|
  {
    if |todo| > 0 {
      var j := todo[0];
      LaunchStep(setup, st, todo, now);
      LaunchOneFailed(setup, st, j, now);
      var one := LaunchOne(setup, st, j, now);
      LaunchFailedFrom(setup, one, todo[1..], now);
      FailedChain(st.failed, one.failed, Launch(setup, one, todo[1..], now).st.failed, st.subs, one.subs, todo);
    }
  }

  /** Two steps that each add only ids of their own subtasks add only ids of subtasks in `todo`. */
  lemma FailedChain(f0: set<string>, f1: set<string>, f2: set<string>, a: seq<Subtask>, b: seq<Subtask>, todo: seq<nat>)
    requires |todo| > 0 && todo[0] < |a| && |a| == |b| && forall m :: 0 <= m < |a| ==> a[m].id == b[m].id
    requires forall id :: id in f1 ==> id in f0 || id == a[todo[0]].id
    requires forall id :: id in f2 ==> id in f1 || IdOf(b, todo[1..], id)
    ensures forall id :: id in f2 ==> id in f0 || IdOf(a, todo, id)
  {
    forall id | id in f2 ensures id in f0 || IdOf(a, todo, id) {
      if id !in f1 {
        IdOfWiden(a, b, todo, id);
      } else if id !in f0 {
        assert todo[0] in todo;
      }
    }
  }

  lemma IdOfWiden(a: seq<Subtask>, b: seq<Subtask>, todo: seq<nat>, id: string)
    requires |todo| > 0 && |a| == |b| && forall m :: 0 <= m < |a| ==> a[m].id == b[m].id
    requires IdOf(b, todo[1..], id)
    ensures IdOf(a, todo, id)
  {
    var m :| m in todo[1..] && m < |b| && b[m].id == id;
    assert m in todo;
  }

  /** A ready subtask without an agent ends the launch loop failed with the missing-agent error. */
  lemma {:induction false} LaunchFailsUnserved(setup: Setup, st: Sched, todo: seq<nat>, now: int, j: nat)
    requires LaunchPre(st, todo)
    requires j in todo && st.subs[j].kind !in st.factory.types
    ensures var r := Launch(setup, st, todo, now);
      r.st.subs[j].status == Failed && r.st.subs[j].error == Some(NoAgentError(st.subs[j].kind))
    decreases |todo|
  {
    LaunchStep(setup, st, todo, now);
    var one := LaunchOne(setup, st, todo[0], now);
    if j == todo[0] {
      LaunchOneFacts(setup, st, j, now);
      assert Launch(setup, one, todo[1..], now).st.subs[j] == one.subs[j];
    } else {
      assert one.subs[j] == st.subs[j];
      LaunchFailsUnserved(setup, one, todo[1..], now, j);
    }
  }

  // ---------------------------------------------------------------------------
  // The wait

  /** A settled run leaves its subtask completed or failed. */
  lemma FinishSettles(s: Subtask, run: SubtaskRun.Run, useContainers: bool, now: int)
    requires SettledRun(run)
    ensures SubtaskRun.Finish(s, run, useContainers, now).subtask.status in {Completed, Failed}
  {
  }

  /** Some subtask at a position in `ln` has the id `id`. */
  predicate IdOf(subs: seq<Subtask>, ln: seq<nat>, id: string) {
    exists m :: m in ln && m < |subs| && subs[m].id == id
  }

  /** From `a` to `b`, every new result entry and every newly failed id belongs to a subtask at a position in `ln`. */
  predicate NewOnlyFrom(a: Sched, b: Sched, ln: seq<nat>) {
    && (forall x :: x in b.completed ==> x in a.completed || IdOf(a.subs, ln, x.id))
    && (forall id :: id in b.failed ==> id in a.failed || IdOf(a.subs, ln, id))
  }

  /** Every subtask at a position in `ln` whose worker has finished is in the loop's bookkeeping. */
  predicate ReportedFor(st: Sched, ln: seq<nat>) {
    forall j :: j in ln && j < |st.subs| && j !in st.running ==>
      && (st.subs[j].status == Completed ==> ResultEntry(st.subs[j].id, st.subs[j].kind, st.subs[j].result) in st.completed)
      && (st.subs[j].status == Failed ==> st.subs[j].id in st.failed)
  }

  predicate WaitPre(st: Sched) {
    Shaped(st) && Indexed(st) && RunningInProgress(st) && FailedAreFailed(st)
  }

  /** A finishing worker settles its subtask and keeps the invariants; `subtask_map` does not change. */
  lemma FinishOneInv(setup: Setup, st: Sched, ln: seq<nat>, i: nat, run: SubtaskRun.Run, now: int)
    requires WaitPre(st) && SettledRun(run)
    ensures var r := FinishOne(setup, st, ln, i, run, now);
      && WaitPre(r) && Advances(st.subs, r.subs) && r.index == st.index
      && (forall m :: m in r.running ==> m in st.running)
      && (i in st.running ==> r.subs[i].status in {Completed, Failed} && i !in r.running)
  {
    FinishOneAdvances(setup, st, ln, i, run, now);
    FinishOneWaitPre(setup, st, ln, i, run, now);
  }

  lemma FinishOneAdvances(setup: Setup, st: Sched, ln: seq<nat>, i: nat, run: SubtaskRun.Run, now: int)
    requires WaitPre(st) && SettledRun(run)
    ensures var r := FinishOne(setup, st, ln, i, run, now);
      && Advances(st.subs, r.subs)
      && (i in st.running ==> r.subs[i].status in {Completed, Failed} && i !in r.running)
  {
    if i in st.running {
      FinishSettles(st.subs[i], run, setup.useContainers, now);
    }
  }

  lemma FinishOneWaitPre(setup: Setup, st: Sched, ln: seq<nat>, i: nat, run: SubtaskRun.Run, now: int)
    requires WaitPre(st) && SettledRun(run)
    ensures var r := FinishOne(setup, st, ln, i, run, now);
      && WaitPre(r) && r.index == st.index && (forall m :: m in r.running ==> m in st.running)
  {
    if i in st.running {
      FinishOneIndexed(setup, st, ln, i, run, now);
      FinishOneFailedAreFailed(setup, st, ln, i, run, now);
    }
  }

  lemma FinishOneIndexed(setup: Setup, st: Sched, ln: seq<nat>, i: nat, run: SubtaskRun.Run, now: int)
    requires WaitPre(st) && i in st.running
    ensures var r := FinishOne(setup, st, ln, i, run, now);
      r.index == st.index && Indexed(r)
  {
    assert st.index[st.subs[i].id] == i;
  }

  lemma FinishOneFailedAreFailed(setup: Setup, st: Sched, ln: seq<nat>, i: nat, run: SubtaskRun.Run, now: int)
    requires WaitPre(st) && SettledRun(run) && i in st.running
    ensures FailedAreFailed(FinishOne(setup, st, ln, i, run, now))
  {
    var r := FinishOne(setup, st, ln, i, run, now);
    FinishSettles(st.subs[i], run, setup.useContainers, now);
    FinishOneIndexed(setup, st, ln, i, run, now);
    forall id | id in r.failed
      ensures id in r.index && r.index[id] < |r.subs| && r.subs[r.index[id]].status == Failed
    {
      if id in st.failed {
        assert st.index[id] != i;
      }
    }
  }

  /** A worker leaves the contexts and the factory alone. */
  lemma FinishOneFrame(setup: Setup, st: Sched, ln: seq<nat>, i: nat, run: SubtaskRun.Run, now: int)
    requires Shaped(st)
    ensures var r := FinishOne(setup, st, ln, i, run, now);
      r.contexts == st.contexts && r.factory == st.factory
  {
  }

  /** Only a worker started in this iteration adds to the loop's bookkeeping. */
  lemma FinishOneNew(setup: Setup, st: Sched, ln: seq<nat>, i: nat, run: SubtaskRun.Run, now: int)
    requires WaitPre(st) && SettledRun(run)
    ensures NewOnlyFrom(st, FinishOne(setup, st, ln, i, run, now), ln)
  {
    if i in st.running && i in ln {
      assert IdOf(st.subs, ln, st.subs[i].id);
    }
  }

  /** A worker started in this iteration is reported when it finishes, and earlier reports stay. */
  lemma FinishOneReported(setup: Setup, st: Sched, ln: seq<nat>, i: nat, run: SubtaskRun.Run, now: int)
    requires WaitPre(st) && SettledRun(run) && ReportedFor(st, ln)
    ensures ReportedFor(FinishOne(setup, st, ln, i, run, now), ln)
  {
    var r := FinishOne(setup, st, ln, i, run, now);
    FinishOneInv(setup, st, ln, i, run, now);
    if i in st.running && i in ln {
      forall j | j in ln && j < |r.subs| && j !in r.running
        ensures r.subs[j].status == Completed ==> ResultEntry(r.subs[j].id, r.subs[j].kind, r.subs[j].result) in r.completed
        ensures r.subs[j].status == Failed ==> r.subs[j].id in r.failed
      {
        if j != i {
          assert r.subs[j] == st.subs[j];
          var e := ResultEntry(r.subs[j].id, r.subs[j].kind, r.subs[j].result);
          if r.subs[j].status == Completed && r.subs[i].status == Completed {
            var k :| 0 <= k < |st.completed| && st.completed[k] == e;
            assert e.id != r.subs[i].id;
          }
        }
      }
    }
  }

  lemma {:induction false} FinishesInv(setup: Setup, st: Sched, ln: seq<nat>, finishes: seq<(nat, SubtaskRun.Run)>, now: int)
    requires WaitPre(st)
    requires forall k :: 0 <= k < |finishes| ==> SettledRun(finishes[k].1)
    ensures var r := Finishes(setup, st, ln, finishes, now);
      && WaitPre(r) && Advances(st.subs, r.subs) && r.index == st.index
      && (forall m :: m in r.running ==> m in st.running)
      && (forall m :: 0 <= m < |st.subs| && m !in st.running ==> r.subs[m] == st.subs[m])
      && r.contexts == st.contexts && r.factory == st.factory
    decreases |finishes|
  {
    if |finishes| > 0 {
      FinishOneInv(setup, st, ln, finishes[0].0, finishes[0].1, now);
      FinishOneFrame(setup, st, ln, finishes[0].0, finishes[0].1, now);
      var one := FinishOne(setup, st, ln, finishes[0].0, finishes[0].1, now);
      FinishesInv(setup, one, ln, finishes[1..], now);
      AdvancesTransitive(st.subs, one.subs, Finishes(setup, one, ln, finishes[1..], now).subs);
    }
  }

  /** Over the whole wait, only workers started in this iteration add to the loop's bookkeeping. */
  lemma {:induction false} FinishesNew(setup: Setup, st: Sched, ln: seq<nat>, finishes: seq<(nat, SubtaskRun.Run)>, now: int)
    requires WaitPre(st)
    requires forall k :: 0 <= k < |finishes| ==> SettledRun(finishes[k].1)
    ensures NewOnlyFrom(st, Finishes(setup, st, ln, finishes, now), ln)
    decreases |finishes|
  {
    if |finishes| > 0 {
      FinishOneInv(setup, st, ln, finishes[0].0, finishes[0].1, now);
      FinishOneNew(setup, st, ln, finishes[0].0, finishes[0].1, now);
      var one := FinishOne(setup, st, ln, finishes[0].0, finishes[0].1, now);
      FinishesNew(setup, one, ln, finishes[1..], now);
      NewOnlyChain(st, one, Finishes(setup, one, ln, finishes[1..], now), ln);
    }
  }

  /** Bookkeeping added only for `ln` in two steps that keep the ids is added only for `ln`. */
  lemma NewOnlyChain(a: Sched, b: Sched, c: Sched, ln: seq<nat>)
    requires |a.subs| == |b.subs| && forall m :: 0 <= m < |a.subs| ==> b.subs[m].id == a.subs[m].id
    requires NewOnlyFrom(a, b, ln) && NewOnlyFrom(b, c, ln)
    ensures NewOnlyFrom(a, c, ln)
  {
    forall x | x in c.completed ensures x in a.completed || IdOf(a.subs, ln, x.id) {
      if x !in b.completed {
        var m :| m in ln && m < |b.subs| && b.subs[m].id == x.id;
      }
    }
    forall id | id in c.failed ensures id in a.failed || IdOf(a.subs, ln, id) {
      if id !in b.failed {
        var m :| m in ln && m < |b.subs| && b.subs[m].id == id;
      }
    }
  }

  /** Over the whole wait, every worker of this iteration that finished is reported. */
  lemma {:induction false} FinishesReported(setup: Setup, st: Sched, ln: seq<nat>, finishes: seq<(nat, SubtaskRun.Run)>, now: int)
    requires WaitPre(st) && ReportedFor(st, ln)
    requires forall k :: 0 <= k < |finishes| ==> SettledRun(finishes[k].1)
    ensures ReportedFor(Finishes(setup, st, ln, finishes, now), ln)
    decreases |finishes|
  {
    if |finishes| > 0 {
      FinishOneInv(setup, st, ln, finishes[0].0, finishes[0].1, now);
      FinishOneReported(setup, st, ln, finishes[0].0, finishes[0].1, now);
      FinishesReported(setup, FinishOne(setup, st, ln, finishes[0].0, finishes[0].1, now), ln, finishes[1..], now);
    }
  }

  // ---------------------------------------------------------------------------
  // One iteration

  /** The state after the launch loop and the start entries, before the workers finish. */
  function Begun(setup: Setup, st: Sched, now: int): (r: Launched)
    requires Shaped(st)
    ensures Shaped(r.st)
  {
    var launched := Launch(setup, st, st.ready, now);
    var l := launched.st;
    Launched(l.(logs := l.logs + StartEntries(setup, l.subs, launched.started, now)), launched.started)
  }

  lemma IterationParts(setup: Setup, st: Sched, tick: Tick)
    requires Shaped(st)
    ensures var b := Begun(setup, st, tick.now);
      var w := Finishes(setup, b.st, b.started, tick.finishes, tick.now);
      Iteration(setup, st, tick) == w.(ready := Ready(w.subs, w.index))
  {
  }

  lemma BegunKeeps(setup: Setup, st: Sched, now: int)
    requires Inv(st)
    ensures var b := Begun(setup, st, now);
      && WaitPre(b.st) && Advances(st.subs, b.st.subs) && b.st.index == st.index
      && b.st.completed == st.completed
  {
    LaunchKeeps(setup, st, st.ready, now);
  }

  /** The invariant holds before every iteration; subtasks only advance and `subtask_map` stays as it was. */
  lemma IterationInv(setup: Setup, st: Sched, tick: Tick)
    requires Inv(st) && Settled(tick)
    ensures var r := Iteration(setup, st, tick);
      Inv(r) && Advances(st.subs, r.subs) && r.index == st.index
  {
    BegunKeeps(setup, st, tick.now);
    var b := Begun(setup, st, tick.now);
    FinishesInv(setup, b.st, b.started, tick.finishes, tick.now);
    var w := Finishes(setup, b.st, b.started, tick.finishes, tick.now);
    AdvancesTransitive(st.subs, b.st.subs, w.subs);
    IterationParts(setup, st, tick);
    ReadyListReady(w);
  }

  lemma ReadyListReady(w: Sched)
    requires WaitPre(w)
    ensures Inv(w.(ready := Ready(w.subs, w.index)))
  {
    var r := w.(ready := Ready(w.subs, w.index));
    forall k | 0 <= k < |r.ready| ensures r.ready[k] < |r.subs| && ReadyNow(r.subs, r.index, r.subs[r.ready[k]]) {
      assert r.ready[k] in r.ready;
    }
  }
}
