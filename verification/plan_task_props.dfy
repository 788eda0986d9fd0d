/**
 * What `plan_task` produces for a real task: the planner's plan is one the
 * markdown format carries, so the orchestrator creates exactly one pending
 * subtask per planned type, in the plan's listing order, each depending on
 * the subtasks created for its listed dependencies.
 */
module PlanTaskProperties {
  import opened Wrappers
  import opened Strings
  import opened Models
  import opened Planner
  import opened PlanParser
  import opened PlanRoundTrip

  // ---------------------------------------------------------------------------
  // The planner's plans are well formed

  const KnownKinds: set<string> := {"web_research", "data_analysis", "code_generation",
                                    "content_creation", "general_execution", "result_orchestration"}

  const KnownDescriptions: set<string> := {
    "Research information related to the task", "Analyze data related to the task",
    "Generate code based on task requirements", "Create content based on task requirements",
    "Execute the general task", "Combine results from all subtasks"}

  lemma KnownKindValid(k: string)
    requires k in KnownKinds
    ensures ValidType(k)
  {
  }

  lemma KnownDescriptionPlain(d: string)
    requires d in KnownDescriptions
    ensures '\n' !in d && '*' !in d
  {
    NoNewlineOrStar(d);
  }

  /** Only letters and spaces. */
  predicate Plain(d: string) {
    forall i :: 0 <= i < |d| ==> IsLetter(d[i]) || d[i] == ' '
  }

  /** Every description the planner writes is plain, hence has neither a newline nor a star. */
  lemma NoNewlineOrStar(d: string)
    requires d in KnownDescriptions
    ensures Plain(d)
  {
    if d == "Research information related to the task" { PlainResearch(); }
    else if d == "Analyze data related to the task" { PlainAnalyze(); }
    else if d == "Generate code based on task requirements" { PlainGenerate(); }
    else if d == "Create content based on task requirements" { PlainCreate(); }
    else if d == "Execute the general task" { PlainExecute(); }
    else { PlainCombine(); }
  }

  lemma PlainResearch() ensures Plain("Research information related to the task") { }
  lemma PlainAnalyze() ensures Plain("Analyze data related to the task") { }
  lemma PlainGenerate() ensures Plain("Generate code based on task requirements") { }
  lemma PlainCreate() ensures Plain("Create content based on task requirements") { }
  lemma PlainExecute() ensures Plain("Execute the general task") { }
  lemma PlainCombine() ensures Plain("Combine results from all subtasks") { }

  predicate KnownItem(it: PlanItem) {
    && it.kind in KnownKinds && it.description in KnownDescriptions
    && forall d :: d in it.dependencies ==> d in KnownKinds
  }

  lemma KnownItemWellFormed(it: PlanItem)
    requires KnownItem(it)
    ensures WellFormedItem(it)
  {
    KnownKindValid(it.kind);
    KnownDescriptionPlain(it.description);
    forall d | d in it.dependencies ensures ValidType(d) {
      KnownKindValid(d);
    }
  }

  lemma BaseItemsKnown(l: string)
    ensures forall it :: it in BaseItems(l) ==> KnownItem(it)
  {
  }

  lemma AnalyzeTaskKnown(task: string)
    ensures forall it :: it in AnalyzeTask(task).items ==> KnownItem(it)
  {
    var base := BaseItems(Lower(task));
    var last := PlanItem("result_orchestration", "Combine results from all subtasks", Kinds(base), 5);
    BaseItemsKnown(Lower(task));
    assert AnalyzeTask(task).items == base + [last];
    forall d | d in last.dependencies ensures d in KnownKinds {
      var i :| 0 <= i < |base| && Kinds(base)[i] == d;
      assert base[i] in base;
    }
  }

  /** Every plan the planner writes can be read back. */
  lemma AnalyzeTaskWellFormed(task: string)
    ensures WellFormedPlan(AnalyzeTask(task))
  {
    AnalyzeTaskKnown(task);
    forall it | it in AnalyzeTask(task).items ensures WellFormedItem(it) {
      KnownItemWellFormed(it);
    }
  }

  // ---------------------------------------------------------------------------
  // Distinct types survive the ordering

  predicate DistinctKinds(items: seq<PlanItem>) {
    forall a, b :: 0 <= a < b < |items| ==> items[a].kind != items[b].kind
  }

  /** With distinct types, each item occurs exactly once. */
  lemma OccursOnce(ys: seq<PlanItem>, i: nat)
    requires DistinctKinds(ys) && i < |ys|
    ensures multiset(ys)[ys[i]] == 1
  {
    var x := ys[i];
    assert ys == ys[..i] + [x] + ys[i + 1..];
    assert x !in ys[..i] by {
      forall k | 0 <= k < i ensures ys[..i][k] != x {
        assert ys[..i][k] == ys[k];
      }
    }
    var after := ys[i + 1..];
    assert x !in after by {
      forall k | 0 <= k < |after| ensures after[k] != x {
        assert after[k] == ys[i + 1 + k];
      }
    }
  }

  /** Two positions holding the same item count twice. */
  lemma TwoPositions(xs: seq<PlanItem>, a: nat, b: nat)
    requires a < b < |xs|
    ensures multiset(xs)[xs[a]] >= 1 + (if xs[a] == xs[b] then 1 else 0)
  {
    assert xs == xs[..a] + [xs[a]] + xs[a + 1..];
    assert xs[b] in xs[a + 1..] by {
      assert xs[a + 1..][b - a - 1] == xs[b];
    }
  }

  /** A reordering of items with distinct types has distinct types. */
  lemma PermutationDistinct(xs: seq<PlanItem>, ys: seq<PlanItem>)
    requires multiset(xs) == multiset(ys) && DistinctKinds(ys)
    ensures DistinctKinds(xs)
  {
    forall a, b | 0 <= a < b < |xs| ensures xs[a].kind != xs[b].kind {
      assert xs[a] in multiset(ys) && xs[b] in multiset(ys);
      var i :| 0 <= i < |ys| && ys[i] == xs[a];
      var j :| 0 <= j < |ys| && ys[j] == xs[b];
      TwoPositions(xs, a, b);
      OccursOnce(ys, i);
      assert i != j;
      if i < j {
        assert ys[i].kind != ys[j].kind;
      } else {
        assert ys[j].kind != ys[i].kind;
      }
    }
  }

  lemma OrderedDistinct(task: string)
    ensures DistinctKinds(Ordered(AnalyzeTask(task).items))
  {
    AnalyzeTaskDistinct(task);
    PermutationDistinct(Ordered(AnalyzeTask(task).items), AnalyzeTask(task).items);
  }

  // ---------------------------------------------------------------------------
  // Reading the dependency map back

  /** A type no item carries keeps whatever the map already said about it. */
  lemma {:induction false} ExpectedUntouched(m: map<string, seq<string>>, items: seq<PlanItem>, k: string)
    requires forall i :: 0 <= i < |items| ==> items[i].kind != k
    ensures k in ExpectedDependencies(m, items) <==> k in m
    ensures k in m ==> ExpectedDependencies(m, items)[k] == m[k]
    decreases |items|
  {
    if |items| > 0 {
      var it := items[0];
      var next := if |it.dependencies| > 0 then m[it.kind := it.dependencies] else m;
      ExpectedUntouched(next, items[1..], k);
    }
  }

  /** With distinct types, an item's entry is its own dependency list, present exactly when non-empty. */
  lemma {:induction false} ExpectedLookup(items: seq<PlanItem>, i: nat)
    requires DistinctKinds(items) && i < |items|
    ensures var deps := ExpectedDependencies(map[], items);
      && (items[i].kind in deps <==> |items[i].dependencies| > 0)
      && (items[i].kind in deps ==> deps[items[i].kind] == items[i].dependencies)
  {
    ExpectedLookupFrom(map[], items, i);
  }

  lemma {:induction false} ExpectedLookupFrom(m: map<string, seq<string>>, items: seq<PlanItem>, i: nat)
    requires DistinctKinds(items) && i < |items|
    requires items[i].kind !in m
    ensures var deps := ExpectedDependencies(m, items);
      && (items[i].kind in deps <==> |items[i].dependencies| > 0)
      && (items[i].kind in deps ==> deps[items[i].kind] == items[i].dependencies)
    decreases |items|
  {
    var it := items[0];
    var next := if |it.dependencies| > 0 then m[it.kind := it.dependencies] else m;
    assert ExpectedDependencies(m, items) == ExpectedDependencies(next, items[1..]);
    if i == 0 {
      forall j | 0 <= j < |items[1..]| ensures items[1..][j].kind != it.kind {
        assert items[1..][j] == items[j + 1];
      }
      ExpectedUntouched(next, items[1..], it.kind);
    } else {
      assert items[1..][i - 1] == items[i];
      assert DistinctKinds(items[1..]) by {
        forall a, b | 0 <= a < b < |items[1..]| ensures items[1..][a].kind != items[1..][b].kind {
          assert items[1..][a] == items[a + 1] && items[1..][b] == items[b + 1];
        }
      }
      ExpectedLookupFrom(next, items[1..], i - 1);
    }
  }

  /** Without a `planner` type, nothing is filtered out. */
  lemma {:induction false} WorkerTypesKeepAll(types: seq<string>)
    requires "planner" !in types
    ensures WorkerTypes(types) == types
    decreases |types|
  {
    if |types| > 0 {
      assert types == [types[0]] + types[1..];
      WorkerTypesKeepAll(types[1..]);
    }
  }

  // ---------------------------------------------------------------------------
  // plan_task with the planner available

  /** The ids of the subtasks created for distinct types: the `j`-th type gets `mint(j)`. */
  lemma CreatedIds(ordered: seq<PlanItem>, mint: nat -> string, now: int)
    requires DistinctKinds(ordered)
    ensures var ids := IdMap(Created(Kinds(ordered), mint, 0, now));
      && (forall j :: 0 <= j < |ordered| ==> ordered[j].kind in ids && ids[ordered[j].kind] == mint(j))
      && (forall t :: t in ids ==> exists j :: 0 <= j < |ordered| && ordered[j].kind == t)
  {
    var created := Created(Kinds(ordered), mint, 0, now);
    var ids := IdMap(created);
    forall j | 0 <= j < |ordered| ensures ordered[j].kind in ids && ids[ordered[j].kind] == mint(j) {
      IdMapDistinct(created, j);
      assert created[j] in created;
    }
    forall t | t in ids ensures exists j :: 0 <= j < |ordered| && ordered[j].kind == t {
      var s :| s in created && s.kind == t;
      var j :| 0 <= j < |created| && created[j] == s;
      assert ordered[j].kind == t;
    }
  }

  /** Resolving a dependency list against those ids picks the ids of the listed types that were planned. */
  lemma ResolvedDependencies(types: seq<string>, ordered: seq<PlanItem>, ids: map<string, string>, mint: nat -> string)
    requires forall j :: 0 <= j < |ordered| ==> ordered[j].kind in ids && ids[ordered[j].kind] == mint(j)
    requires forall t :: t in ids ==> exists j :: 0 <= j < |ordered| && ordered[j].kind == t
    ensures forall d :: d in KnownDependencies(types, ids) <==>
      exists j :: 0 <= j < |ordered| && ordered[j].kind in types && d == Dependency(mint(j))
    ensures (forall k :: 0 <= k < |types| ==> types[k] in ids) ==>
      var r := KnownDependencies(types, ids);
      |r| == |types| && forall k :: 0 <= k < |r| ==> exists j :: 0 <= j < |ordered| && ordered[j].kind == types[k] && r[k] == Dependency(mint(j))
  {
    if forall k :: 0 <= k < |types| ==> types[k] in ids {
      var r := KnownDependencies(types, ids);
      forall k | 0 <= k < |r|
        ensures exists j :: 0 <= j < |ordered| && ordered[j].kind == types[k] && r[k] == Dependency(mint(j))
      {
        var j :| 0 <= j < |ordered| && ordered[j].kind == types[k];
        assert r[k] == Dependency(mint(j));
      }
    }
    forall d ensures d in KnownDependencies(types, ids) ==>
      exists j :: 0 <= j < |ordered| && ordered[j].kind in types && d == Dependency(mint(j))
    {
      if d in KnownDependencies(types, ids) {
        var t :| t in types && t in ids && d == Dependency(ids[t]);
        var j :| 0 <= j < |ordered| && ordered[j].kind == t;
        assert ordered[j].kind in types && d == Dependency(mint(j));
      }
    }
  }

  /** What a subtask's dependencies resolve to: the ids of the `wanted` types that were planned. */
  ghost predicate ResolvesTo(deps: seq<Dependency>, wanted: seq<string>, ordered: seq<PlanItem>, mint: nat -> string) {
    forall d :: d in deps <==> exists j :: 0 <= j < |ordered| && ordered[j].kind in wanted && d == Dependency(mint(j))
  }

  /** No plan item is a `planner` step. */
  lemma NoPlannerKind(items: seq<PlanItem>)
    requires forall it :: it in items ==> KnownItem(it)
    ensures "planner" !in Kinds(Ordered(items))
  {
    var ordered := Ordered(items);
    forall j | 0 <= j < |ordered| ensures ordered[j].kind != "planner" {
      assert ordered[j] in multiset(items);
      assert ordered[j] in items;
    }
  }

  /** The id map `plan_task` builds for a read-back plan with the given types. */
  function PlannedIds(ordered: seq<PlanItem>, mint: nat -> string, now: int): map<string, string> {
    IdMap(Created(Kinds(ordered), mint, 0, now))
  }

  /** Against that map, a dependency list resolves to the ids of the listed types that were planned. */
  lemma PlannedIdsResolve(ordered: seq<PlanItem>, mint: nat -> string, now: int, wanted: seq<string>)
    requires DistinctKinds(ordered)
    ensures ResolvesTo(KnownDependencies(wanted, PlannedIds(ordered, mint, now)), wanted, ordered, mint)
  {
    CreatedIds(ordered, mint, now);
    ResolvedDependencies(wanted, ordered, PlannedIds(ordered, mint, now), mint);
  }

  /**
   * The subtasks built from a read-back plan with distinct types: after the
   * planning subtask, the `i`-th is pending, of the `i`-th type, with id
   * `mint(i)`, and has dependencies exactly when the plan lists some.
   */
  lemma BuiltSubtask(ordered: seq<PlanItem>, planning: Subtask, mint: nat -> string, now: int, i: nat)
    requires DistinctKinds(ordered) && "planner" !in Kinds(ordered) && i < |ordered|
    ensures var r := BuildSubtasks(Parsed(Kinds(ordered), ExpectedDependencies(map[], ordered)), planning, mint, now);
      && i + 1 < |r|
      && r[i + 1].kind == ordered[i].kind && r[i + 1].id == mint(i) && r[i + 1].status == Pending
      && r[i + 1].dependencies == (if |ordered[i].dependencies| > 0
                                   then Some(KnownDependencies(ordered[i].dependencies, PlannedIds(ordered, mint, now)))
                                   else None)
  {
    var deps := ExpectedDependencies(map[], ordered);
    WorkerTypesKeepAll(Kinds(ordered));
    var created := Created(Kinds(ordered), mint, 0, now);
    var ids := IdMap(created);
    var r := BuildSubtasks(Parsed(Kinds(ordered), deps), planning, mint, now);
    assert r == [WithDependencies(planning, deps, ids)] + ResolveAll(created, deps, ids);
    assert r[i + 1] == WithDependencies(created[i], deps, ids);
    ExpectedLookup(ordered, i);
  }

  /** The planning subtask keeps its place at the head and gets no dependencies. */
  lemma BuiltPlanning(ordered: seq<PlanItem>, planning: Subtask, mint: nat -> string, now: int)
    requires "planner" !in Kinds(ordered) && planning.kind == "planner"
    ensures var r := BuildSubtasks(Parsed(Kinds(ordered), ExpectedDependencies(map[], ordered)), planning, mint, now);
      |r| == 1 + |ordered| && r[0] == planning
  {
    var deps := ExpectedDependencies(map[], ordered);
    WorkerTypesKeepAll(Kinds(ordered));
    forall j | 0 <= j < |ordered| ensures ordered[j].kind != "planner" {
      assert Kinds(ordered)[j] == ordered[j].kind;
    }
    ExpectedUntouched(map[], ordered, "planner");
    var created := Created(Kinds(ordered), mint, 0, now);
    var ids := IdMap(created);
  }

  /** The plan `plan_task` reads back is the one the planner wrote. */
  lemma ParsedPlan(task: string)
    ensures var ordered := Ordered(AnalyzeTask(task).items);
      && ParsePlanText(FormatPlan(AnalyzeTask(task))) == Parsed(Kinds(ordered), ExpectedDependencies(map[], ordered))
      && DistinctKinds(ordered) && "planner" !in Kinds(ordered)
      && |ordered| == |AnalyzeTask(task).items|
  {
    var ordered := Ordered(AnalyzeTask(task).items);
    AnalyzeTaskWellFormed(task);
    PlanRoundTrip.PlanRoundTrip(AnalyzeTask(task));
    AnalyzeTaskKnown(task);
    NoPlannerKind(AnalyzeTask(task).items);
    OrderedDistinct(task);
    assert |ordered| == |multiset(ordered)|;
  }

  /**
   * `plan_task` with a planner and a non-empty description: the `i`-th
   * subtask after the planning one is pending, of the plan's `i`-th listed
   * type, with id `mint(i)`, and it depends on the subtasks created for its
   * listed dependencies — exactly those the plan contains — and on nothing
   * when the plan lists none.
   */
  lemma PlannedSubtask(task: TaskRequest, planningId: string, mint: nat -> string, now: int, i: nat)
    requires task.task != ""
    requires i < |Ordered(AnalyzeTask(task.task).items)|
    ensures var r := PlanTask(task, true, planningId, mint, now);
      var ordered := Ordered(AnalyzeTask(task.task).items);
      && i + 1 < |r|
      && r[i + 1].kind == ordered[i].kind && r[i + 1].id == mint(i) && r[i + 1].status == Pending
      && (r[i + 1].dependencies.Some? <==> |ordered[i].dependencies| > 0)
      && (r[i + 1].dependencies.Some? ==> ResolvesTo(r[i + 1].dependencies.value, ordered[i].dependencies, ordered, mint))
  {
    var ordered := Ordered(AnalyzeTask(task.task).items);
    var planned := Planner.Execute(PlanningSubtask(planningId, now), Some(task.task), now);
    ParsedPlan(task.task);
    BuiltSubtask(ordered, planned, mint, now, i);
    PlannedIdsResolve(ordered, mint, now, ordered[i].dependencies);
  }

  /** The planning subtask comes first, completed with the plan as its result, with no dependencies. */
  lemma PlanningSubtaskFirst(task: TaskRequest, planningId: string, mint: nat -> string, now: int)
    requires task.task != ""
    ensures var r := PlanTask(task, true, planningId, mint, now);
      && |r| == 1 + |AnalyzeTask(task.task).items|
      && r[0].id == planningId && r[0].kind == "planner" && r[0].status == Completed
      && r[0].result == Some(FormatPlan(AnalyzeTask(task.task))) && r[0].dependencies.None?
  {
    var ordered := Ordered(AnalyzeTask(task.task).items);
    var planned := Planner.Execute(PlanningSubtask(planningId, now), Some(task.task), now);
    ParsedPlan(task.task);
    BuiltPlanning(ordered, planned, mint, now);
  }
}
