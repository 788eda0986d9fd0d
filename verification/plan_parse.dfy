/**
 * The orchestrator's planning step: validate the request, run the planner,
 * read the subtask types and their dependencies back out of the plan text,
 * and create one pending subtask per type with its dependencies resolved to
 * subtask ids. Fresh ids come from `mint`, which stands for `uuid4`.
 */
module PlanParser {
  import opened Wrappers
  import opened Strings
  import opened Models
  import Planner

  /** `validate_task(task)`: a description is required and may be at most 10000 characters long. */
  function ValidateTask(task: TaskRequest): (ok: bool)
    ensures ok <==> 0 < |task.task| <= 10000
    ensures ok ==> task.task != ""
  {
    if task.task == "" then false
    else if |task.task| > 10000 then false
    else true
  }

  // ---------------------------------------------------------------------------
  // Reading the plan text

  const DependenciesMarker := "**Dependencies**:"

  /** `s.strip().lower().replace(' ', '_')`: a displayed name back to a subtask type. */
  function Normalize(s: string): string {
    ReplaceChar(Lower(Strip(s)), ' ', '_')
  }

  function NormalizeAll(names: seq<string>): (r: seq<string>)
    ensures |r| == |names| && forall i :: 0 <= i < |names| ==> r[i] == Normalize(names[i])
  {
    seq(|names|, i requires 0 <= i < |names| => Normalize(names[i]))
  }

  predicate IsHashOrSpace(c: char) { c == '#' || c == ' ' }

  /** What the parse loop collects: the types in heading order and the dependency lists by type. */
  datatype Parsed = Parsed(types: seq<string>, dependencies: map<string, seq<string>>)

  /**
   * One iteration of the parse loop. A `### ` heading contributes the type
   * after its first period; a dependencies line below some heading sets the
   * dependencies of the latest type, unless it says `None`.
   */
  function ParseLine(st: Parsed, line: string): (r: Parsed)
    ensures |st.types| <= |r.types| <= |st.types| + 1 && r.types[..|st.types|] == st.types
    ensures StartsWith(line, "### ") ==> r.dependencies == st.dependencies
    ensures !StartsWith(line, "### ") ==> r.types == st.types
    ensures forall k :: k in r.dependencies ==> k in st.dependencies || k in r.types
    ensures !StartsWith(line, "### ") && !Contains(line, DependenciesMarker) ==> r == st
  {
    if StartsWith(line, "### ") then
      var parts := Split(StripBy(line, IsHashOrSpace), ".");
      if |parts| > 1 then st.(types := st.types + [Normalize(parts[1])]) else st
    else if Contains(line, DependenciesMarker) && |st.types| > 0 then
      var current := st.types[|st.types| - 1];
      var depsPart := Strip(Split(line, DependenciesMarker)[1]);
      if depsPart != "None" then
        st.(dependencies := st.dependencies[current := NormalizeAll(Split(depsPart, ","))])
      else st
    else st
  }

  function ParseLines(lines: seq<string>, st: Parsed): (r: Parsed)
    ensures |r.types| >= |st.types| && r.types[..|st.types|] == st.types
    ensures forall k :: k in r.dependencies ==> k in st.dependencies || k in r.types
  {
    if |lines| == 0 then st
    else
      var next := ParseLine(st, lines[0]);
      var r := ParseLines(lines[1..], next);
      assert r.types[..|st.types|] == r.types[..|next.types|][..|st.types|];
      assert forall t :: t in next.types ==> t in r.types by {
        forall t | t in next.types ensures t in r.types {
          var i :| 0 <= i < |next.types| && next.types[i] == t;
          assert r.types[..|next.types|][i] == t;
        }
      }
      r
  }

  /** The loop over `execution_plan_text.split('\n')`. */
  function ParsePlanText(text: string): (r: Parsed)
    ensures forall k :: k in r.dependencies ==> k in r.types
  {
    ParseLines(Split(text, "\n"), Parsed([], map[]))
  }

  // ---------------------------------------------------------------------------
  // Creating the subtasks

  /** `f"Execute {subtask_type.replace('_', ' ')} task"` */
  function ExecuteDescription(kind: string): string {
    "Execute " + ReplaceChar(kind, '_', ' ') + " task"
  }

  /** The types of a parsed plan other than `planner`, in order. */
  function WorkerTypes(types: seq<string>): (r: seq<string>)
    ensures |r| <= |types|
    ensures forall t :: t in r <==> t in types && t != "planner"
  {
    if |types| == 0 then []
    else
      var rest := WorkerTypes(types[1..]);
      assert forall t :: t in types <==> t == types[0] || t in types[1..];
      if types[0] == "planner" then rest else [types[0]] + rest
  }

  /** One new pending subtask per type, the `i`-th with id `mint(next + i)`. */
  function Created(types: seq<string>, mint: nat -> string, next: nat, now: int): (r: seq<Subtask>)
    ensures |r| == |types| && forall i :: 0 <= i < |types| ==> r[i].kind == types[i]
    ensures forall i :: 0 <= i < |types| ==>
      r[i] == NewSubtask(mint(next + i), types[i], Pending, Some(ExecuteDescription(types[i])), now)
  {
    seq(|types|, i requires 0 <= i < |types| =>
      NewSubtask(mint(next + i), types[i], Pending, Some(ExecuteDescription(types[i])), now))
  }

  /** `subtask_ids`: type to id, where a later subtask of the same type overwrites an earlier one. */
  function IdMap(created: seq<Subtask>): (ids: map<string, string>)
    ensures ids.Keys == set s | s in created :: s.kind
    ensures |created| > 0 ==> ids[created[|created| - 1].kind] == created[|created| - 1].id
    decreases |created|
  {
    if |created| == 0 then map[]
    else
      var init := IdMap(created[..|created| - 1]);
      var last := created[|created| - 1];
      assert created == created[..|created| - 1] + [last];
      init[last.kind := last.id]
  }

  /** With one subtask per type, every type maps to its own subtask's id. */
  lemma {:induction false} IdMapDistinct(created: seq<Subtask>, i: nat)
    requires forall a, b :: 0 <= a < b < |created| ==> created[a].kind != created[b].kind
    requires i < |created|
    ensures IdMap(created)[created[i].kind] == created[i].id
    decreases |created|
  {
    if i < |created| - 1 {
      var init := created[..|created| - 1];
      IdMapDistinct(init, i);
      assert init[i] == created[i];
    }
  }

  /** The dependencies of one subtask: the ids of the listed types that have a subtask, in list order. */
  function KnownDependencies(types: seq<string>, ids: map<string, string>): (r: seq<Dependency>)
    ensures |r| <= |types|
    ensures forall d :: d in r <==> exists t :: t in types && t in ids && d == Dependency(ids[t])
    ensures (forall k :: 0 <= k < |types| ==> types[k] in ids) ==>
      |r| == |types| && forall k :: 0 <= k < |r| ==> r[k] == Dependency(ids[types[k]])
  {
    if |types| == 0 then []
    else
      var rest := KnownDependencies(types[1..], ids);
      assert forall t :: t in types <==> t == types[0] || t in types[1..];
      if types[0] in ids then [Dependency(ids[types[0]])] + rest else rest
  }

  /**
   * Resolving is done type by type: the dependencies of a list split in two
   * are those of its first part followed by those of its second, so order is
   * kept and a type listed twice gives its id twice.
   */
  lemma {:induction false} KnownDependenciesConcat(a: seq<string>, b: seq<string>, ids: map<string, string>)
    ensures KnownDependencies(a + b, ids) == KnownDependencies(a, ids) + KnownDependencies(b, ids)
    decreases |a|
  {
    if |a| > 0 {
      assert (a + b)[1..] == a[1..] + b;
      KnownDependenciesConcat(a[1..], b, ids);
    } else {
      assert a + b == b;
    }
  }

  /** The dependency pass: a subtask whose type has a parsed dependency list gets that list, resolved. */
  function WithDependencies(s: Subtask, dependencies: map<string, seq<string>>, ids: map<string, string>): (r: Subtask)
    ensures s.kind in dependencies ==> r == s.(dependencies := Some(KnownDependencies(dependencies[s.kind], ids)))
    ensures s.kind !in dependencies ==> r == s
    ensures r.id == s.id && r.kind == s.kind
  {
    if s.kind in dependencies then s.(dependencies := Some(KnownDependencies(dependencies[s.kind], ids))) else s
  }

  /** The subtasks `plan_task` returns for a parsed plan: the planning subtask first, then one per worker type. */
  function BuildSubtasks(parsed: Parsed, planning: Subtask, mint: nat -> string, now: int): (r: seq<Subtask>)
    ensures |r| == 1 + |WorkerTypes(parsed.types)|
    ensures SubtaskKinds(r) == [planning.kind] + WorkerTypes(parsed.types)
  {
    var workers := WorkerTypes(parsed.types);
    var created := Created(workers, mint, 0, now);
    var ids := IdMap(created);
    var rest := ResolveAll(created, parsed.dependencies, ids);
    var first := WithDependencies(planning, parsed.dependencies, ids);
    assert SubtaskKinds(rest) == workers;
    KindsCons(first, rest);
    [first] + rest
  }

  function ResolveAll(created: seq<Subtask>, dependencies: map<string, seq<string>>, ids: map<string, string>): (r: seq<Subtask>)
    ensures |r| == |created| && forall i :: 0 <= i < |created| ==> r[i] == WithDependencies(created[i], dependencies, ids)
    ensures forall i :: 0 <= i < |created| ==> r[i].kind == created[i].kind
  {
    seq(|created|, i requires 0 <= i < |created| => WithDependencies(created[i], dependencies, ids))
  }

  lemma KindsCons(first: Subtask, rest: seq<Subtask>)
    ensures SubtaskKinds([first] + rest) == [first.kind] + SubtaskKinds(rest)
  {
    var all := [first] + rest;
    assert forall i :: 0 < i < |all| ==> all[i] == rest[i - 1];
  }

  function SubtaskKinds(subtasks: seq<Subtask>): (r: seq<string>)
    ensures |r| == |subtasks| && forall i :: 0 <= i < |subtasks| ==> r[i] == subtasks[i].kind
  {
    seq(|subtasks|, i requires 0 <= i < |subtasks| => subtasks[i].kind)
  }

  // ---------------------------------------------------------------------------
  // plan_task and its fallback

  /** One subtask of the fallback plan: a fixed type and description. */
  function Basic(kind: string, description: string, index: nat, mint: nat -> string, now: int): Subtask {
    NewSubtask(mint(index), kind, Pending, Some(description), now)
  }

  /**
   * `_basic_plan_task(task)`: one subtask per keyword found, checked in the
   * order research, code, analyze, write; a general step when none is found.
   */
  function BasicPlan(task: TaskRequest, mint: nat -> string, now: int): (r: seq<Subtask>)
    ensures 1 <= |r| <= 4
    ensures forall i :: 0 <= i < |r| ==> r[i].id == mint(i) && r[i].status == Pending && r[i].dependencies.None?
    ensures SubtaskKinds(r) == BasicKinds(Lower(task.task))
  {
    var chosen := BasicKinds(Lower(task.task));
    var r := seq(|chosen|, i requires 0 <= i < |chosen| => Basic(chosen[i], BasicDescription(chosen[i]), i, mint, now));
    assert SubtaskKinds(r) == chosen;
    r
  }

  /** The types the fallback plan picks for a lower-cased description. */
  function BasicKinds(l: string): (kinds: seq<string>)
    ensures 1 <= |kinds| <= 4
    ensures "web_research" in kinds <==> Contains(l, "research")
    ensures "code_generation" in kinds <==> Contains(l, "code")
    ensures "data_analysis" in kinds <==> Contains(l, "analyze")
    ensures "content_creation" in kinds <==> Contains(l, "write")
    ensures "general_execution" in kinds <==>
      !(Contains(l, "research") || Contains(l, "code") || Contains(l, "analyze") || Contains(l, "write"))
  {
    var found :=
      (if Contains(l, "research") then ["web_research"] else [])
      + (if Contains(l, "code") then ["code_generation"] else [])
      + (if Contains(l, "analyze") then ["data_analysis"] else [])
      + (if Contains(l, "write") then ["content_creation"] else []);
    if |found| == 0 then ["general_execution"] else found
  }

  /** The descriptions the fallback plan gives its subtask types. */
  function BasicDescription(kind: string): string {
    if kind == "web_research" then "Research information related to the task"
    else if kind == "code_generation" then "Generate code based on task requirements"
    else if kind == "data_analysis" then "Analyze data related to the task"
    else if kind == "content_creation" then "Create content based on task requirements"
    else "Execute the general task"
  }

  const PlanningDescription := "Analyze task complexity and generate execution plan"

  /** The planning subtask `plan_task` creates before running the planner. */
  function PlanningSubtask(id: string, now: int): (s: Subtask)
    ensures s.kind == "planner" && s.status == Pending && s.dependencies.None?
  {
    NewSubtask(id, "planner", Pending, Some(PlanningDescription), now)
  }

  /**
   * `plan_task(task)`. `plannerAvailable` says whether the factory has an
   * agent for the `planner` type; the planning subtask gets `planningId`.
   * No subtasks without a planner; only the failed planning subtask when
   * planning fails; otherwise the parsed plan.
   */
  function PlanTask(task: TaskRequest, plannerAvailable: bool, planningId: string, mint: nat -> string, now: int): (r: seq<Subtask>)
    ensures !plannerAvailable ==> r == []
    ensures plannerAvailable && task.task == "" ==>
      |r| == 1 && r[0].status == Failed && r[0].error == Some(Planner.MissingTaskError)
    ensures plannerAvailable && task.task != "" ==>
      r == BuildSubtasks(ParsePlanText(Planner.FormatPlan(Planner.AnalyzeTask(task.task))),
                         Planner.Execute(PlanningSubtask(planningId, now), Some(task.task), now), mint, now)
  {
    if !plannerAvailable then []
    else
      var planned := Planner.Execute(PlanningSubtask(planningId, now), Some(task.task), now);
      if planned.status != Completed then [planned]
      else match planned.result
        case None => BasicPlan(task, mint, now)
        case Some(text) => BuildSubtasks(ParsePlanText(text), planned, mint, now)
  }
}
