/**
 * The planner agent: keyword rules that decide which subtasks a task needs
 * and how they depend on each other, and the markdown rendering of the
 * resulting plan that the orchestrator later parses.
 */
module Planner {
  import opened Wrappers
  import opened Strings
  import opened Sorting
  import opened Models

  datatype PlanItem = PlanItem(kind: string, description: string, dependencies: seq<string>, priority: int)

  datatype Plan = Plan(complexity: string, estimatedTime: string, items: seq<PlanItem>)

  function Kinds(items: seq<PlanItem>): (r: seq<string>)
    ensures |r| == |items| && forall i :: 0 <= i < |items| ==> r[i] == items[i].kind
  {
    seq(|items|, i requires 0 <= i < |items| => items[i].kind)
  }

  predicate HasKind(items: seq<PlanItem>, kind: string) {
    exists i | 0 <= i < |items| :: items[i].kind == kind
  }

  // ---------------------------------------------------------------------------
  // _analyze_task

  predicate MentionsAny(lowered: string, words: seq<string>) {
    exists i | 0 <= i < |words| :: Contains(lowered, words[i])
  }

  const ResearchWords: seq<string> := ["research", "find", "search"]
  const AnalysisWords: seq<string> := ["analyze", "data", "statistics"]
  const CodeWords: seq<string> := ["code", "program", "script"]
  const ContentWords: seq<string> := ["write", "create", "generate", "summarize"]

  /** The item a rule adds when it fires, and nothing otherwise. */
  function When(fires: bool, it: PlanItem): (r: seq<PlanItem>)
    ensures |r| <= 1 && forall x :: x in r <==> fires && x == it
  {
    if fires then [it] else []
  }

  function ResearchRule(lowered: string): seq<PlanItem> {
    When(MentionsAny(lowered, ResearchWords),
      PlanItem("web_research", "Research information related to the task", [], 1))
  }

  function AnalysisRule(lowered: string): seq<PlanItem> {
    var research := Contains(lowered, "research");
    When(MentionsAny(lowered, AnalysisWords),
      PlanItem("data_analysis", "Analyze data related to the task",
        if research then ["web_research"] else [], if research then 2 else 1))
  }

  function CodeRule(lowered: string): seq<PlanItem> {
    var analyze := Contains(lowered, "analyze");
    When(MentionsAny(lowered, CodeWords),
      PlanItem("code_generation", "Generate code based on task requirements",
        if analyze then ["data_analysis"] else [], if analyze then 3 else 1))
  }

  function ContentRule(lowered: string): seq<PlanItem> {
    When(MentionsAny(lowered, ContentWords),
      PlanItem("content_creation", "Create content based on task requirements",
        ["web_research", "data_analysis", "code_generation"], 4))
  }

  /** The keyword-triggered items, in the order the rules are checked. */
  function KeywordItems(lowered: string): seq<PlanItem> {
    ResearchRule(lowered) + AnalysisRule(lowered) + CodeRule(lowered) + ContentRule(lowered)
  }

  /** The items before the closing orchestration step: the keyword items, or one general step when no rule fires. */
  function BaseItems(lowered: string): seq<PlanItem> {
    var found := KeywordItems(lowered);
    if |found| == 0 then [PlanItem("general_execution", "Execute the general task", [], 1)] else found
  }

  /** `_analyze_task(task_description)` */
  function AnalyzeTask(task: string): (p: Plan)
    ensures p.complexity == "medium" && p.estimatedTime == "10-15 minutes"
    ensures |p.items| >= 2
    ensures var last := p.items[|p.items| - 1];
      last.kind == "result_orchestration" && last.priority == 5
      && last.dependencies == Kinds(p.items[..|p.items| - 1])
  {
    var base := BaseItems(Lower(task));
    var items := base + [PlanItem("result_orchestration", "Combine results from all subtasks", Kinds(base), 5)];
    assert items[..|items| - 1] == base;
    Plan("medium", "10-15 minutes", items)
  }

  lemma HasKindConcat(a: seq<PlanItem>, b: seq<PlanItem>, kind: string)
    ensures HasKind(a + b, kind) <==> HasKind(a, kind) || HasKind(b, kind)
  {
    if HasKind(a + b, kind) {
      var i :| 0 <= i < |a + b| && (a + b)[i].kind == kind;
      if i >= |a| { assert b[i - |a|].kind == kind; }
    }
    if HasKind(a, kind) {
      var i :| 0 <= i < |a| && a[i].kind == kind;
      assert (a + b)[i].kind == kind;
    }
    if HasKind(b, kind) {
      var i :| 0 <= i < |b| && b[i].kind == kind;
      assert (a + b)[|a| + i].kind == kind;
    }
  }

  lemma HasKindOne(it: PlanItem, kind: string)
    ensures HasKind([it], kind) <==> it.kind == kind
  {
    if it.kind == kind { assert [it][0].kind == kind; }
  }

  /** Which kinds a task's plan holds, besides the closing orchestration step. */
  lemma AnalyzeTaskRules(task: string)
    ensures var items := AnalyzeTask(task).items;
      var l := Lower(task);
      && (HasKind(items, "web_research") <==> MentionsAny(l, ResearchWords))
      && (HasKind(items, "data_analysis") <==> MentionsAny(l, AnalysisWords))
      && (HasKind(items, "code_generation") <==> MentionsAny(l, CodeWords))
      && (HasKind(items, "content_creation") <==> MentionsAny(l, ContentWords))
      && (HasKind(items, "general_execution") <==>
            !(MentionsAny(l, ResearchWords) || MentionsAny(l, AnalysisWords)
              || MentionsAny(l, CodeWords) || MentionsAny(l, ContentWords)))
  {
    KindInPlan(task, "web_research");
    KindInPlan(task, "data_analysis");
    KindInPlan(task, "code_generation");
    KindInPlan(task, "content_creation");
    KindInPlan(task, "general_execution");
  }

  /** Whether the plan holds a kind other than the closing step's, in terms of the rules that fire. */
  lemma KindInPlan(task: string, k: string)
    requires k != "result_orchestration"
    ensures var l := Lower(task);
      var none := !(MentionsAny(l, ResearchWords) || MentionsAny(l, AnalysisWords)
                    || MentionsAny(l, CodeWords) || MentionsAny(l, ContentWords));
      HasKind(AnalyzeTask(task).items, k) <==>
        || (MentionsAny(l, ResearchWords) && k == "web_research")
        || (MentionsAny(l, AnalysisWords) && k == "data_analysis")
        || (MentionsAny(l, CodeWords) && k == "code_generation")
        || (MentionsAny(l, ContentWords) && k == "content_creation")
        || (none && k == "general_execution")
  {
    var l := Lower(task);
    var base := BaseItems(l);
    var last := PlanItem("result_orchestration", "Combine results from all subtasks", Kinds(base), 5);
    assert AnalyzeTask(task).items == base + [last];
    HasKindConcat(base, [last], k);
    HasKindOne(last, k);
    KindInKeywords(l, k);
    if |KeywordItems(l)| == 0 {
      HasKindOne(base[0], k);
    }
  }

  /** Whether the keyword items hold a kind, in terms of the rules that fire. */
  lemma KindInKeywords(l: string, k: string)
    ensures HasKind(KeywordItems(l), k) <==>
        || (MentionsAny(l, ResearchWords) && k == "web_research")
        || (MentionsAny(l, AnalysisWords) && k == "data_analysis")
        || (MentionsAny(l, CodeWords) && k == "code_generation")
        || (MentionsAny(l, ContentWords) && k == "content_creation")
    ensures |KeywordItems(l)| == 0 <==>
      !(MentionsAny(l, ResearchWords) || MentionsAny(l, AnalysisWords)
        || MentionsAny(l, CodeWords) || MentionsAny(l, ContentWords))
  {
    var r, a, c, w := ResearchRule(l), AnalysisRule(l), CodeRule(l), ContentRule(l);
    HasKindConcat(r + a + c, w, k);
    HasKindConcat(r + a, c, k);
    HasKindConcat(r, a, k);
    RuleKind(r, MentionsAny(l, ResearchWords), "web_research");
    RuleKind(a, MentionsAny(l, AnalysisWords), "data_analysis");
    RuleKind(c, MentionsAny(l, CodeWords), "code_generation");
    RuleKind(w, MentionsAny(l, ContentWords), "content_creation");
  }

  /** A rule's output holds a kind exactly when the rule fired and the kind is its own. */
  lemma RuleKind(rule: seq<PlanItem>, fires: bool, own: string)
    requires |rule| <= 1 && (|rule| == 1 <==> fires) && (fires ==> rule[0].kind == own)
    ensures forall k :: HasKind(rule, k) <==> fires && k == own
  {
    if fires { assert rule == [rule[0]]; forall k { HasKindOne(rule[0], k); } }
  }

  /** Every item of a given kind in a task's plan comes from that kind's rule (or is the closing step). */
  lemma ItemsFromRules(task: string, it: PlanItem)
    requires it in AnalyzeTask(task).items
    ensures var l := Lower(task);
      || it in ResearchRule(l) || it in AnalysisRule(l) || it in CodeRule(l) || it in ContentRule(l)
      || it.kind in {"general_execution", "result_orchestration"}
  {
  }

  /** The data-analysis step depends on web research exactly when the task mentions "research"; its priority is then 2, otherwise 1. */
  lemma AnalysisDependency(task: string, it: PlanItem)
    requires it in AnalyzeTask(task).items && it.kind == "data_analysis"
    ensures var research := Contains(Lower(task), "research");
      && (it.dependencies == ["web_research"] <==> research)
      && (it.dependencies == [] <==> !research)
      && it.priority == (if research then 2 else 1)
  {
    ItemsFromRules(task, it);
  }

  /** The code-generation step depends on data analysis exactly when the task mentions "analyze"; its priority is then 3, otherwise 1. */
  lemma CodeDependency(task: string, it: PlanItem)
    requires it in AnalyzeTask(task).items && it.kind == "code_generation"
    ensures var analyze := Contains(Lower(task), "analyze");
      && (it.dependencies == ["data_analysis"] <==> analyze)
      && (it.dependencies == [] <==> !analyze)
      && it.priority == (if analyze then 3 else 1)
  {
    ItemsFromRules(task, it);
  }

  /** The content-creation step always lists all three producers, whether they are in the plan or not. */
  lemma ContentDependencies(task: string, it: PlanItem)
    requires it in AnalyzeTask(task).items && it.kind == "content_creation"
    ensures it.dependencies == ["web_research", "data_analysis", "code_generation"] && it.priority == 4
  {
    ItemsFromRules(task, it);
  }
  /** The position of each kind in the order the rules add them. */
  function Rank(kind: string): int {
    if kind == "web_research" then 0
    else if kind == "data_analysis" then 1
    else if kind == "code_generation" then 2
    else if kind == "content_creation" then 3
    else if kind == "general_execution" then 4
    else if kind == "result_orchestration" then 5
    else 6
  }

  predicate RanksIncrease(items: seq<PlanItem>) {
    forall a, b :: 0 <= a < b < |items| ==> Rank(items[a].kind) < Rank(items[b].kind)
  }

  predicate RanksWithin(items: seq<PlanItem>, lo: int, hi: int) {
    forall it :: it in items ==> lo <= Rank(it.kind) <= hi
  }

  lemma RanksConcat(x: seq<PlanItem>, y: seq<PlanItem>, lo: int, mid: int, hi: int)
    requires RanksIncrease(x) && RanksIncrease(y)
    requires RanksWithin(x, lo, mid) && RanksWithin(y, mid + 1, hi) && lo <= mid < hi
    ensures RanksIncrease(x + y) && RanksWithin(x + y, lo, hi)
  {
    var xy := x + y;
    forall a, b | 0 <= a < b < |xy| ensures Rank(xy[a].kind) < Rank(xy[b].kind) {
      if b < |x| {
        assert xy[a] == x[a] && xy[b] == x[b];
      } else if a >= |x| {
        assert xy[a] == y[a - |x|] && xy[b] == y[b - |x|];
      } else {
        assert xy[a] == x[a] && xy[b] == y[b - |x|];
        assert x[a] in x && y[b - |x|] in y;
      }
    }
  }

  lemma RuleRank(rule: seq<PlanItem>, rank: int)
    requires |rule| <= 1 && forall it :: it in rule ==> Rank(it.kind) == rank
    ensures RanksIncrease(rule) && RanksWithin(rule, rank, rank)
  {
  }

  lemma KeywordItemsRanks(l: string)
    ensures RanksIncrease(KeywordItems(l)) && RanksWithin(KeywordItems(l), 0, 3)
  {
    var r, a, c, w := ResearchRule(l), AnalysisRule(l), CodeRule(l), ContentRule(l);
    RuleRank(r, 0);
    RuleRank(a, 1);
    RuleRank(c, 2);
    RuleRank(w, 3);
    RanksConcat(r, a, 0, 0, 1);
    RanksConcat(r + a, c, 0, 1, 2);
    RanksConcat(r + a + c, w, 0, 2, 3);
  }

  lemma BaseItemsRanks(l: string)
    ensures RanksIncrease(BaseItems(l)) && RanksWithin(BaseItems(l), 0, 4)
  {
    KeywordItemsRanks(l);
    if |KeywordItems(l)| == 0 {
      RuleRank(BaseItems(l), 4);
    }
  }

  /** No kind appears twice in a task's plan. */
  lemma AnalyzeTaskDistinct(task: string)
    ensures var items := AnalyzeTask(task).items;
      forall a, b :: 0 <= a < b < |items| ==> items[a].kind != items[b].kind
  {
    var base := BaseItems(Lower(task));
    var last := PlanItem("result_orchestration", "Combine results from all subtasks", Kinds(base), 5);
    BaseItemsRanks(Lower(task));
    RuleRank([last], 5);
    RanksConcat(base, [last], 0, 4, 5);
    assert AnalyzeTask(task).items == base + [last];
  }

  // ---------------------------------------------------------------------------
  // _format_execution_plan

  /** A subtask type as shown in a heading: underscores become spaces, then title case. */
  function DisplayName(kind: string): string {
    Title(ReplaceChar(kind, '_', ' '))
  }

  function Priority(it: PlanItem): int { it.priority }

  /** The items in the order the plan lists them: stably sorted by priority. */
  function Ordered(items: seq<PlanItem>): (r: seq<PlanItem>)
    ensures multiset(r) == multiset(items)
  {
    SortBy(items, Priority, IntLe)
  }

  function DisplayNames(kinds: seq<string>): (r: seq<string>)
    ensures |r| == |kinds| && forall i :: 0 <= i < |kinds| ==> r[i] == DisplayName(kinds[i])
  {
    seq(|kinds|, i requires 0 <= i < |kinds| => DisplayName(kinds[i]))
  }

  function DependenciesLine(deps: seq<string>): string {
    if |deps| > 0 then "- **Dependencies**: " + Join(DisplayNames(deps), ", ")
    else "- **Dependencies**: None"
  }

  /** The five lines of the `n`-th listed item (counting from 1). */
  function ItemLines(n: nat, it: PlanItem): seq<string> {
    [ "### " + IntText(n) + ". " + DisplayName(it.kind),
      "- **Description**: " + it.description,
      DependenciesLine(it.dependencies),
      "- **Priority**: " + IntText(it.priority),
      "" ]
  }

  function ItemsLines(items: seq<PlanItem>, first: nat): (r: seq<string>)
    ensures |r| == 5 * |items|
  {
    if |items| == 0 then [] else ItemLines(first, items[0]) + ItemsLines(items[1..], first + 1)
  }

  function HeaderLines(p: Plan): seq<string> {
    [ "# Task Execution Plan",
      "",
      "**Complexity**: " + p.complexity,
      "**Estimated Time**: " + p.estimatedTime,
      "",
      "## Subtasks",
      "" ]
  }

  /** Every line of the rendered plan; each is followed by a newline. */
  function PlanLines(p: Plan): (r: seq<string>)
    ensures |r| == 7 + 5 * |p.items|
  {
    HeaderLines(p) + ItemsLines(Ordered(p.items), 1)
  }

  /** The lines, each terminated by a newline. */
  function Unlines(lines: seq<string>): string {
    if |lines| == 0 then "" else lines[0] + "\n" + Unlines(lines[1..])
  }

  /** `_format_execution_plan(execution_plan)` */
  function FormatPlan(p: Plan): string {
    Unlines(PlanLines(p))
  }

  // ---------------------------------------------------------------------------
  // execute

  const MissingTaskError := "Planning failed: No task description provided in context"

  /**
   * `PlannerAgent.execute(subtask, context)` at clock reading `now`: fails
   * without a task description, otherwise completes with the formatted plan.
   */
  function Execute(s: Subtask, task: Option<string>, now: int): (r: Subtask)
    ensures r.id == s.id && r.kind == s.kind && r.dependencies == s.dependencies
    ensures task.GetOr("") == "" ==>
      r.status == Failed && r.progress == 0.0 && r.error == Some(MissingTaskError) && r.result == s.result
    ensures task.GetOr("") != "" ==>
      r.status == Completed && r.progress == 1.0 && r.result == Some(FormatPlan(AnalyzeTask(task.value)))
      && r.error == s.error
  {
    var started := s.(status := InProgress, progress := 0.2, updatedAt := DateTime(now));
    var description := task.GetOr("");
    if description == "" then
      started.(status := Failed, error := Some(MissingTaskError), progress := 0.0, updatedAt := DateTime(now))
    else
      started.(result := Some(FormatPlan(AnalyzeTask(description))), status := Completed, progress := 1.0,
               updatedAt := DateTime(now))
  }
}
