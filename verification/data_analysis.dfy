/**
 * The data-analysis agent: the shared simulated lifecycle, then a report
 * whose kind depends only on whether an earlier web-research subtask left
 * a non-empty result in the context. The report prose is generated text
 * the model keeps opaque; the headings are modelled exactly.
 */
module DataAnalysis {
  import opened Wrappers
  import opened Strings
  import opened Models
  import opened BaseAgent
  import opened Seqs

  /** An entry the agent accepts as research: type `web_research` with a non-empty result. */
  predicate IsResearch(e: ResultEntry) {
    e.kind == "web_research" && e.result.Some? && e.result.value != ""
  }

  /** The first accepted research entry's result, if any. */
  function FirstResearch(results: seq<ResultEntry>): (r: Option<string>)
    ensures r.None? <==> forall i :: 0 <= i < |results| ==> !IsResearch(results[i])
    ensures r.Some? ==> exists i :: 0 <= i < |results| && IsResearch(results[i]) && r.value == results[i].result.value
                                    && forall j :: 0 <= j < i ==> !IsResearch(results[j])
  {
    match FirstIndex(results, IsResearch)
    case None => None
    case Some(i) => Some(results[i].result.value)
  }

  /** The research the agent finds in its context: only when `subtask_results` is present. */
  function ResearchIn(ctx: Option<WorkerContext>): (r: Option<string>)
    ensures ctx.None? || ctx.value.subtaskResults.None? ==> r.None?
    ensures ctx.Some? && ctx.value.subtaskResults.Some? ==> r == FirstResearch(ctx.value.subtaskResults.value)
  {
    if ctx.Some? && ctx.value.subtaskResults.Some? then FirstResearch(ctx.value.subtaskResults.value) else None
  }

  const ResearchHeading := "## Data Analysis of AI Trends 2024\n\n"
  const DefaultHeading := "## Preliminary Data Analysis\n\n"

  /**
   * `_generate_simulated_results(context)`: the research-based report when
   * research was found, the preliminary one otherwise. The text after each
   * heading is the fixed prose `researchBody` or `defaultBody`.
   */
  function SimulatedResults(ctx: Option<WorkerContext>, researchBody: string, defaultBody: string): (r: string)
    ensures ResearchIn(ctx).Some? ==> StartsWith(r, ResearchHeading) && r[|ResearchHeading|..] == researchBody
    ensures ResearchIn(ctx).None? ==> StartsWith(r, DefaultHeading) && r[|DefaultHeading|..] == defaultBody
  {
    if ResearchIn(ctx).Some? then Headed(ResearchHeading, researchBody) else Headed(DefaultHeading, defaultBody)
  }

  function Headed(heading: string, body: string): (r: string)
    ensures StartsWith(r, heading) && r[|heading|..] == body
  {
    heading + body
  }

  /** The report never looks at the research text: any two contexts with research give the same report. */
  lemma ResearchTextIgnored(a: Option<WorkerContext>, b: Option<WorkerContext>, researchBody: string, defaultBody: string)
    requires ResearchIn(a).Some? && ResearchIn(b).Some?
    ensures SimulatedResults(a, researchBody, defaultBody) == SimulatedResults(b, researchBody, defaultBody)
  {
  }

  /** The two reports are told apart by their first heading. */
  lemma HeadingsDistinguishReports(ctx: Option<WorkerContext>, researchBody: string, defaultBody: string)
    ensures StartsWith(SimulatedResults(ctx, researchBody, defaultBody), ResearchHeading) <==> ResearchIn(ctx).Some?
  {
    var r := SimulatedResults(ctx, researchBody, defaultBody);
    if ResearchIn(ctx).None? {
      assert r[3] == DefaultHeading[3] != ResearchHeading[3];
    }
  }

  const Steps: seq<string> := ["Loading and preprocessing data", "Performing statistical analysis",
                               "Identifying patterns and trends", "Generating visualizations", "Compiling analysis report"]

  const ErrorPrefix := "Error in data analysis: "

  /**
   * `execute(subtask, context)`: five progress steps, then the report;
   * `fault` is an exception raised part-way.
   */
  function Execute(s: Subtask, ctx: Option<WorkerContext>, researchBody: string, defaultBody: string,
                   fault: Option<Fault>, now: int): (r: Subtask)
    ensures r.id == s.id && r.kind == s.kind && r.dependencies == s.dependencies
    ensures fault.None? ==> r.status == Completed && r.progress == 1.0
                            && r.result == Some(SimulatedResults(ctx, researchBody, defaultBody))
    ensures fault.Some? ==> r.status == Failed && r.error == Some(ErrorPrefix + fault.value.message)
    ensures fault.Some? && 0 < fault.value.afterSteps <= 5 ==>
      r.progress == (fault.value.afterSteps as real - 0.5) / 5.0
  {
    RunSimulated(s, Steps, SimulatedResults(ctx, researchBody, defaultBody), ErrorPrefix, fault, now)
  }
}
