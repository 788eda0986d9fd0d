/**
 * The content-creation agent: the shared simulated lifecycle, then a piece
 * of writing whose form and topic are picked from keywords in the task
 * text. The prose under each heading is generated text the model keeps
 * opaque; the headings are modelled exactly.
 */
module ContentCreation {
  import opened Wrappers
  import opened Strings
  import opened Models
  import opened BaseAgent

  datatype Form = Article | Blog | Report | Email
  datatype Topic = ArtificialIntelligence | ClimateChange | EmergingTechnologies | HealthAndWellness

  function TopicName(t: Topic): string {
    match t
    case ArtificialIntelligence => "artificial intelligence"
    case ClimateChange => "climate change"
    case EmergingTechnologies => "emerging technologies"
    case HealthAndWellness => "health and wellness"
  }

  /** The form of writing: blog before report before email or newsletter; an article otherwise. */
  function FormOf(description: string): (r: Form)
    ensures var l := Lower(description);
      && (r == Blog <==> Contains(l, "blog"))
      && (r == Report <==> !Contains(l, "blog") && Contains(l, "report"))
      && (r == Email <==> !Contains(l, "blog") && !Contains(l, "report")
                          && (Contains(l, "email") || Contains(l, "newsletter")))
  {
    var l := Lower(description);
    if Contains(l, "blog") then Blog
    else if Contains(l, "report") then Report
    else if Contains(l, "email") || Contains(l, "newsletter") then Email
    else Article
  }

  /** The topic: climate or environment first, then technology, then health; artificial intelligence otherwise. */
  function TopicOf(description: string): (r: Topic)
    ensures var l := Lower(description);
      && (r == ClimateChange <==> Contains(l, "climate") || Contains(l, "environment"))
      && (r == EmergingTechnologies <==> !(Contains(l, "climate") || Contains(l, "environment"))
                                         && (Contains(l, "technology") || Contains(l, "tech")))
      && (r == HealthAndWellness <==> !(Contains(l, "climate") || Contains(l, "environment"))
                                      && !(Contains(l, "technology") || Contains(l, "tech"))
                                      && (Contains(l, "health") || Contains(l, "wellness")))
  {
    var l := Lower(description);
    if Contains(l, "climate") || Contains(l, "environment") then ClimateChange
    else if Contains(l, "technology") || Contains(l, "tech") then EmergingTechnologies
    else if Contains(l, "health") || Contains(l, "wellness") then HealthAndWellness
    else ArtificialIntelligence
  }

  /** The title each form puts in its top-level heading. */
  function FormTitle(f: Form, t: Topic): string {
    var name := Title(TopicName(t));
    match f
    case Article => "Understanding the Future of " + name
    case Blog => "5 Ways " + name + " Is Changing Our World"
    case Report => name + ": Analysis and Future Outlook"
    case Email => "This Week in " + name + ": Updates and Insights"
  }

  /**
   * `_generate_content(description)`: the chosen form's title as a `# `
   * heading, then `body`, the generated prose (which for blogs and emails
   * also carries the current date).
   */
  function GenerateContent(description: string, body: string): (r: string)
    ensures StartsWith(r, "# ")
    ensures var heading := "# " + FormTitle(FormOf(description), TopicOf(description)) + "\n\n";
      StartsWith(r, heading) && r[|heading|..] == body
  {
    var heading := "# " + FormTitle(FormOf(description), TopicOf(description)) + "\n\n";
    assert (heading + body)[..2] == heading[..2];
    heading + body
  }

  /** Without a task text the agent writes an article on artificial intelligence. */
  lemma EmptyDescriptionDefaults(empty: string)
    requires empty == ""
    ensures FormOf(empty) == Article && TopicOf(empty) == ArtificialIntelligence
  {
  }

  /** Case does not matter to either classification. */
  lemma ClassificationIgnoresCase(description: string)
    ensures FormOf(Lower(description)) == FormOf(description)
    ensures TopicOf(Lower(description)) == TopicOf(description)
  {
    LowerIdempotent(description);
  }

  lemma LowerIdempotent(s: string)
    ensures Lower(Lower(s)) == Lower(s)
  {
    LowerOfLower(Lower(s));
  }

  const Steps: seq<string> := ["Analyzing requirements", "Researching topic", "Creating outline",
                               "Drafting content", "Editing and polishing"]

  const ErrorPrefix := "Error in content creation: "

  /**
   * `execute(subtask, context)`: five progress steps, then the content for
   * the context's task text; `fault` is an exception raised part-way.
   */
  function Execute(s: Subtask, ctx: Option<WorkerContext>, body: string, fault: Option<Fault>, now: int): (r: Subtask)
    ensures r.id == s.id && r.kind == s.kind && r.dependencies == s.dependencies
    ensures fault.None? ==> r.status == Completed && r.progress == 1.0
                            && r.result == Some(GenerateContent(ContextTask(ctx), body))
    ensures fault.Some? ==> r.status == Failed && r.error == Some(ErrorPrefix + fault.value.message)
    ensures fault.Some? && 0 < fault.value.afterSteps <= 5 ==>
      r.progress == (fault.value.afterSteps as real - 0.5) / 5.0
  {
    RunSimulated(s, Steps, GenerateContent(ContextTask(ctx), body), ErrorPrefix, fault, now)
  }
}
