/**
 * The code-generation agent: the shared simulated lifecycle, then a code
 * solution in a language picked from the task text, framed by a fixed
 * heading and fixed usage instructions. The code listings themselves are
 * generated text the model keeps opaque.
 */
module CodeGeneration {
  import opened Wrappers
  import opened Strings
  import opened Models
  import opened BaseAgent

  datatype Language = Python | JavaScript | Java

  /**
   * JavaScript when "javascript" or "js" occurs in the lower-cased text, so
   * "json" selects it too; otherwise Java when "java" occurs; otherwise Python.
   */
  function LanguageOf(description: string): (r: Language)
    ensures var l := Lower(description);
      && (r == JavaScript <==> Contains(l, "javascript") || Contains(l, "js"))
      && (r == Java <==> !Contains(l, "javascript") && !Contains(l, "js") && Contains(l, "java"))
  {
    var l := Lower(description);
    if Contains(l, "javascript") || Contains(l, "js") then JavaScript
    else if Contains(l, "java") then Java
    else Python
  }

  const Frame := "## Generated Code Solution\n\n"

  function ImplementationHeading(lang: Language): string {
    match lang
    case Python => "### Python Implementation\n\n"
    case JavaScript => "### JavaScript Implementation\n\n"
    case Java => "### Java Implementation\n\n"
  }

  const Usage := "### Usage Instructions\n\n"
    + "1. Create a `config.json` file with the following structure:\n"
    + "```json\n{\n  \"exclude_fields\": [\"field_to_exclude\"],\n  \"rename_fields\": {\n"
    + "    \"original_name\": \"new_name\"\n  }\n}\n```\n\n"
    + "2. Initialize the `DataProcessor` with your config file\n"
    + "3. Call `process_data()` with your input data\n"
    + "4. Use `save_results()` to save the processed data to a file\n"

  /**
   * `_generate_code_example(description)`: the frame heading, the chosen
   * language's implementation heading, that language's listing from
   * `listing`, and the usage instructions.
   */
  function GenerateCode(description: string, listing: Language -> string): (r: string)
    ensures StartsWith(r, Frame) && EndsWith(r, Usage)
    ensures r[|Frame|..] == ImplementationHeading(LanguageOf(description)) + listing(LanguageOf(description)) + Usage
  {
    var lang := LanguageOf(description);
    Framed(Frame, ImplementationHeading(lang), listing(lang), Usage);
    Frame + ImplementationHeading(lang) + listing(lang) + Usage
  }

  lemma Framed(frame: string, heading: string, listing: string, usage: string)
    ensures var r := frame + heading + listing + usage;
      StartsWith(r, frame) && EndsWith(r, usage) && r[|frame|..] == heading + listing + usage
  {
    var r := frame + heading + listing + usage;
    assert r == frame + (heading + listing + usage);
    assert r == (frame + heading + listing) + usage;
  }

  /** Text mentioning JSON counts as JavaScript, since "js" occurs in "json". */
  lemma JsonSelectsJavaScript(description: string)
    requires Contains(Lower(description), "json")
    ensures LanguageOf(description) == JavaScript
  {
    var l := Lower(description);
    var k :| 0 <= k <= |l| - 4 && MatchAt(l, "json", k);
    assert l[k..k + 2] == l[k..k + 4][..2];
    assert MatchAt(l, "js", k);
  }

  /**
   * Exactly one implementation heading opens the solution: the chosen
   * language's, and no other language's heading is found in its place.
   */
  lemma OnlyChosenHeading(description: string, listing: Language -> string, other: Language)
    requires other != LanguageOf(description)
    ensures StartsWith(GenerateCode(description, listing)[|Frame|..], ImplementationHeading(LanguageOf(description)))
    ensures !StartsWith(GenerateCode(description, listing)[|Frame|..], ImplementationHeading(other))
  {
    var lang := LanguageOf(description);
    var rest := GenerateCode(description, listing)[|Frame|..];
    var mine := ImplementationHeading(lang);
    assert rest[..|mine|] == mine;
    var k := HeadingsDifferAt(lang, other);
    assert rest[k] == mine[k];
  }

  /** A position where two languages' headings disagree. */
  lemma HeadingsDifferAt(a: Language, b: Language) returns (k: nat)
    requires a != b
    ensures k < |ImplementationHeading(a)| && k < |ImplementationHeading(b)|
    ensures ImplementationHeading(a)[k] != ImplementationHeading(b)[k]
  {
    if a == Python || b == Python {
      k := 4;
    } else {
      k := 8;
    }
  }

  const Steps: seq<string> := ["Analyzing requirements", "Designing solution architecture",
                               "Generating code structure", "Implementing functionality", "Adding documentation"]

  const ErrorPrefix := "Error in code generation: "

  /**
   * `execute(subtask, context)`: five progress steps, then the solution for
   * the context's task text; `fault` is an exception raised part-way.
   */
  function Execute(s: Subtask, ctx: Option<WorkerContext>, listing: Language -> string, fault: Option<Fault>, now: int): (r: Subtask)
    ensures r.id == s.id && r.kind == s.kind && r.dependencies == s.dependencies
    ensures fault.None? ==> r.status == Completed && r.progress == 1.0
                            && r.result == Some(GenerateCode(ContextTask(ctx), listing))
    ensures fault.Some? ==> r.status == Failed && r.error == Some(ErrorPrefix + fault.value.message)
    ensures fault.Some? && 0 < fault.value.afterSteps <= 5 ==>
      r.progress == (fault.value.afterSteps as real - 0.5) / 5.0
  {
    RunSimulated(s, Steps, GenerateCode(ContextTask(ctx), listing), ErrorPrefix, fault, now)
  }
}
