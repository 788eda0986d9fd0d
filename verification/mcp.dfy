/**
 * The task service of `mcp.py`: `process_task` writes a plain-text
 * response naming the task, listing the context, and, when the context
 * carries code, a short analysis of that code by `analyze_code`.
 *
 * A context is the request's dictionary seen as its entries in insertion
 * order, each value as the text `str()` gives for it.
 */
module Mcp {
  import opened Wrappers
  import opened Strings

  type Context = seq<(string, string)>

  const DefMarker := "Function definition detected"
  const ReturnMarker := "Return statement found"
  const ConciseMarker := "Function is very concise"

  /** Fewer than ten whitespace-separated tokens. */
  predicate Concise(code: string) {
    |Words(code)| < 10
  }

  /**
   * The markers `analyze_code` collects: a definition, a return statement,
   * very concise code, each when it applies and in that order.
   */
  function Markers(code: string): (r: seq<string>)
    ensures DefMarker in r <==> Contains(code, "def")
    ensures ReturnMarker in r <==> Contains(code, "return")
    ensures ConciseMarker in r <==> Concise(code)
    ensures forall k :: 0 <= k < |r| ==> r[k] in [DefMarker, ReturnMarker, ConciseMarker]
    ensures forall a, b :: 0 <= a < b < |r| ==> Rank(r[a]) < Rank(r[b])
  {
    (if Contains(code, "def") then [DefMarker] else [])
    + (if Contains(code, "return") then [ReturnMarker] else [])
    + (if Concise(code) then [ConciseMarker] else [])
  }

  /** A marker's place in the fixed order. */
  function Rank(m: string): nat {
    if m == DefMarker then 0 else if m == ReturnMarker then 1 else 2
  }

  /** `analyze_code`: the markers joined by ", ". */
  function AnalyzeCode(code: string): (r: string)
    ensures r == "" <==> !Contains(code, "def") && !Contains(code, "return") && !Concise(code)
  {
    var m := Markers(code);
    JoinNonEmpty(m, ", ");
    Join(m, ", ")
  }

  /** Joining pieces that are all non-empty gives the empty text only for no pieces. */
  lemma {:induction false} JoinNonEmpty(parts: seq<string>, sep: string)
    requires forall k :: 0 <= k < |parts| ==> |parts[k]| > 0
    ensures Join(parts, sep) == "" <==> |parts| == 0
    decreases |parts|
  {
    if |parts| > 1 {
      assert |Join(parts, sep)| >= |parts[0]|;
    }
  }

  /** The analysis can be split at ", " back into its markers. */
  lemma AnalysisSplits(code: string)
    requires Contains(code, "def") || Contains(code, "return") || Concise(code)
    ensures Split(AnalyzeCode(code), ", ") == Markers(code)
  {
    var m := Markers(code);
    assert |m| >= 1 by {
      if Contains(code, "def") { assert DefMarker in m; }
      else if Contains(code, "return") { assert ReturnMarker in m; }
      else { assert ConciseMarker in m; }
    }
    forall k | 0 <= k < |m| ensures ", "[0] !in m[k] {
      NoComma(m[k]);
    }
    SplitJoin(m, ", ");
  }

  lemma NoComma(m: string)
    requires m in [DefMarker, ReturnMarker, ConciseMarker]
    ensures ',' !in m
  {
    if m == DefMarker {
      assert forall k :: 0 <= k < |DefMarker| ==> DefMarker[k] != ',';
    } else if m == ReturnMarker {
      assert forall k :: 0 <= k < |ReturnMarker| ==> ReturnMarker[k] != ',';
    } else {
      assert forall k :: 0 <= k < |ConciseMarker| ==> ConciseMarker[k] != ',';
    }
  }

  // ---------------------------------------------------------------------------
  // process_task

  function Header(task: string): string {
    "Processing task: " + task + "\n"
  }

  /** The listing line of one context entry. */
  function Line(entry: (string, string)): string {
    "- " + entry.0 + ": " + entry.1 + "\n"
  }

  /** The listing lines of the entries, in order. */
  function Lines(context: Context): (r: seq<string>)
    ensures |r| == |context| && forall k :: 0 <= k < |context| ==> r[k] == Line(context[k])
  {
    seq(|context|, k requires 0 <= k < |context| => Line(context[k]))
  }

  /** The listing: every entry's line, in order. */
  function Listing(context: Context): (r: string)
    ensures |context| == 0 <==> r == ""
  {
    LinesNonEmpty(Lines(context));
    Concat(Lines(context))
  }

  /** The texts one after the other. */
  function Concat(parts: seq<string>): string
    decreases |parts|
  {
    if |parts| == 0 then "" else parts[0] + Concat(parts[1..])
  }

  /** The value of the first entry with the given key. */
  function Lookup(context: Context, key: string): (r: Option<string>)
    ensures r.None? <==> forall k :: 0 <= k < |context| ==> context[k].0 != key
    ensures r.Some? ==> exists k :: 0 <= k < |context| && context[k] == (key, r.value)
    decreases |context|
  {
    if |context| == 0 then None
    else if context[0].0 == key then Some(context[0].1)
    else
      var r := Lookup(context[1..], key);
      assert forall k :: 1 <= k < |context| ==> context[k] == context[1..][k - 1];
      r
  }

  const ContextHeading := "Context analysis:\n"
  const AnalysisHeading := "\nTask analysis:\n"

  /** The code-analysis line, when the context has code. */
  function CodeLine(context: Context): (r: string)
    ensures r == "" <==> Lookup(context, "code").None?
  {
    match Lookup(context, "code")
    case None => ""
    case Some(code) => "- Code analysis: " + AnalyzeCode(code) + "\n"
  }

  /** The context section: a heading and the listing, for a non-empty context only. */
  function Section(context: Context): string {
    if |context| > 0 then ContextHeading + Listing(context) else ""
  }

  /** Everything after the header. */
  function Body(context: Context): string {
    Section(context) + AnalysisHeading + CodeLine(context)
  }

  /**
   * `process_task`: the header naming the task; the context section, only
   * for a non-empty context; the task-analysis heading; and the code
   * analysis, only when the context has code.
   */
  function ProcessTask(task: string, context: Context): (r: string)
    ensures |r| > |Header(task)|
  {
    Header(task) + Body(context)
  }

  // ---------------------------------------------------------------------------
  // Properties of the response

  lemma {:induction false} LinesNonEmpty(parts: seq<string>)
    requires forall k :: 0 <= k < |parts| ==> |parts[k]| > 0
    ensures Concat(parts) == "" <==> |parts| == 0
  {
    if |parts| > 0 {
      assert |Concat(parts)| >= |parts[0]|;
    }
  }

  lemma {:induction false} ConcatAppend(a: seq<string>, b: seq<string>)
    ensures Concat(a + b) == Concat(a) + Concat(b)
    decreases |a|
  {
    if |a| == 0 {
      assert a + b == b;
    } else {
      assert (a + b)[1..] == a[1..] + b;
      ConcatAppend(a[1..], b);
    }
  }

  /** Every entry is listed, after the entries before it: the listing starts with those lines and then its own. */
  lemma EntryListedInOrder(context: Context, j: nat)
    requires j < |context|
    ensures StartsWith(Listing(context), Listing(context[..j]) + Line(context[j]))
  {
    var all := Lines(context);
    var pre := Lines(context[..j]);
    var tail := Lines(context[j + 1..]);
    assert all == pre + [Line(context[j])] + tail;
    ConcatAppend(pre + [Line(context[j])], tail);
    ConcatAppend(pre, [Line(context[j])]);
    assert Concat([Line(context[j])]) == Line(context[j]) by {
      assert [Line(context[j])][1..] == [];
    }
    PrefixOfConcat(Concat(pre) + Line(context[j]), Concat(tail));
  }

  /** The response starts with the header naming the task, and the body follows it. */
  lemma HeaderFirst(task: string, context: Context)
    ensures StartsWith(ProcessTask(task, context), Header(task))
    ensures ProcessTask(task, context)[|Header(task)|..] == Body(context)
  {
    PrefixOfConcat(Header(task), Body(context));
    DropPrefix(Header(task), Body(context));
  }

  /**
   * After the header comes the context section exactly when the context
   * is non-empty, holding the listing; otherwise the task-analysis heading
   * follows at once.
   */
  lemma ContextSectionIffEntries(task: string, context: Context)
    ensures var rest := ProcessTask(task, context)[|Header(task)|..];
      && (|context| > 0 <==> StartsWith(rest, ContextHeading))
      && (|context| > 0 ==> StartsWith(rest[|ContextHeading|..], Listing(context)))
      && (|context| == 0 ==> StartsWith(rest, AnalysisHeading))
  {
    HeaderFirst(task, context);
    var tail := AnalysisHeading + CodeLine(context);
    Regroup(Section(context), AnalysisHeading, CodeLine(context));
    assert Body(context) == Section(context) + tail;
    if |context| > 0 {
      var listed := Listing(context) + tail;
      Regroup(ContextHeading, Listing(context), tail);
      PrefixOfConcat(ContextHeading, listed);
      DropPrefix(ContextHeading, listed);
      PrefixOfConcat(Listing(context), tail);
    } else {
      assert Body(context) == tail;
      PrefixOfConcat(AnalysisHeading, CodeLine(context));
      assert tail[0] == '\n';
      assert ContextHeading[0] == 'C';
    }
  }

  /**
   * The response ends with the code analysis when the context has code,
   * and with the task-analysis heading when it has none.
   */
  lemma CodeAnalysisIffCode(task: string, context: Context)
    ensures Lookup(context, "code").Some? ==>
      EndsWith(ProcessTask(task, context), "- Code analysis: " + AnalyzeCode(Lookup(context, "code").value) + "\n")
    ensures Lookup(context, "code").None? ==> EndsWith(ProcessTask(task, context), AnalysisHeading)
  {
    var front := Header(task) + Section(context);
    Regroup(Header(task), Section(context) + AnalysisHeading, CodeLine(context));
    Regroup(Header(task), Section(context), AnalysisHeading);
    assert ProcessTask(task, context) == front + AnalysisHeading + CodeLine(context);
    SuffixOfConcat(front + AnalysisHeading, CodeLine(context));
    if Lookup(context, "code").None? {
      assert ProcessTask(task, context) == front + AnalysisHeading;
      SuffixOfConcat(front, AnalysisHeading);
    }
  }

}
