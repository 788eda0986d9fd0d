/**
 * `_generate_final_result`: the markdown summary written once every subtask
 * has completed. Each subtask contributes a heading and its result, long
 * results being cut at their first section break or at 500 characters.
 */
module Summary {
  import opened Wrappers
  import opened Strings
  import opened Models
  import Planner

  const Header := "# Task Execution Summary\n\n"
  const NoResults := "*No results provided*\n\n"
  const SectionBreak := "\n##"
  const Limit := 500

  /** `f"*...plus {k} more sections...*\n\n"` */
  function SectionNote(k: nat): string {
    "*...plus " + NatText(k) + " more sections...*\n\n"
  }

  /** `f"## {kind.replace('_', ' ').title()}\n\n"` */
  function Heading(kind: string): (r: string)
    ensures StartsWith(r, "## ") && EndsWith(r, "\n\n")
  {
    "## " + Planner.DisplayName(kind) + "\n\n"
  }

  /**
   * What a non-empty result contributes: itself when it is at most 500
   * characters long; otherwise its first section and a count of the others
   * when it holds a section break, or else its first 500 characters and an
   * ellipsis.
   */
  function Condense(result: string): (r: string)
    ensures |result| <= Limit ==> r == result + "\n\n"
    ensures |result| > Limit && !Contains(result, SectionBreak) ==>
      r == result[..Limit] + "...\n\n" && |r| == Limit + 5
    ensures |result| > Limit && Contains(result, SectionBreak) ==>
      var cut := Find(result, SectionBreak).value;
      r == result[..cut] + "\n\n" + SectionNote(|Split(result, SectionBreak)| - 1)
  {
    if |result| > Limit then
      var sections := Split(result, SectionBreak);
      if |sections| > 1 then
        SplitFirst(result, SectionBreak);
        sections[0] + "\n\n" + SectionNote(|sections| - 1)
      else
        result[..Limit] + "...\n\n"
    else
      result + "\n\n"
  }

  /** The text kept from a result is always a prefix of it. */
  lemma CondenseKeepsPrefix(result: string)
    ensures exists n :: 0 <= n <= |result| && StartsWith(Condense(result), result[..n])
                        && (n < |result| ==> |result| > Limit)
  {
    if |result| <= Limit {
      assert result[..|result|] == result;
      assert StartsWith(Condense(result), result[..|result|]);
    } else if Contains(result, SectionBreak) {
      var cut := Find(result, SectionBreak).value;
      assert StartsWith(Condense(result), result[..cut]);
    } else {
      assert StartsWith(Condense(result), result[..Limit]);
    }
  }

  /**
   * The first section is kept whole however long it is: a long result made
   * of sections without line breaks keeps its first section and counts the
   * others.
   */
  lemma CondenseSections(parts: seq<string>)
    requires |parts| >= 2
    requires forall i :: 0 <= i < |parts| ==> '\n' !in parts[i]
    requires |Join(parts, SectionBreak)| > Limit
    ensures Condense(Join(parts, SectionBreak)) == parts[0] + "\n\n" + SectionNote(|parts| - 1)
  {
    SplitJoin(parts, SectionBreak);
  }

  /** One section break after a first section of any length. */
  lemma LongFirstSectionKept(first: string, rest: string)
    requires '\n' !in first && '\n' !in rest
    requires |first| > Limit
    ensures Condense(first + SectionBreak + rest) == first + "\n\n" + SectionNote(1)
    ensures |Condense(first + SectionBreak + rest)| > Limit + 5
  {
    assert Join([first, rest], SectionBreak) == first + SectionBreak + rest;
    CondenseSections([first, rest]);
  }

  /** What one subtask contributes: its heading, then its condensed result or a placeholder. */
  function Block(s: Subtask): (r: string)
    ensures StartsWith(r, Heading(s.kind))
    ensures s.result.None? || s.result.value == "" ==> r == Heading(s.kind) + NoResults
    ensures s.result.Some? && s.result.value != "" ==> r == Heading(s.kind) + Condense(s.result.value)
  {
    Heading(s.kind) + (if s.result.Some? && s.result.value != "" then Condense(s.result.value) else NoResults)
  }

  /** The blocks of the given subtasks, in order. */
  function Blocks(subs: seq<Subtask>): (r: string)
    decreases |subs|
  {
    if |subs| == 0 then "" else Block(subs[0]) + Blocks(subs[1..])
  }

  lemma {:induction false} BlocksAppend(subs: seq<Subtask>, s: Subtask)
    ensures Blocks(subs + [s]) == Blocks(subs) + Block(s)
    decreases |subs|
  {
    if |subs| == 0 {
      assert Blocks([s]) == Block(s) + Blocks([]);
    } else {
      assert (subs + [s])[1..] == subs[1..] + [s];
      BlocksAppend(subs[1..], s);
    }
  }

  /** The summary as a whole: the header, then one block per subtask. */
  function FinalResult(subs: seq<Subtask>): (r: string)
    ensures StartsWith(r, Header)
    ensures |subs| == 0 ==> r == Header
  {
    Header + Blocks(subs)
  }

  /**
   * The summary in the shape of the source loop, appending block after
   * block; it builds exactly the text `FinalResult` describes.
   */
  method GenerateFinalResult(subs: seq<Subtask>) returns (result: string)
    ensures result == FinalResult(subs)
  {
    result := Header;
    var i := 0;
    while i < |subs|
      invariant 0 <= i <= |subs|
      invariant result == Header + Blocks(subs[..i])
    {
      AppendBlock(Header, subs, i);
      result := result + Block(subs[i]);
      i := i + 1;
    }
    assert subs[..i] == subs;
  }

  lemma AppendBlock(h: string, subs: seq<Subtask>, i: nat)
    requires i < |subs|
    ensures h + Blocks(subs[..i]) + Block(subs[i]) == h + Blocks(subs[..i + 1])
  {
    assert subs[..i + 1] == subs[..i] + [subs[i]];
    BlocksAppend(subs[..i], subs[i]);
    Regroup(h, Blocks(subs[..i]), Block(subs[i]));
  }

  /** Each subtask's block follows those of the subtasks before it. */
  lemma BlockPositions(subs: seq<Subtask>, i: nat)
    requires i < |subs|
    ensures var before := Header + Blocks(subs[..i]);
      |before| <= |FinalResult(subs)|
      && StartsWith(FinalResult(subs), before)
      && StartsWith(FinalResult(subs)[|before|..], Block(subs[i]))
  {
    BlockAt(Header, subs, i);
  }

  lemma BlockAt(h: string, subs: seq<Subtask>, i: nat)
    requires i < |subs|
    ensures var before := h + Blocks(subs[..i]);
      var all := h + Blocks(subs);
      |before| <= |all| && StartsWith(all, before) && StartsWith(all[|before|..], Block(subs[i]))
  {
    BlocksSplit(subs, i);
    PiecesInPlace(h, Blocks(subs), Blocks(subs[..i]), Block(subs[i]), Blocks(subs[i + 1..]));
  }

  lemma PiecesInPlace(h: string, all: string, a: string, b: string, c: string)
    requires all == a + b + c
    ensures |h + a| <= |h + all|
    ensures StartsWith(h + all, h + a) && StartsWith((h + all)[|h + a|..], b)
  {
    assert h + all == (h + a) + (b + c);
    assert (h + all)[..|h + a|] == h + a;
    assert (h + all)[|h + a|..] == b + c;
  }

  lemma BlocksSplit(subs: seq<Subtask>, i: nat)
    requires i < |subs|
    ensures Blocks(subs) == Blocks(subs[..i]) + Block(subs[i]) + Blocks(subs[i + 1..])
  {
    var x := subs[i];
    assert subs == subs[..i] + ([x] + subs[i + 1..]);
    BlocksConcat(subs[..i], [x] + subs[i + 1..]);
    BlocksConcat([x], subs[i + 1..]);
    assert Blocks([x]) == Block(x) by {
      assert [x][1..] == [];
    }
    Regroup(Blocks(subs[..i]), Block(x), Blocks(subs[i + 1..]));
  }

  lemma {:induction false} BlocksConcat(a: seq<Subtask>, b: seq<Subtask>)
    ensures Blocks(a + b) == Blocks(a) + Blocks(b)
    decreases |a|
  {
    if |a| == 0 {
      assert a + b == b;
    } else {
      assert (a + b)[1..] == a[1..] + b;
      BlocksConcat(a[1..], b);
      Regroup(Block(a[0]), Blocks(a[1..]), Blocks(b));
    }
  }
}
