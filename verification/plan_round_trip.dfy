/**
 * The planner writes its plan as markdown and the orchestrator reads the
 * subtask types and dependencies back out of that text. This module proves
 * that, for plans whose types and descriptions the format can carry, the
 * reading recovers exactly the listed types in their listed order and the
 * non-empty dependency lists.
 */
module PlanRoundTrip {
  import opened Wrappers
  import opened Strings
  import opened Planner
  import opened PlanParser

  // ---------------------------------------------------------------------------
  // What the format can carry

  /**
   * A subtask type that survives display and normalisation: lower-case
   * letters and underscores, starting and ending with a letter, and not
   * `none` (whose display name is the marker for "no dependencies").
   */
  predicate ValidType(k: string) {
    && |k| > 0 && IsLower(k[0]) && IsLower(k[|k| - 1]) && k != "none"
    && forall i :: 0 <= i < |k| ==> IsLower(k[i]) || k[i] == '_'
  }

  predicate WellFormedItem(it: PlanItem) {
    && ValidType(it.kind)
    && '\n' !in it.description && '*' !in it.description
    && forall d :: d in it.dependencies ==> ValidType(d)
  }

  predicate WellFormedPlan(p: Plan) {
    && '\n' !in p.complexity && '\n' !in p.estimatedTime
    && forall it :: it in p.items ==> WellFormedItem(it)
  }

  /** The dependency lists the parse should recover: in listing order, each item with a non-empty list sets its type's entry. */
  function ExpectedDependencies(m: map<string, seq<string>>, items: seq<PlanItem>): map<string, seq<string>>
    decreases |items|
  {
    if |items| == 0 then m
    else
      var it := items[0];
      ExpectedDependencies(if |it.dependencies| > 0 then m[it.kind := it.dependencies] else m, items[1..])
  }

  // ---------------------------------------------------------------------------
  // Display names

  predicate NameChar(c: char) { IsLetter(c) || c == ' ' }

  /** A displayed type is letters and spaces, starts and ends with a letter, and normalises back to the type, with or without a leading space. */
  lemma DisplayNameFacts(k: string)
    requires ValidType(k)
    ensures var n := DisplayName(k);
      && |n| == |k| && IsLetter(n[0]) && IsLetter(n[|n| - 1])
      && (forall i :: 0 <= i < |n| ==> NameChar(n[i]))
      && Normalize(n) == k && Normalize(" " + n) == k
  {
    DisplayNameShape(k);
    DisplayNameNormalizes(k);
  }

  lemma DisplayNameShape(k: string)
    requires ValidType(k)
    ensures var n := DisplayName(k);
      && |n| == |k| && IsLetter(n[0]) && IsLetter(n[|n| - 1])
      && (forall i :: 0 <= i < |n| ==> NameChar(n[i]))
  {
    var r := ReplaceChar(k, '_', ' ');
    var n := Title(r);
    forall i | 0 <= i < |n| ensures NameChar(n[i]) && (IsLower(k[i]) ==> IsLetter(n[i])) {
      assert r[i] == if k[i] == '_' then ' ' else k[i];
    }
  }

  lemma DisplayNameNormalizes(k: string)
    requires ValidType(k)
    ensures Normalize(DisplayName(k)) == k && Normalize(" " + DisplayName(k)) == k
  {
    var n := DisplayName(k);
    DisplayNameEnds(k);
    StripCore(n);
    LowerDisplayName(k);
    SpacesBack(k);
  }

  lemma DisplayNameEnds(k: string)
    requires ValidType(k)
    ensures var n := DisplayName(k); |n| > 0 && !IsSpace(n[0]) && !IsSpace(n[|n| - 1])
  {
    DisplayNameShape(k);
  }

  lemma SpacesBack(k: string)
    requires ValidType(k)
    ensures ReplaceChar(ReplaceChar(k, '_', ' '), ' ', '_') == k
  {
    assert forall i :: 0 <= i < |k| ==> k[i] != ' ';
    ReplaceCharBack(k, '_', ' ');
  }

  lemma LowerDisplayName(k: string)
    requires ValidType(k)
    ensures Lower(DisplayName(k)) == ReplaceChar(k, '_', ' ')
  {
    var r := ReplaceChar(k, '_', ' ');
    assert forall i :: 0 <= i < |r| ==> !IsUpper(r[i]);
    LowerOfTitle(r);
    LowerOfLower(r);
  }

  /** Text that neither starts nor ends with whitespace strips to itself, also after one leading space. */
  lemma StripCore(n: string)
    requires |n| > 0 && !IsSpace(n[0]) && !IsSpace(n[|n| - 1])
    ensures Strip(n) == n && Strip(" " + n) == n
  {
    assert "" + n + "" == n;
    StripByExact("", n, "", IsSpace);
    assert " " + n + "" == " " + n;
    StripByExact(" ", n, "", IsSpace);
  }

  // ---------------------------------------------------------------------------
  // Joining

  lemma {:induction false} JoinExcludes(parts: seq<string>, sep: string, c: char)
    requires c !in sep && forall i :: 0 <= i < |parts| ==> c !in parts[i]
    ensures c !in Join(parts, sep)
    decreases |parts|
  {
    if |parts| > 1 {
      JoinExcludes(parts[1..], sep, c);
    }
  }

  lemma {:induction false} JoinEnds(parts: seq<string>, sep: string)
    requires |parts| >= 1 && forall i :: 0 <= i < |parts| ==> |parts[i]| > 0
    ensures var j := Join(parts, sep);
      |j| > 0 && j[0] == parts[0][0] && j[|j| - 1] == parts[|parts| - 1][|parts[|parts| - 1]| - 1]
    decreases |parts|
  {
    if |parts| > 1 {
      JoinEnds(parts[1..], sep);
    }
  }

  function Spaced(names: seq<string>): (r: seq<string>)
    ensures |r| == |names| && forall i :: 0 <= i < |names| ==> r[i] == " " + names[i]
  {
    seq(|names|, i requires 0 <= i < |names| => " " + names[i])
  }

  lemma {:induction false} SpacedJoin(names: seq<string>)
    requires |names| >= 1
    ensures " " + Join(names, ", ") == Join(Spaced(names), ",")
    decreases |names|
  {
    if |names| > 1 {
      SpacedJoin(names[1..]);
      assert Spaced(names)[1..] == Spaced(names[1..]);
      assert " " + (names[0] + ", " + Join(names[1..], ", "))
          == (" " + names[0]) + "," + (" " + Join(names[1..], ", "));
    }
  }

  lemma JoinCons(first: string, rest: seq<string>, sep: string)
    requires |rest| >= 1
    ensures Join([first] + rest, sep) == first + sep + Join(rest, sep)
  {
    assert ([first] + rest)[1..] == rest;
  }

  lemma CommaSpace(a: string, b: string)
    ensures a + ", " + b == a + "," + (" " + b)
  {
  }

  /** `", ".join(names).split(",")` leaves a space in front of every name but the first. */
  lemma CommaPieces(names: seq<string>)
    requires |names| >= 1
    ensures Join(names, ", ") == Join([names[0]] + Spaced(names[1..]), ",")
  {
    if |names| > 1 {
      var rest := Join(names[1..], ", ");
      calc {
        Join(names, ", ");
        names[0] + ", " + rest;
        { CommaSpace(names[0], rest); }
        names[0] + "," + (" " + rest);
        { SpacedJoin(names[1..]); }
        names[0] + "," + Join(Spaced(names[1..]), ",");
        { JoinCons(names[0], Spaced(names[1..]), ","); }
        Join([names[0]] + Spaced(names[1..]), ",");
      }
    } else {
      assert [names[0]] + Spaced(names[1..]) == [names[0]];
    }
  }

  /** Terminating every line with a newline is joining them with one and a final empty line. */
  lemma {:induction false} UnlinesJoin(lines: seq<string>)
    ensures Unlines(lines) == Join(lines + [""], "\n")
    decreases |lines|
  {
    if |lines| > 0 {
      UnlinesJoin(lines[1..]);
      assert (lines + [""])[1..] == lines[1..] + [""];
    }
  }

  // ---------------------------------------------------------------------------
  // One line at a time

  /** Digits (and a sign) that a heading numbers its item with. */
  predicate Numeral(num: string) {
    |num| > 0 && forall i :: 0 <= i < |num| ==> IsDigit(num[i]) || num[i] == '-'
  }

  /** A display name: letters and spaces, starting and ending with a letter. */
  predicate Name(name: string) {
    && |name| > 0 && IsLetter(name[0]) && IsLetter(name[|name| - 1])
    && forall i :: 0 <= i < |name| ==> NameChar(name[i])
  }

  lemma HeadingStrip(num: string, name: string)
    requires Numeral(num) && Name(name)
    ensures StripBy("### " + num + ". " + name, IsHashOrSpace) == num + ". " + name
  {
    var core := num + ". " + name;
    assert "### " + num + ". " + name == "### " + core + "";
    assert !IsHashOrSpace(core[0]) && !IsHashOrSpace(core[|core| - 1]);
    StripByExact("### ", core, "", IsHashOrSpace);
  }

  lemma HeadingSplit(num: string, name: string)
    requires Numeral(num) && Name(name)
    ensures Split(num + ". " + name, ".") == [num, " " + name]
  {
    assert num + ". " + name == Join([num, " " + name], ".");
    assert '.' !in num && '.' !in " " + name;
    SplitJoin([num, " " + name], ".");
  }

  lemma HeadingLineParse(st: Parsed, num: string, name: string)
    requires Numeral(num) && Name(name)
    ensures ParseLine(st, "### " + num + ". " + name) == st.(types := st.types + [Normalize(" " + name)])
  {
    var line := "### " + num + ". " + name;
    assert line[..4] == "### ";
    HeadingStrip(num, name);
    HeadingSplit(num, name);
  }

  lemma HeadingParse(st: Parsed, n: int, kind: string)
    requires ValidType(kind)
    ensures ParseLine(st, "### " + IntText(n) + ". " + DisplayName(kind)) == st.(types := st.types + [kind])
  {
    DisplayNameShape(kind);
    DisplayNameNormalizes(kind);
    HeadingLineParse(st, IntText(n), DisplayName(kind));
  }

  lemma DescriptionParse(st: Parsed, d: string)
    requires '*' !in d
    ensures ParseLine(st, "- **Description**: " + d) == st
  {
    var a := "- **Description**: ";
    var line := a + d;
    assert !StartsWith(line, "### ") by { assert line[..4][0] == '-'; }
    NotContainsMissingChar(a, DependenciesMarker, 'd');
    NotContainsConcat(a, d, DependenciesMarker);
  }

  lemma PriorityParse(st: Parsed, p: int)
    ensures ParseLine(st, "- **Priority**: " + IntText(p)) == st
  {
    var line := "- **Priority**: " + IntText(p);
    assert !StartsWith(line, "### ") by { assert line[..4][0] == '-'; }
    assert 'D' !in line;
    NotContainsMissingChar(line, DependenciesMarker, 'D');
  }

  lemma EmptyParse(st: Parsed)
    ensures ParseLine(st, "") == st
  {
    assert !Contains("", DependenciesMarker);
  }

  /** A dependencies line with any tail free of `*`: the stripped tail decides. */
  lemma DependenciesLineParse(st: Parsed, tail: string)
    requires '*' !in tail && |st.types| > 0
    ensures var part := Strip(" " + tail);
      ParseLine(st, "- **Dependencies**: " + tail) ==
        if part != "None" then st.(dependencies := st.dependencies[st.types[|st.types| - 1] := NormalizeAll(Split(part, ","))])
        else st
  {
    var line := "- **Dependencies**: " + tail;
    SplitAtMarker(tail);
    assert !StartsWith(line, "### ") by { assert line[..4][0] == '-'; }
  }

  lemma SplitAtMarker(tail: string)
    requires '*' !in tail
    ensures Contains("- **Dependencies**: " + tail, DependenciesMarker)
    ensures Split("- **Dependencies**: " + tail, DependenciesMarker) == ["- ", " " + tail]
  {
    var parts := ["- ", " " + tail];
    assert "- **Dependencies**: " + tail == Join(parts, DependenciesMarker);
    SplitJoin(parts, DependenciesMarker);
  }

  lemma StripNone(none: string)
    requires none == "None"
    ensures Strip(" " + none) == none
  {
    assert " " + none == " " + none + "";
    StripByExact(" ", none, "", IsSpace);
  }

  lemma NoneParse(st: Parsed, line: string)
    requires |st.types| > 0 && line == DependenciesLine([])
    ensures ParseLine(st, line) == st
  {
    var none := "None";
    assert line == "- **Dependencies**: " + none;
    DependenciesLineParse(st, none);
    StripNone(none);
  }

  /** The names of valid types, as the dependencies line lists them. */
  lemma NamesShape(deps: seq<string>)
    requires forall d :: d in deps ==> ValidType(d)
    ensures forall i :: 0 <= i < |deps| ==> Name(DisplayNames(deps)[i])
  {
    forall i | 0 <= i < |deps| ensures Name(DisplayNames(deps)[i]) {
      assert deps[i] in deps;
      DisplayNameShape(deps[i]);
    }
  }

  lemma NamesNormalize(deps: seq<string>)
    requires forall d :: d in deps ==> ValidType(d)
    ensures var names := DisplayNames(deps);
      forall i :: 0 <= i < |deps| ==> Normalize(names[i]) == deps[i] && Normalize(" " + names[i]) == deps[i]
  {
    var names := DisplayNames(deps);
    forall i | 0 <= i < |deps| ensures Normalize(names[i]) == deps[i] && Normalize(" " + names[i]) == deps[i] {
      assert deps[i] in deps;
      DisplayNameNormalizes(deps[i]);
    }
  }

  /** The joined names keep no `*`, strip to themselves, and split on commas back into the types. */
  lemma JoinedNamesFacts(deps: seq<string>)
    requires |deps| > 0 && forall d :: d in deps ==> ValidType(d)
    ensures var joined := Join(DisplayNames(deps), ", ");
      && '*' !in joined
      && Strip(" " + joined) == joined
      && NormalizeAll(Split(joined, ",")) == deps
  {
    var names := DisplayNames(deps);
    NamesShape(deps);
    JoinedNamesShape(names);
    StripCore(Join(names, ", "));
    SplitNames(deps);
  }

  lemma JoinedNamesShape(names: seq<string>)
    requires |names| > 0 && forall i :: 0 <= i < |names| ==> Name(names[i])
    ensures var joined := Join(names, ", ");
      '*' !in joined && |joined| > 0 && !IsSpace(joined[0]) && !IsSpace(joined[|joined| - 1])
  {
    JoinExcludes(names, ", ", '*');
    JoinEnds(names, ", ");
  }

  function Pieces(names: seq<string>): seq<string>
    requires |names| > 0
  {
    [names[0]] + Spaced(names[1..])
  }

  lemma PiecesNoComma(names: seq<string>)
    requires |names| > 0 && forall i :: 0 <= i < |names| ==> Name(names[i])
    ensures forall i :: 0 <= i < |Pieces(names)| ==> ',' !in Pieces(names)[i]
  {
    var pieces := Pieces(names);
    forall i | 0 <= i < |pieces| ensures ',' !in pieces[i] {
      if i > 0 { assert pieces[i] == " " + names[i]; }
    }
  }

  lemma PiecesNormalize(names: seq<string>, deps: seq<string>)
    requires |names| == |deps| > 0
    requires forall i :: 0 <= i < |names| ==> Normalize(names[i]) == deps[i] && Normalize(" " + names[i]) == deps[i]
    ensures NormalizeAll(Pieces(names)) == deps
  {
    var pieces := Pieces(names);
    forall i | 0 <= i < |pieces| ensures Normalize(pieces[i]) == deps[i] {
      if i > 0 { assert pieces[i] == " " + names[i]; }
    }
  }

  lemma SplitNames(deps: seq<string>)
    requires |deps| > 0 && forall d :: d in deps ==> ValidType(d)
    ensures NormalizeAll(Split(Join(DisplayNames(deps), ", "), ",")) == deps
  {
    var names := DisplayNames(deps);
    NamesShape(deps);
    NamesNormalize(deps);
    CommaPieces(names);
    PiecesNoComma(names);
    PiecesNormalize(names, deps);
    SplitJoin(Pieces(names), ",");
  }

  /** The listed names never read as `None`: that would take the single type `none`. */
  lemma JoinedNotNone(deps: seq<string>)
    requires |deps| > 0 && forall d :: d in deps ==> ValidType(d)
    ensures Join(DisplayNames(deps), ", ") != "None"
  {
    SplitNames(deps);
    NoneNormalizes("None");
    assert deps != ["none"] by { assert deps[0] in deps; }
  }

  lemma NoneNormalizes(none: string)
    requires none == "None"
    ensures NormalizeAll(Split(none, ",")) == ["none"]
  {
    NoSeparatorNoSplit(none, ",");
    StripCore(none);
    assert Lower(none) == "none";
    assert Normalize(none) == "none";
  }

  lemma DependenciesParse(st: Parsed, deps: seq<string>)
    requires |st.types| > 0 && |deps| > 0
    requires forall d :: d in deps ==> ValidType(d)
    ensures ParseLine(st, DependenciesLine(deps)) == st.(dependencies := st.dependencies[st.types[|st.types| - 1] := deps])
  {
    var joined := Join(DisplayNames(deps), ", ");
    JoinedNamesFacts(deps);
    JoinedNotNone(deps);
    DependenciesLineParse(st, joined);
  }

  // ---------------------------------------------------------------------------
  // Whole items and the whole plan

  lemma {:induction false} ParseLinesConcat(a: seq<string>, b: seq<string>, st: Parsed)
    ensures ParseLines(a + b, st) == ParseLines(b, ParseLines(a, st))
    decreases |a|
  {
    if |a| > 0 {
      assert (a + b)[0] == a[0];
      assert (a + b)[1..] == a[1..] + b;
      ParseLinesConcat(a[1..], b, ParseLine(st, a[0]));
    } else {
      assert a + b == b;
    }
  }

  lemma ParseOneLine(line: string, st: Parsed)
    ensures ParseLines([line], st) == ParseLine(st, line)
  {
    assert [line][1..] == [];
  }

  /** The state after one item: its type is appended and a non-empty dependency list is recorded under it. */
  function AfterItem(st: Parsed, it: PlanItem): Parsed {
    Parsed(st.types + [it.kind],
           if |it.dependencies| > 0 then st.dependencies[it.kind := it.dependencies] else st.dependencies)
  }

  lemma ItemParse(st: Parsed, n: nat, it: PlanItem)
    requires WellFormedItem(it)
    ensures ParseLines(ItemLines(n, it), st) == AfterItem(st, it)
  {
    ItemHeadParse(st, n, it);
    ItemTailParse(st, n, it);
  }

  /** The heading and the description: the type is appended. */
  lemma ItemHeadParse(st: Parsed, n: nat, it: PlanItem)
    requires WellFormedItem(it)
    ensures ParseLines(ItemLines(n, it), st) == ParseLines(ItemLines(n, it)[2..], st.(types := st.types + [it.kind]))
  {
    var lines := ItemLines(n, it);
    var s1 := st.(types := st.types + [it.kind]);
    assert ParseLine(st, lines[0]) == s1 by { HeadingParse(st, n, it.kind); }
    assert ParseLine(s1, lines[1]) == s1 by { DescriptionParse(s1, it.description); }
    assert lines[0..] == lines;
    ParseStep(lines, 0, st, s1);
    ParseStep(lines, 1, s1, s1);
  }

  /** The dependencies, the priority and the blank line: the dependencies are recorded. */
  lemma ItemTailParse(st: Parsed, n: nat, it: PlanItem)
    requires WellFormedItem(it)
    ensures ParseLines(ItemLines(n, it)[2..], st.(types := st.types + [it.kind])) == AfterItem(st, it)
  {
    var lines := ItemLines(n, it);
    var s1 := st.(types := st.types + [it.kind]);
    var s3 := AfterItem(st, it);
    assert ParseLine(s1, lines[2]) == s3 by {
      if |it.dependencies| > 0 {
        DependenciesParse(s1, it.dependencies);
      } else {
        NoneParse(s1, lines[2]);
      }
    }
    assert ParseLine(s3, lines[3]) == s3 by { PriorityParse(s3, it.priority); }
    assert ParseLine(s3, lines[4]) == s3 by { EmptyParse(s3); }
    ParseStep(lines, 2, s1, s3);
    ParseStep(lines, 3, s3, s3);
    ParseStep(lines, 4, s3, s3);
    assert lines[5..] == [];
  }

  /** Parsing from line `i` on is parsing line `i` and then the rest. */
  lemma ParseStep(lines: seq<string>, i: nat, st: Parsed, mid: Parsed)
    requires i < |lines| && ParseLine(st, lines[i]) == mid
    ensures ParseLines(lines[i..], st) == ParseLines(lines[i + 1..], mid)
  {
    assert lines[i..][0] == lines[i];
    assert lines[i..][1..] == lines[i + 1..];
  }

  lemma {:induction false} ItemsParse(items: seq<PlanItem>, first: nat, st: Parsed)
    requires forall it :: it in items ==> WellFormedItem(it)
    ensures ParseLines(ItemsLines(items, first), st)
         == Parsed(st.types + Kinds(items), ExpectedDependencies(st.dependencies, items))
    decreases |items|
  {
    if |items| > 0 {
      var next := AfterItem(st, items[0]);
      var fin := Parsed(st.types + Kinds(items), ExpectedDependencies(st.dependencies, items));
      ItemParse(st, first, items[0]);
      assert forall it :: it in items[1..] ==> it in items;
      ItemsParse(items[1..], first + 1, next);
      AfterItemThenRest(st, items);
      ChainParse(ItemLines(first, items[0]), ItemsLines(items[1..], first + 1), st, next, fin);
    } else {
      assert st.types + Kinds(items) == st.types;
    }
  }

  lemma ChainParse(a: seq<string>, b: seq<string>, st: Parsed, mid: Parsed, fin: Parsed)
    requires ParseLines(a, st) == mid && ParseLines(b, mid) == fin
    ensures ParseLines(a + b, st) == fin
  {
    ParseLinesConcat(a, b, st);
  }

  lemma AfterItemThenRest(st: Parsed, items: seq<PlanItem>)
    requires |items| > 0
    ensures var next := AfterItem(st, items[0]);
      Parsed(next.types + Kinds(items[1..]), ExpectedDependencies(next.dependencies, items[1..]))
        == Parsed(st.types + Kinds(items), ExpectedDependencies(st.dependencies, items))
  {
    var next := AfterItem(st, items[0]);
    KindsCons(items);
    AppendAssoc(st.types, [items[0].kind], Kinds(items[1..]));
    ExpectedDependenciesCons(st.dependencies, items);
  }

  lemma AppendAssoc(a: seq<string>, b: seq<string>, c: seq<string>)
    ensures (a + b) + c == a + (b + c)
  {
  }

  lemma ExpectedDependenciesCons(m: map<string, seq<string>>, items: seq<PlanItem>)
    requires |items| > 0
    ensures ExpectedDependencies(m, items) == ExpectedDependencies(AfterItem(Parsed([], m), items[0]).dependencies, items[1..])
  {
  }

  lemma KindsCons(items: seq<PlanItem>)
    requires |items| > 0
    ensures Kinds(items) == [items[0].kind] + Kinds(items[1..])
  {
  }

  /** Before the first heading no line can record anything. */
  lemma {:induction false} NoHeadings(lines: seq<string>, m: map<string, seq<string>>)
    requires forall i :: 0 <= i < |lines| ==> !StartsWith(lines[i], "### ")
    ensures ParseLines(lines, Parsed([], m)) == Parsed([], m)
    decreases |lines|
  {
    if |lines| > 0 {
      NoHeadings(lines[1..], m);
    }
  }

  lemma HeaderParse(p: Plan)
    ensures ParseLines(HeaderLines(p), Parsed([], map[])) == Parsed([], map[])
  {
    var lines := HeaderLines(p);
    forall i | 0 <= i < |lines| ensures !StartsWith(lines[i], "### ") {
      if |lines[i]| >= 4 {
        assert lines[i][..4][1] == ' ' || lines[i][..4][0] == '*' || lines[i][..4][2] == ' ';
      }
    }
    NoHeadings(lines, map[]);
  }

  lemma {:induction false} ItemsLinesPlain(items: seq<PlanItem>, first: nat)
    requires forall it :: it in items ==> WellFormedItem(it)
    ensures forall i :: 0 <= i < |ItemsLines(items, first)| ==> '\n' !in ItemsLines(items, first)[i]
    decreases |items|
  {
    if |items| > 0 {
      var it := items[0];
      assert forall it :: it in items[1..] ==> it in items;
      ItemsLinesPlain(items[1..], first + 1);
      ItemLinesPlain(first, it);
      var here := ItemLines(first, it);
      forall i | 0 <= i < |here| ensures '\n' !in here[i] {
        assert here[i] in here;
      }
    }
  }

  lemma ItemLinesPlain(n: nat, it: PlanItem)
    requires WellFormedItem(it)
    ensures forall line :: line in ItemLines(n, it) ==> '\n' !in line
  {
    var name := DisplayName(it.kind);
    DisplayNameShape(it.kind);
    assert '\n' !in name;
    var num := IntText(n);
    assert '\n' !in num;
    assert '\n' !in "### " + num + ". " + name;
    assert '\n' !in "- **Description**: " + it.description;
    DependenciesLinePlain(it.dependencies);
    assert '\n' !in "- **Priority**: " + IntText(it.priority);
  }

  lemma NoneLinePlain(none: string)
    requires none == "None"
    ensures '\n' !in "- **Dependencies**: " + none
  {
  }

  lemma DependenciesLinePlain(deps: seq<string>)
    requires forall d :: d in deps ==> ValidType(d)
    ensures '\n' !in DependenciesLine(deps)
  {
    if |deps| > 0 {
      NamesShape(deps);
      JoinExcludes(DisplayNames(deps), ", ", '\n');
    } else {
      NoneLinePlain("None");
    }
  }

  /** Every item of the listing order is an item of the plan. */
  lemma OrderedWellFormed(p: Plan)
    requires WellFormedPlan(p)
    ensures forall it :: it in Ordered(p.items) ==> WellFormedItem(it)
  {
    assert forall it :: it in Ordered(p.items) ==> it in multiset(p.items);
  }

  lemma PlanLinesPlain(p: Plan)
    requires WellFormedPlan(p)
    ensures forall i :: 0 <= i < |PlanLines(p) + [""]| ==> "\n"[0] !in (PlanLines(p) + [""])[i]
  {
    var header := HeaderLines(p);
    var body := ItemsLines(Ordered(p.items), 1);
    var lines := header + body;
    OrderedWellFormed(p);
    ItemsLinesPlain(Ordered(p.items), 1);
    forall i | 0 <= i < |lines + [""]| ensures "\n"[0] !in (lines + [""])[i] {
      if i >= |header| && i < |lines| { assert lines[i] == body[i - |header|]; }
    }
  }

  /** The rendered text splits on newlines into exactly the plan's lines and one empty line after the last newline. */
  lemma PlanTextLines(p: Plan)
    requires WellFormedPlan(p)
    ensures Split(FormatPlan(p), "\n") == PlanLines(p) + [""]
  {
    PlanLinesPlain(p);
    UnlinesJoin(PlanLines(p));
    SplitJoin(PlanLines(p) + [""], "\n");
  }

  lemma PlanLinesParse(p: Plan)
    requires WellFormedPlan(p)
    ensures ParseLines(PlanLines(p) + [""], Parsed([], map[]))
         == Parsed(Kinds(Ordered(p.items)), ExpectedDependencies(map[], Ordered(p.items)))
  {
    var ordered := Ordered(p.items);
    var header := HeaderLines(p);
    var body := ItemsLines(ordered, 1);
    var empty := Parsed([], map[]);
    var parsed := Parsed(Kinds(ordered), ExpectedDependencies(map[], ordered));
    OrderedWellFormed(p);
    HeaderParse(p);
    ItemsParse(ordered, 1, empty);
    assert empty.types + Kinds(ordered) == Kinds(ordered);
    ChainParse(header, body, empty, empty, parsed);
    ParseOneLine("", parsed);
    EmptyParse(parsed);
    ChainParse(header + body, [""], empty, parsed, parsed);
  }

  /**
   * Reading a rendered plan back recovers the types in the order the plan
   * lists them (stably sorted by priority) and, for every listed item with a
   * non-empty dependency list, that list under its type.
   */
  lemma PlanRoundTrip(p: Plan)
    requires WellFormedPlan(p)
    ensures ParsePlanText(FormatPlan(p))
         == Parsed(Kinds(Ordered(p.items)), ExpectedDependencies(map[], Ordered(p.items)))
  {
    PlanTextLines(p);
    PlanLinesParse(p);
  }
}
