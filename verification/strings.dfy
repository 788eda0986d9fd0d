/**
 * The handful of Python `str` operations the system relies on, restricted to
 * ASCII: case mapping (`lower`, `title`), `replace` of one character,
 * substring search (`in`, `find`), `split`, `join`, `strip`, whitespace
 * tokenising (`split()` with no argument), `str(int)`, and the code-point
 * order Python uses to compare strings.
 */
module Strings {
  import opened Wrappers

  // ---------------------------------------------------------------------------
  // Characters

  predicate IsUpper(c: char) { 'A' <= c <= 'Z' }
  predicate IsLower(c: char) { 'a' <= c <= 'z' }
  predicate IsLetter(c: char) { IsUpper(c) || IsLower(c) }
  predicate IsDigit(c: char) { '0' <= c <= '9' }

  /** Python's `str.isspace` on the ASCII range: space, \t \n \v \f \r and \x1c-\x1f. */
  predicate IsSpace(c: char) {
    c == ' ' || 9 <= c as int <= 13 || 28 <= c as int <= 31
  }

  function ToLower(c: char): (r: char)
    ensures IsUpper(c) ==> IsLower(r) && r as int == c as int + 32
    ensures !IsUpper(c) ==> r == c
  {
    if IsUpper(c) then (c as int + 32) as char else c
  }

  function ToUpper(c: char): (r: char)
    ensures IsLower(c) ==> IsUpper(r) && r as int == c as int - 32
    ensures !IsLower(c) ==> r == c
  {
    if IsLower(c) then (c as int - 32) as char else c
  }

  // ---------------------------------------------------------------------------
  // Whole-string case mapping and replacement

  /** `s.lower()` */
  function Lower(s: string): (r: string)
    ensures |r| == |s|
    ensures forall i :: 0 <= i < |s| ==> r[i] == ToLower(s[i])
  {
    seq(|s|, i requires 0 <= i < |s| => ToLower(s[i]))
  }

  /**
   * `s.title()`: a letter is upper-cased when it starts a run of letters and
   * lower-cased otherwise; every other character is kept.
   */
  function Title(s: string): (r: string)
    ensures |r| == |s|
    ensures forall i :: 0 <= i < |s| ==>
      r[i] == (if i > 0 && IsLetter(s[i - 1]) then ToLower(s[i]) else ToUpper(s[i]))
  {
    seq(|s|, i requires 0 <= i < |s| =>
      if i > 0 && IsLetter(s[i - 1]) then ToLower(s[i]) else ToUpper(s[i]))
  }

  /** `s.replace(a, b)` for single characters. */
  function ReplaceChar(s: string, a: char, b: char): (r: string)
    ensures |r| == |s|
    ensures forall i :: 0 <= i < |s| ==> r[i] == (if s[i] == a then b else s[i])
  {
    seq(|s|, i requires 0 <= i < |s| => if s[i] == a then b else s[i])
  }

  /** Lower-casing undoes whatever `title()` did to the letters. */
  lemma LowerOfTitle(s: string)
    ensures Lower(Title(s)) == Lower(s)
  {
    var t := Title(s);
    forall i | 0 <= i < |s| ensures Lower(t)[i] == Lower(s)[i] {
      LowerOfCased(s[i], i > 0 && IsLetter(s[i - 1]));
    }
  }

  /** Lower-casing a character after either case mapping gives its lower case. */
  lemma LowerOfCased(c: char, lower: bool)
    ensures ToLower(if lower then ToLower(c) else ToUpper(c)) == ToLower(c)
  {
  }

  /** A string without upper-case letters is its own `lower()`. */
  lemma LowerOfLower(s: string)
    requires forall i :: 0 <= i < |s| ==> !IsUpper(s[i])
    ensures Lower(s) == s
  {
  }

  /** Replacing `a` by `b` and back is the identity when `b` did not occur. */
  lemma ReplaceCharBack(s: string, a: char, b: char)
    requires forall i :: 0 <= i < |s| ==> s[i] != b
    ensures ReplaceChar(ReplaceChar(s, a, b), b, a) == s
  {
  }

  // ---------------------------------------------------------------------------
  // Substrings

  predicate StartsWith(s: string, p: string) {
    |p| <= |s| && s[..|p|] == p
  }

  predicate EndsWith(s: string, p: string) {
    |p| <= |s| && s[|s| - |p|..] == p
  }

  lemma PrefixOfConcat(a: string, b: string)
    ensures StartsWith(a + b, a)
  {
    assert (a + b)[..|a|] == a;
  }

  lemma SuffixOfConcat(a: string, b: string)
    ensures EndsWith(a + b, b)
  {
    assert (a + b)[|a + b| - |b|..] == b;
  }

  lemma DropPrefix(a: string, b: string)
    ensures (a + b)[|a|..] == b
  {
  }

  lemma DropFromConcat(a: string, b: string, n: nat)
    requires n <= |a|
    ensures (a + b)[n..] == a[n..] + b
  {
  }

  lemma Regroup(a: string, b: string, c: string)
    ensures a + b + c == a + (b + c)
  {
  }

  /** `p` occurs in `s` at offset `k`. */
  predicate MatchAt(s: string, p: string, k: int) {
    0 <= k && k + |p| <= |s| && s[k..k + |p|] == p
  }

  /** Python's `p in s`. */
  predicate Contains(s: string, p: string) {
    exists k | 0 <= k <= |s| - |p| :: MatchAt(s, p, k)
  }

  /** The first offset at or after `from` where `p` occurs. */
  function FindFrom(s: string, p: string, from: nat): (r: Option<nat>)
    ensures r.Some? ==> from <= r.value && MatchAt(s, p, r.value)
    ensures r.Some? ==> forall k :: from <= k < r.value ==> !MatchAt(s, p, k)
    ensures r.None? ==> forall k :: from <= k ==> !MatchAt(s, p, k)
    decreases |s| - from
  {
    if from + |p| > |s| then None
    else if MatchAt(s, p, from) then Some(from)
    else FindFrom(s, p, from + 1)
  }

  /** Python's `s.find(p)`, with `None` for -1. */
  function Find(s: string, p: string): (r: Option<nat>)
    ensures r.Some? <==> Contains(s, p)
    ensures r.Some? ==> MatchAt(s, p, r.value) && forall k :: 0 <= k < r.value ==> !MatchAt(s, p, k)
  {
    var r := FindFrom(s, p, 0);
    assert r.Some? ==> MatchAt(s, p, r.value);
    r
  }

  lemma MatchAtContains(s: string, p: string, k: int)
    requires MatchAt(s, p, k)
    ensures Contains(s, p)
  {
  }

  /** A pattern with a character the text lacks does not occur in it. */
  lemma NotContainsMissingChar(s: string, p: string, c: char)
    requires c in p && c !in s
    ensures !Contains(s, p)
  {
    var j :| 0 <= j < |p| && p[j] == c;
    forall k | 0 <= k <= |s| - |p| ensures !MatchAt(s, p, k) {
      assert s[k..k + |p|][j] == s[k + j];
    }
  }

  /**
   * A pattern absent from `a` is absent from `a + b` when it cannot straddle
   * the seam (the last character of `a` is not in the pattern) and cannot
   * start in `b` (its first character is not in `b`).
   */
  lemma NotContainsConcat(a: string, b: string, p: string)
    requires |p| > 0 && !Contains(a, p)
    requires |a| > 0 ==> a[|a| - 1] !in p
    requires p[0] !in b
    ensures !Contains(a + b, p)
  {
    var s := a + b;
    forall k | 0 <= k <= |s| - |p| ensures !MatchAt(s, p, k) {
      if k >= |a| {
        assert s[k..k + |p|][0] == b[k - |a|];
      } else if k + |p| <= |a| {
        assert s[k..k + |p|] == a[k..k + |p|];
        assert !MatchAt(a, p, k);
      } else {
        assert s[k..k + |p|][|a| - 1 - k] == a[|a| - 1];
        assert p[|a| - 1 - k] in p;
      }
    }
  }

  /** A pattern that starts `s` is found at offset 0. */
  lemma FindAtStart(s: string, p: string)
    requires StartsWith(s, p)
    ensures Find(s, p) == Some(0)
  {
    assert MatchAt(s, p, 0);
  }

  /** `Find` returns the one offset that matches with no match before it. */
  lemma FindIsFirst(s: string, p: string, m: nat)
    requires MatchAt(s, p, m)
    requires forall k :: 0 <= k < m ==> !MatchAt(s, p, k)
    ensures Find(s, p) == Some(m)
  {
    MatchAtContains(s, p, m);
    var r := Find(s, p);
    assert !(r.value < m);
    assert !(m < r.value);
  }

  /** Prefixing text moves every occurrence by the prefix's length. */
  lemma MatchAtShift(a: string, b: string, p: string, k: nat)
    ensures MatchAt(a + b, p, |a| + k) <==> MatchAt(b, p, k)
  {
    if k + |p| <= |b| {
      assert (a + b)[|a| + k..|a| + k + |p|] == b[k..k + |p|];
    }
  }

  /** No occurrence can start inside a prefix that lacks the pattern's first character. */
  lemma NoMatchInPrefix(a: string, b: string, p: string, j: nat)
    requires |p| > 0 && p[0] !in a && j < |a|
    ensures !MatchAt(a + b, p, j)
  {
    if j + |p| <= |a + b| {
      assert (a + b)[j..j + |p|][0] == a[j];
    }
  }

  /** The first occurrence in `a + b` is the first occurrence in `b`, shifted, when `a` cannot hold its start. */
  lemma FindAfterPrefix(a: string, b: string, p: string)
    requires |p| > 0 && p[0] !in a && Contains(b, p)
    ensures Find(a + b, p) == Some(|a| + Find(b, p).value)
  {
    var k := Find(b, p).value;
    MatchAtShift(a, b, p, k);
    forall j | 0 <= j < |a| + k ensures !MatchAt(a + b, p, j) {
      NoEarlierMatch(a, b, p, k, j);
    }
    FindIsFirst(a + b, p, |a| + k);
  }

  /** Before the shifted first occurrence in `b`, nothing in `a + b` matches. */
  lemma NoEarlierMatch(a: string, b: string, p: string, k: nat, j: nat)
    requires |p| > 0 && p[0] !in a && Contains(b, p) && k == Find(b, p).value && j < |a| + k
    ensures !MatchAt(a + b, p, j)
  {
    if j < |a| {
      NoMatchInPrefix(a, b, p, j);
    } else {
      MatchAtShift(a, b, p, j - |a|);
    }
  }

  // ---------------------------------------------------------------------------
  // split and join

  /**
   * Python's `s.split(sep)` for a non-empty separator: occurrences are
   * taken left to right without overlap, so there is always one more
   * piece than occurrences.
   */
  function Split(s: string, sep: string): (r: seq<string>)
    requires |sep| > 0
    ensures |r| >= 1
    ensures |r| > 1 <==> Contains(s, sep)
    decreases |s|
  {
    match Find(s, sep)
    case None => [s]
    case Some(k) => [s[..k]] + Split(s[k + |sep|..], sep)
  }

  /** `sep.join(parts)` */
  function Join(parts: seq<string>, sep: string): string
  {
    if |parts| == 0 then ""
    else if |parts| == 1 then parts[0]
    else parts[0] + sep + Join(parts[1..], sep)
  }

  /** The first piece of a split is the text before the first occurrence of the separator. */
  lemma SplitFirst(s: string, sep: string)
    requires |sep| > 0 && Contains(s, sep)
    ensures Split(s, sep)[0] == s[..Find(s, sep).value]
  {
  }

  /** Splitting and joining again gives the original text back. */
  lemma {:induction false} JoinSplit(s: string, sep: string)
    requires |sep| > 0
    ensures Join(Split(s, sep), sep) == s
    decreases |s|
  {
    match Find(s, sep)
    case None =>
    case Some(k) =>
      var rest := s[k + |sep|..];
      JoinSplit(rest, sep);
      assert s[k..k + |sep|] == sep;
      assert s == s[..k] + sep + rest;
  }

  /**
   * Joining and splitting again gives the pieces back, provided no piece
   * holds the first character of the separator.
   */
  lemma {:induction false} SplitJoin(parts: seq<string>, sep: string)
    requires |parts| >= 1 && |sep| > 0
    requires forall i :: 0 <= i < |parts| ==> sep[0] !in parts[i]
    ensures Split(Join(parts, sep), sep) == parts
    decreases |parts|
  {
    if |parts| == 1 {
      NoSeparatorNoSplit(parts[0], sep);
    } else {
      var rest := Join(parts[1..], sep);
      var s := parts[0] + sep + rest;
      assert s == parts[0] + (sep + rest);
      assert StartsWith(sep + rest, sep);
      FindAtStart(sep + rest, sep);
      FindAfterPrefix(parts[0], sep + rest, sep);
      assert Find(s, sep) == Some(|parts[0]|);
      assert s[..|parts[0]|] == parts[0];
      assert s[|parts[0]| + |sep|..] == rest;
      SplitJoin(parts[1..], sep);
    }
  }

  /** A text without the separator's first character splits into itself alone. */
  lemma NoSeparatorNoSplit(s: string, sep: string)
    requires |sep| > 0 && sep[0] !in s
    ensures Split(s, sep) == [s]
  {
    NotContainsMissingChar(s, sep, sep[0]);
  }

  // ---------------------------------------------------------------------------
  // strip

  function TrimStart(s: string, drop: char -> bool): (r: string)
    ensures |r| <= |s| && r == s[|s| - |r|..]
    ensures |r| > 0 ==> !drop(r[0])
    ensures forall i :: 0 <= i < |s| - |r| ==> drop(s[i])
  {
    if |s| > 0 && drop(s[0]) then
      var r := TrimStart(s[1..], drop);
      assert forall i :: 1 <= i < |s| ==> s[i] == s[1..][i - 1];
      r
    else s
  }

  function TrimEnd(s: string, drop: char -> bool): (r: string)
    ensures |r| <= |s| && r == s[..|r|]
    ensures |r| > 0 ==> !drop(r[|r| - 1])
    ensures forall i :: |r| <= i < |s| ==> drop(s[i])
  {
    if |s| > 0 && drop(s[|s| - 1]) then TrimEnd(s[..|s| - 1], drop) else s
  }

  /** `s.strip(chars)` with the stripped set given as a predicate. */
  function StripBy(s: string, drop: char -> bool): string {
    TrimEnd(TrimStart(s, drop), drop)
  }

  /** `s.strip()` */
  function Strip(s: string): string {
    StripBy(s, IsSpace)
  }

  /** Stripping removes exactly the surrounding droppable characters of a core that neither starts nor ends with one. */
  lemma {:induction false} StripByExact(left: string, core: string, right: string, drop: char -> bool)
    requires forall i :: 0 <= i < |left| ==> drop(left[i])
    requires forall i :: 0 <= i < |right| ==> drop(right[i])
    requires |core| > 0 && !drop(core[0]) && !drop(core[|core| - 1])
    ensures StripBy(left + core + right, drop) == core
  {
    TrimStartExact(left, core + right, drop);
    assert left + core + right == left + (core + right);
    TrimEndExact(core, right, drop);
  }

  lemma {:induction false} TrimStartExact(left: string, rest: string, drop: char -> bool)
    requires forall i :: 0 <= i < |left| ==> drop(left[i])
    requires |rest| > 0 && !drop(rest[0])
    ensures TrimStart(left + rest, drop) == rest
    decreases |left|
  {
    if |left| > 0 {
      assert (left + rest)[1..] == left[1..] + rest;
      TrimStartExact(left[1..], rest, drop);
    } else {
      assert left + rest == rest;
    }
  }

  lemma {:induction false} TrimEndExact(core: string, right: string, drop: char -> bool)
    requires forall i :: 0 <= i < |right| ==> drop(right[i])
    requires |core| > 0 && !drop(core[|core| - 1])
    ensures TrimEnd(core + right, drop) == core
    decreases |right|
  {
    if |right| > 0 {
      var s := core + right;
      assert s[..|s| - 1] == core + right[..|right| - 1];
      TrimEndExact(core, right[..|right| - 1], drop);
    } else {
      assert core + right == core;
    }
  }

  // ---------------------------------------------------------------------------
  // Whitespace tokens: Python's `s.split()` with no argument

  /** `w` holds no whitespace character. */
  predicate NoSpace(w: string) {
    forall k :: 0 <= k < |w| ==> !IsSpace(w[k])
  }

  function TakeWord(s: string): (r: string)
    ensures |r| <= |s| && r == s[..|r|]
    ensures NoSpace(r)
    ensures |r| < |s| ==> IsSpace(s[|r|])
  {
    if |s| > 0 && !IsSpace(s[0]) then [s[0]] + TakeWord(s[1..]) else ""
  }

  /**
   * The maximal runs of non-whitespace characters, in order. `WordsOfSpaces`,
   * `WordsOfWord` and `WordsSplitAtSpace` together determine the result on
   * every string: split at each whitespace character, drop the empty pieces.
   */
  function Words(s: string): (r: seq<string>)
    ensures forall i :: 0 <= i < |r| ==> |r[i]| > 0 && NoSpace(r[i])
    decreases |s|
  {
    var t := TrimStart(s, IsSpace);
    if |t| == 0 then []
    else
      var w := TakeWord(t);
      assert |w| > 0 by { assert !IsSpace(t[0]); }
      var rest := Words(t[|w|..]);
      ConsWords(w, rest);
      [w] + rest
  }

  /** Putting a word in front of a list of words gives a list of words. */
  lemma ConsWords(w: string, rest: seq<string>)
    requires |w| > 0 && NoSpace(w)
    requires forall i :: 0 <= i < |rest| ==> |rest[i]| > 0 && NoSpace(rest[i])
    ensures forall i :: 0 <= i < |[w] + rest| ==> |([w] + rest)[i]| > 0 && NoSpace(([w] + rest)[i])
  {
    var r := [w] + rest;
    assert forall i :: 1 <= i < |r| ==> r[i] == rest[i - 1];
  }

  /** Whitespace alone has no words. */
  lemma WordsOfSpaces(s: string)
    requires forall k :: 0 <= k < |s| ==> IsSpace(s[k])
    ensures Words(s) == []
  {
  }

  /** A non-empty string without whitespace is one word. */
  lemma WordsOfWord(s: string)
    requires |s| > 0 && NoSpace(s)
    ensures Words(s) == [s]
  {
    WordsTakeFirst(s);
    var w := TakeWord(s);
    assert |w| == |s|;
    assert w == s;
    var e: string := [];
    WordsOfSpaces(e);
    assert s[|w|..] == e;
    var none: seq<string> := [];
    assert [s] + none == [s];
  }

  /** A string starting with whitespace has the words of its remainder. */
  lemma WordsSkipSpace(s: string)
    requires |s| > 0 && IsSpace(s[0])
    ensures Words(s) == Words(s[1..])
  {
    assert TrimStart(s, IsSpace) == TrimStart(s[1..], IsSpace);
  }

  /** A word ends at the first whitespace character. */
  lemma {:induction false} TakeWordStopsAtSpace(a: string, c: char, b: string)
    requires IsSpace(c)
    ensures TakeWord(a + [c] + b) == TakeWord(a)
    decreases |a|
  {
    if |a| == 0 {
      assert (a + [c] + b)[0] == c;
    } else if !IsSpace(a[0]) {
      assert (a + [c] + b)[1..] == a[1..] + [c] + b;
      TakeWordStopsAtSpace(a[1..], c, b);
    }
  }

  /** A string starting with a word has that word followed by the words of what comes after it. */
  lemma WordsTakeFirst(s: string)
    requires |s| > 0 && !IsSpace(s[0])
    ensures |TakeWord(s)| > 0 && Words(s) == [TakeWord(s)] + Words(s[|TakeWord(s)|..])
  {
    assert TrimStart(s, IsSpace) == s;
  }

  /** The words of two strings joined by a whitespace character are the words of each, in order. */
  lemma {:induction false} WordsSplitAtSpace(a: string, c: char, b: string)
    requires IsSpace(c)
    ensures Words(a + [c] + b) == Words(a) + Words(b)
    decreases |a|
  {
    if |a| == 0 {
      SplitAfterNothing(a, c, b);
    } else if IsSpace(a[0]) {
      WordsSplitAtSpace(a[1..], c, b);
      SplitAfterSpace(a, c, b);
    } else {
      var w := TakeWord(a);
      WordsTakeFirst(a);
      WordsSplitAtSpace(a[|w|..], c, b);
      SplitAfterWord(a, c, b);
    }
  }

  /** `WordsSplitAtSpace` when `a` is empty. */
  lemma SplitAfterNothing(a: string, c: char, b: string)
    requires IsSpace(c) && |a| == 0
    ensures Words(a + [c] + b) == Words(a) + Words(b)
  {
    var x := a + [c] + b;
    assert x[0] == c;
    DropAfterSplit(a, c, b, 0);
    DropFromConcat([c], b, 1);
    assert x[1..] == b;
    WordsSkipSpace(x);
  }

  /** The step of `WordsSplitAtSpace` when `a` starts with whitespace. */
  lemma SplitAfterSpace(a: string, c: char, b: string)
    requires IsSpace(c) && |a| > 0 && IsSpace(a[0])
    requires Words(a[1..] + [c] + b) == Words(a[1..]) + Words(b)
    ensures Words(a + [c] + b) == Words(a) + Words(b)
  {
    var x := a + [c] + b;
    assert x[0] == a[0];
    DropAfterSplit(a, c, b, 1);
    WordsSkipSpace(x);
    WordsSkipSpace(a);
  }

  /** Dropping a prefix of `a` from `a + [c] + b`. */
  lemma DropAfterSplit(a: string, c: char, b: string, n: nat)
    requires n <= |a|
    ensures (a + [c] + b)[n..] == a[n..] + [c] + b
  {
    Regroup(a, [c], b);
    DropFromConcat(a, [c] + b, n);
    Regroup(a[n..], [c], b);
  }

  /** The step of `WordsSplitAtSpace` when `a` starts with a word. */
  lemma SplitAfterWord(a: string, c: char, b: string)
    requires IsSpace(c) && |a| > 0 && !IsSpace(a[0])
    requires |TakeWord(a)| > 0
    requires Words(a[|TakeWord(a)|..] + [c] + b) == Words(a[|TakeWord(a)|..]) + Words(b)
    ensures Words(a + [c] + b) == Words(a) + Words(b)
  {
    var x := a + [c] + b;
    var w := TakeWord(a);
    var p, q := Words(a[|w|..]), Words(b);
    assert x[0] == a[0];
    TakeWordStopsAtSpace(a, c, b);
    WordsTakeFirst(x);
    WordsTakeFirst(a);
    DropAfterSplit(a, c, b, |w|);
    assert Words(x) == [w] + (p + q);
    RegroupWords([w], p, q);
  }

  lemma RegroupWords(a: seq<string>, b: seq<string>, c: seq<string>)
    ensures a + b + c == a + (b + c)
  {
  }



  // ---------------------------------------------------------------------------
  // Integers as text

  function DigitChar(d: nat): (c: char)
    requires d < 10
    ensures IsDigit(c)
  {
    ('0' as int + d) as char
  }

  /** `str(n)` for a natural number. */
  function NatText(n: nat): (r: string)
    ensures |r| > 0
    ensures forall i :: 0 <= i < |r| ==> IsDigit(r[i])
  {
    if n < 10 then [DigitChar(n)] else NatText(n / 10) + [DigitChar(n % 10)]
  }

  /** `str(n)` */
  function IntText(n: int): (r: string)
    ensures |r| > 0
    ensures forall i :: 0 <= i < |r| ==> IsDigit(r[i]) || r[i] == '-'
    ensures n >= 0 ==> IsDigit(r[0])
  {
    if n < 0 then "-" + NatText(-n) else NatText(n)
  }

  // ---------------------------------------------------------------------------
  // Python's string comparison: lexicographic on code points

  /** `a <= b` for Python strings. */
  predicate LexLe(a: string, b: string)
  {
    |a| == 0 || (|b| > 0 && (a[0] < b[0] || (a[0] == b[0] && LexLe(a[1..], b[1..]))))
  }

  lemma {:induction false} LexLeTotal(a: string, b: string)
    ensures LexLe(a, b) || LexLe(b, a)
    decreases |a|
  {
    if |a| > 0 && |b| > 0 && a[0] == b[0] {
      LexLeTotal(a[1..], b[1..]);
    }
  }

  lemma {:induction false} LexLeTransitive(a: string, b: string, c: string)
    requires LexLe(a, b) && LexLe(b, c)
    ensures LexLe(a, c)
    decreases |a|
  {
    if |a| > 0 && a[0] == b[0] && b[0] == c[0] {
      LexLeTransitive(a[1..], b[1..], c[1..]);
    }
  }
}
