/**
 * Python's `sorted(items, key=...)`: a stable sort by a key. Modelled as an
 * insertion sort over sequences and characterised by three facts: the result
 * is ordered, it is a permutation of the input, and items with equivalent
 * keys keep their input order.
 */
module Sorting {
  import Strings

  /** The key order is total and transitive, as `<` on numbers or on strings is. */
  ghost predicate TotalPreorder<K(!new)>(le: (K, K) -> bool) {
    (forall a, b :: le(a, b) || le(b, a)) &&
    (forall a, b, c :: le(a, b) && le(b, c) ==> le(a, c))
  }

  ghost predicate Transitive<K(!new)>(le: (K, K) -> bool) {
    forall a, b, c :: le(a, b) && le(b, c) ==> le(a, c)
  }

  ghost predicate SortedBy<T, K(!new)>(s: seq<T>, key: T -> K, le: (K, K) -> bool) {
    forall i, j :: 0 <= i < j < |s| ==> le(key(s[i]), key(s[j]))
  }

  /** Places `x` in front of the first item whose key is not below `x`'s. */
  function Insert<T, K(!new)>(x: T, s: seq<T>, key: T -> K, le: (K, K) -> bool): (r: seq<T>)
    ensures multiset(r) == multiset{x} + multiset(s)
    ensures |r| == |s| + 1
  {
    if |s| == 0 then [x]
    else if le(key(x), key(s[0])) then [x] + s
    else
      var rest := Insert(x, s[1..], key, le);
      assert s == [s[0]] + s[1..];
      [s[0]] + rest
  }

  /** `sorted(s, key=key)` */
  function SortBy<T, K(!new)>(s: seq<T>, key: T -> K, le: (K, K) -> bool): (r: seq<T>)
    ensures multiset(r) == multiset(s)
    ensures |r| == |s|
  {
    if |s| == 0 then []
    else
      assert s == [s[0]] + s[1..];
      Insert(s[0], SortBy(s[1..], key, le), key, le)
  }

  lemma {:induction false} InsertSorted<T, K(!new)>(x: T, s: seq<T>, key: T -> K, le: (K, K) -> bool)
    requires TotalPreorder(le) && SortedBy(s, key, le)
    ensures SortedBy(Insert(x, s, key, le), key, le)
    decreases |s|
  {
    if |s| > 0 && !le(key(x), key(s[0])) {
      InsertSorted(x, s[1..], key, le);
      var rest := Insert(x, s[1..], key, le);
      var r := [s[0]] + rest;
      forall j | 1 <= j < |r| ensures le(key(s[0]), key(r[j])) {
        assert r[j] in multiset(rest);
        assert r[j] == x || r[j] in s[1..];
      }
    }
  }

  /** The sorted sequence is ordered by key. */
  lemma {:induction false} SortBySorted<T, K(!new)>(s: seq<T>, key: T -> K, le: (K, K) -> bool)
    requires TotalPreorder(le)
    ensures SortedBy(SortBy(s, key, le), key, le)
  {
    if |s| > 0 {
      SortBySorted(s[1..], key, le);
      InsertSorted(s[0], SortBy(s[1..], key, le), key, le);
    }
  }

  /** Two keys are equivalent when each is at most the other. */
  predicate Equiv<K(!new)>(le: (K, K) -> bool, a: K, b: K) {
    le(a, b) && le(b, a)
  }

  /** The items whose key is equivalent to `k`, in order. */
  function SameKey<T, K(!new)>(s: seq<T>, key: T -> K, le: (K, K) -> bool, k: K): (r: seq<T>)
    ensures |r| <= |s|
    ensures forall i :: 0 <= i < |r| ==> r[i] in s && Equiv(le, key(r[i]), k)
  {
    if |s| == 0 then []
    else (if Equiv(le, key(s[0]), k) then [s[0]] else []) + SameKey(s[1..], key, le, k)
  }

  lemma {:induction false} SameKeyInsert<T, K(!new)>(x: T, s: seq<T>, key: T -> K, le: (K, K) -> bool, k: K)
    requires Transitive(le)
    ensures SameKey(Insert(x, s, key, le), key, le, k)
         == (if Equiv(le, key(x), k) then [x] else []) + SameKey(s, key, le, k)
    decreases |s|
  {
    if |s| == 0 {
    } else if le(key(x), key(s[0])) {
      assert ([x] + s)[1..] == s;
    } else {
      var rest := Insert(x, s[1..], key, le);
      var r := [s[0]] + rest;
      assert r[0] == s[0] && r[1..] == rest;
      SameKeyInsert(x, s[1..], key, le, k);
      var hx: seq<T> := if Equiv(le, key(x), k) then [x] else [];
      var h0: seq<T> := if Equiv(le, key(s[0]), k) then [s[0]] else [];
      // `x` and `s[0]` cannot both be equivalent to `k`: that would put `x` at most `s[0]`.
      assert hx == [] || h0 == [];
      assert SameKey(r, key, le, k) == h0 + (hx + SameKey(s[1..], key, le, k));
      var tail := SameKey(s[1..], key, le, k);
      if hx == [] {
        assert hx + tail == tail && hx + (h0 + tail) == h0 + tail;
      } else {
        assert h0 + tail == tail && h0 + (hx + tail) == hx + tail;
      }
    }
  }

  /** Stability: items with equivalent keys come out in the order they went in. */
  lemma {:induction false} SortByStable<T, K(!new)>(s: seq<T>, key: T -> K, le: (K, K) -> bool, k: K)
    requires Transitive(le)
    ensures SameKey(SortBy(s, key, le), key, le, k) == SameKey(s, key, le, k)
  {
    if |s| > 0 {
      SortByStable(s[1..], key, le, k);
      SameKeyInsert(s[0], SortBy(s[1..], key, le), key, le, k);
    }
  }

  /** An input already in key order is returned unchanged. */
  lemma {:induction false} SortBySortedInput<T, K(!new)>(s: seq<T>, key: T -> K, le: (K, K) -> bool)
    requires SortedBy(s, key, le)
    ensures SortBy(s, key, le) == s
  {
    if |s| > 0 {
      SortBySortedInput(s[1..], key, le);
      assert SortedBy(s[1..], key, le) by {
        forall i, j | 0 <= i < j < |s| - 1 ensures le(key(s[1..][i]), key(s[1..][j])) {
          assert s[1..][i] == s[i + 1] && s[1..][j] == s[j + 1];
        }
      }
      if |s| > 1 {
        assert le(key(s[0]), key(s[1]));
      }
    }
  }

  // ---------------------------------------------------------------------------
  // The two key orders the system sorts by

  predicate IntLe(a: int, b: int) { a <= b }

  lemma IntLeTotalPreorder()
    ensures TotalPreorder(IntLe)
  {
  }

  /** Python's `<=` on strings is a total preorder. */
  lemma LexLeTotalPreorder()
    ensures TotalPreorder(Strings.LexLe)
  {
    forall a, b ensures Strings.LexLe(a, b) || Strings.LexLe(b, a) {
      Strings.LexLeTotal(a, b);
    }
    forall a, b, c | Strings.LexLe(a, b) && Strings.LexLe(b, c) ensures Strings.LexLe(a, c) {
      Strings.LexLeTransitive(a, b, c);
    }
  }
}
