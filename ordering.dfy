/** The order the shuffle sorts by: Python's comparison of str values,
    lexicographic by code point with a proper prefix first, and the sort of a
    list of lines under it. */
module Ordering {

  /** a <= b on Python strings. */
  predicate Below(a: string, b: string) {
    a == [] || (b != [] && (a[0] < b[0] || (a[0] == b[0] && Below(a[1..], b[1..]))))
  }

  lemma {:induction false} BelowReflexive(a: string)
    ensures Below(a, a)
  {
    if a != [] {
      BelowReflexive(a[1..]);
    }
  }

  lemma {:induction false} BelowAntisymmetric(a: string, b: string)
    requires Below(a, b) && Below(b, a)
    ensures a == b
  {
    if a != [] && b != [] {
      BelowAntisymmetric(a[1..], b[1..]);
      assert a == [a[0]] + a[1..] && b == [b[0]] + b[1..];
    }
  }

  lemma {:induction false} BelowTransitive(a: string, b: string, c: string)
    requires Below(a, b) && Below(b, c)
    ensures Below(a, c)
  {
    if a != [] && b != [] && c != [] && a[0] == b[0] == c[0] {
      BelowTransitive(a[1..], b[1..], c[1..]);
    }
  }

  lemma {:induction false} BelowTotal(a: string, b: string)
    ensures Below(a, b) || Below(b, a)
  {
    if a != [] && b != [] && a[0] == b[0] {
      BelowTotal(a[1..], b[1..]);
    }
  }

  /** A string lying between two strings that share a prefix has that prefix
      too: this is why a sort over whole lines keeps every line that starts
      with `key + "\t"` in one block. */
  lemma {:induction false} PrefixBetween(p: string, u: string, m: string, w: string)
    requires p <= u && p <= w
    requires Below(u, m) && Below(m, w)
    ensures p <= m
  {
    if p != [] {
      assert u != [] && w != [];
      assert m != [] && u[0] <= m[0] <= w[0];
      assert u[0] == p[0] == w[0];
      PrefixBetween(p[1..], u[1..], m[1..], w[1..]);
    }
  }

  predicate Sorted(s: seq<string>) {
    forall i, j :: 0 <= i < j < |s| ==> Below(s[i], s[j])
  }

  /** Inserts x before the first element it is below. */
  function Insert(x: string, s: seq<string>): (r: seq<string>)
    requires Sorted(s)
    ensures Sorted(r)
    ensures multiset(r) == multiset(s) + multiset{x}
  {
    if s == [] then [x]
    else if Below(x, s[0]) then
      assert forall j :: 0 < j < |s| ==> Below(x, s[j]) by {
        forall j | 0 < j < |s| { BelowTransitive(x, s[0], s[j]); }
      }
      assert s == [s[0]] + s[1..];
      [x] + s
    else
      BelowTotal(x, s[0]);
      var rest := Insert(x, s[1..]);
      assert s == [s[0]] + s[1..];
      assert forall j :: 0 <= j < |rest| ==> Below(s[0], rest[j]) by {
        forall j | 0 <= j < |rest|
          ensures Below(s[0], rest[j])
        {
          assert rest[j] in multiset(rest);
          assert rest[j] == x || rest[j] in s[1..];
        }
      }
      [s[0]] + rest
  }

  /** Python's sorted() on a list of lines. */
  function SortLines(s: seq<string>): (r: seq<string>)
    ensures Sorted(r)
    ensures multiset(r) == multiset(s)
  {
    if s == [] then []
    else
      assert s == [s[0]] + s[1..];
      Insert(s[0], SortLines(s[1..]))
  }

  /** The head of a sorted sequence is below each of its elements. */
  lemma SortedHeadBelow(a: seq<string>, x: string)
    requires Sorted(a) && x in multiset(a)
    ensures Below(a[0], x)
  {
    var i :| 0 <= i < |a| && a[i] == x;
    if i == 0 { BelowReflexive(x); }
  }

  lemma TailMultiset(a: seq<string>, b: seq<string>)
    requires a != [] && b != [] && a[0] == b[0]
    requires multiset(a) == multiset(b)
    ensures multiset(a[1..]) == multiset(b[1..])
  {
    assert a == [a[0]] + a[1..] && b == [b[0]] + b[1..];
    assert multiset(a) == multiset{a[0]} + multiset(a[1..]);
    assert multiset(b) == multiset{b[0]} + multiset(b[1..]);
    forall x
      ensures multiset(a[1..])[x] == multiset(b[1..])[x]
    {
      assert multiset(a)[x] == multiset{a[0]}[x] + multiset(a[1..])[x];
      assert multiset(b)[x] == multiset{b[0]}[x] + multiset(b[1..])[x];
    }
  }

  /** Two sorted sequences with the same elements are equal: the sorted order
      of a set of lines does not depend on their input order. */
  lemma {:induction false} SortedUnique(a: seq<string>, b: seq<string>)
    requires Sorted(a) && Sorted(b)
    requires multiset(a) == multiset(b)
    ensures a == b
    decreases |a|
  {
    if a == [] {
      assert |multiset(b)| == 0;
    } else {
      assert |b| == |a| by { assert |multiset(b)| == |multiset(a)|; }
      assert a[0] in multiset(b) && b[0] in multiset(a);
      SortedHeadBelow(b, a[0]);
      SortedHeadBelow(a, b[0]);
      BelowAntisymmetric(a[0], b[0]);
      TailMultiset(a, b);
      SortedUnique(a[1..], b[1..]);
      assert a == [a[0]] + a[1..] && b == [b[0]] + b[1..];
    }
  }

  /** Sorting lines that are already sorted changes nothing. */
  lemma SortOfSorted(s: seq<string>)
    requires Sorted(s)
    ensures SortLines(s) == s
  {
    SortedUnique(SortLines(s), s);
  }

  /** The shuffle sort is idempotent. */
  lemma SortIdempotent(s: seq<string>)
    ensures SortLines(SortLines(s)) == SortLines(s)
  {
    SortOfSorted(SortLines(s));
  }

  /** The sort depends only on which lines there are, not on their order. */
  lemma SortPermutationInvariant(s: seq<string>, t: seq<string>)
    requires multiset(s) == multiset(t)
    ensures SortLines(s) == SortLines(t)
  {
    SortedUnique(SortLines(s), SortLines(t));
  }

  /** In sorted lines, the lines that start with a given prefix (for a
      `key<TAB>value` record, `key + "\t"`) are contiguous. */
  lemma PrefixBlock(s: seq<string>, p: string, i: nat, j: nat, m: nat)
    requires Sorted(s)
    requires i <= m <= j < |s|
    requires p <= s[i] && p <= s[j]
    ensures p <= s[m]
  {
    if i < m { assert Below(s[i], s[m]); } else { BelowReflexive(s[i]); }
    if m < j { assert Below(s[m], s[j]); } else { BelowReflexive(s[m]); }
    PrefixBetween(p, s[i], s[m], s[j]);
  }
}
