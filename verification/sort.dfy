/** `Array.prototype.sort()` without a comparator on strings, and the
    dropdown option lists built as `[...new Set(values.filter(Boolean))].sort()`. */
module JsSort {
  import opened Lists
  import opened Js

  /** The default sort order: strings compared character by character, a
      proper prefix before any of its extensions. */
  predicate StrLe(a: string, b: string)
    decreases |a|
  {
    |a| == 0 || (|b| > 0 && (a[0] < b[0] || (a[0] == b[0] && StrLe(a[1..], b[1..]))))
  }

  predicate StrLt(a: string, b: string) {
    StrLe(a, b) && a != b
  }

  lemma {:induction false} StrLeReflexive(a: string)
    ensures StrLe(a, a)
    decreases |a|
  {
    if |a| > 0 {
      StrLeReflexive(a[1..]);
    }
  }

  lemma {:induction false} StrLeTotal(a: string, b: string)
    ensures StrLe(a, b) || StrLe(b, a)
    decreases |a|
  {
    if |a| > 0 && |b| > 0 && a[0] == b[0] {
      StrLeTotal(a[1..], b[1..]);
    }
  }

  lemma {:induction false} StrLeAntisymmetric(a: string, b: string)
    requires StrLe(a, b) && StrLe(b, a)
    ensures a == b
    decreases |a|
  {
    if |a| > 0 {
      StrLeAntisymmetric(a[1..], b[1..]);
      assert a == [a[0]] + a[1..];
      assert b == [b[0]] + b[1..];
    }
  }

  lemma {:induction false} StrLeTransitive(a: string, b: string, c: string)
    requires StrLe(a, b) && StrLe(b, c)
    ensures StrLe(a, c)
    decreases |a|
  {
    if |a| > 0 && a[0] == b[0] && b[0] == c[0] {
      StrLeTransitive(a[1..], b[1..], c[1..]);
    }
  }

  predicate Sorted(s: seq<string>) {
    forall i, j :: 0 <= i < j < |s| ==> StrLe(s[i], s[j])
  }

  predicate StrictlySorted(s: seq<string>) {
    forall i, j :: 0 <= i < j < |s| ==> StrLt(s[i], s[j])
  }

  function Insert(x: string, s: seq<string>): seq<string> {
    if s == [] then [x]
    else if StrLe(x, s[0]) then [x] + s
    else [s[0]] + Insert(x, s[1..])
  }

  /** A stable sort of `xs`; with a total order its result is the unique sorted
      permutation, so it stands for whatever algorithm the engine uses. */
  function Sort(xs: seq<string>): seq<string> {
    if xs == [] then [] else Insert(xs[0], Sort(xs[1..]))
  }

  /** Inserting adds exactly one occurrence of `x`. */
  lemma {:induction false} InsertPermutes(x: string, s: seq<string>)
    ensures multiset(Insert(x, s)) == multiset(s) + multiset{x}
  {
    if s != [] {
      assert s == [s[0]] + s[1..];
      if !StrLe(x, s[0]) {
        InsertPermutes(x, s[1..]);
      }
    }
  }

  /** A lower bound of a sorted list can go in front of it. */
  lemma SortedCons(y: string, t: seq<string>)
    requires Sorted(t)
    requires forall j :: 0 <= j < |t| ==> StrLe(y, t[j])
    ensures Sorted([y] + t)
  {
  }

  lemma {:induction false} InsertSorted(x: string, s: seq<string>)
    requires Sorted(s)
    ensures Sorted(Insert(x, s))
  {
    if s == [] {
    } else if StrLe(x, s[0]) {
      forall j | 0 <= j < |s|
        ensures StrLe(x, s[j])
      {
        if j > 0 {
          StrLeTransitive(x, s[0], s[j]);
        }
      }
      SortedCons(x, s);
    } else {
      StrLeTotal(x, s[0]);
      var t := s[1..];
      InsertSorted(x, t);
      InsertPermutes(x, t);
      var r := Insert(x, t);
      forall j | 0 <= j < |r|
        ensures StrLe(s[0], r[j])
      {
        assert r[j] in multiset(r);
        assert r[j] == x || r[j] in t;
      }
      SortedCons(s[0], r);
    }
  }

  /** Inserting into a sorted list keeps it sorted and adds exactly `x`. */
  lemma InsertCorrect(x: string, s: seq<string>)
    requires Sorted(s)
    ensures multiset(Insert(x, s)) == multiset(s) + multiset{x}
    ensures Sorted(Insert(x, s))
  {
    InsertPermutes(x, s);
    InsertSorted(x, s);
  }

  /** `Sort` returns its input in ascending order, as a permutation. */
  lemma {:induction false} SortCorrect(xs: seq<string>)
    ensures multiset(Sort(xs)) == multiset(xs)
    ensures Sorted(Sort(xs))
  {
    if xs != [] {
      SortCorrect(xs[1..]);
      InsertCorrect(xs[0], Sort(xs[1..]));
      assert xs == [xs[0]] + xs[1..];
    }
  }

  /** Sorting a duplicate-free list leaves it duplicate-free, so ascending
      becomes strictly ascending. */
  lemma SortDistinct(xs: seq<string>)
    requires Distinct(xs)
    ensures StrictlySorted(Sort(xs))
  {
    SortCorrect(xs);
    var r := Sort(xs);
    forall i, j | 0 <= i < j < |r|
      ensures r[i] != r[j]
    {
      if r[i] == r[j] {
        DoubleCount(r, i, j);
        MultisetBoundedByDistinct(xs, r[i]);
        assert false;
      }
    }
  }

  lemma DoubleCount(r: seq<string>, i: int, j: int)
    requires 0 <= i < j < |r| && r[i] == r[j]
    ensures multiset(r)[r[i]] >= 2
  {
    assert r == r[..i] + [r[i]] + r[i + 1..j] + [r[j]] + r[j + 1..];
  }

  lemma {:induction false} MultisetBoundedByDistinct(xs: seq<string>, x: string)
    requires Distinct(xs)
    ensures multiset(xs)[x] <= 1
  {
    if xs != [] {
      assert xs == [xs[0]] + xs[1..];
      MultisetBoundedByDistinct(xs[1..], x);
      assert xs[0] !in xs[1..];
    }
  }

  /** The truthy values of a column. */
  function TruthyValues(vs: seq<Str>): seq<string> {
    Map(Filter(vs, Truthy), (v: Str) => if v.Some? then v.value else "")
  }

  lemma TruthyValuesMembers(vs: seq<Str>)
    ensures forall s :: s in TruthyValues(vs) <==> s != "" && Some(s) in vs
  {
    var kept := Filter(vs, Truthy);
    forall s | s in TruthyValues(vs)
      ensures s != "" && Some(s) in vs
    {
      var i :| 0 <= i < |kept| && TruthyValues(vs)[i] == s;
      assert kept[i] in kept;
    }
    forall s | s != "" && Some(s) in vs
      ensures s in TruthyValues(vs)
    {
      assert Some(s) in kept;
      var i :| 0 <= i < |kept| && kept[i] == Some(s);
      assert TruthyValues(vs)[i] == s;
    }
  }

  /** `[...new Set(vs.filter(Boolean))].sort()`: a dropdown's option list.
      It is strictly ascending (so free of duplicates), holds no empty or
      missing value, and holds every non-empty value that occurs. */
  function UniqueSortedOptions(vs: seq<Str>): (r: seq<string>)
    ensures StrictlySorted(r)
    ensures Distinct(r)
    ensures forall s :: s in r <==> s != "" && Some(s) in vs
  {
    var unique := Dedup(TruthyValues(vs));
    SortDistinct(unique);
    SortCorrect(unique);
    TruthyValuesMembers(vs);
    var r := Sort(unique);
    assert forall s :: s in r <==> s in multiset(unique);
    r
  }
}
