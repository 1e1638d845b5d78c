/** Python's ordering of strings and the list operations built on it:
    `sorted(...)`, `Series.unique()` and `Series.dropna()`. */
module Ordering {

  datatype Option<T> = None | Some(value: T)

  /** Python's `a < b` on str: lexicographic on code points, a proper prefix first. */
  predicate Below(a: string, b: string)
    decreases |a|
  {
    if |a| == 0 then |b| > 0
    else if |b| == 0 then false
    else if a[0] != b[0] then a[0] < b[0]
    else Below(a[1..], b[1..])
  }

  predicate AtMost(a: string, b: string) { a == b || Below(a, b) }

  lemma {:induction false} BelowIrreflexive(a: string)
    ensures !Below(a, a)
  {
    if |a| > 0 { BelowIrreflexive(a[1..]); }
  }

  lemma {:induction false} BelowTransitive(a: string, b: string, c: string)
    requires Below(a, b) && Below(b, c)
    ensures Below(a, c)
    decreases |a|
  {
    if |a| > 0 && a[0] == b[0] && b[0] == c[0] {
      BelowTransitive(a[1..], b[1..], c[1..]);
    }
  }

  lemma {:induction false} BelowTotal(a: string, b: string)
    ensures a == b || Below(a, b) || Below(b, a)
    decreases |a|
  {
    if |a| > 0 && |b| > 0 && a[0] == b[0] {
      BelowTotal(a[1..], b[1..]);
      if a[1..] == b[1..] {
        assert a == [a[0]] + a[1..] && b == [b[0]] + b[1..];
      }
    }
  }

  lemma {:induction false} BelowAsymmetric(a: string, b: string)
    requires Below(a, b)
    ensures !Below(b, a)
  {
    if Below(b, a) {
      BelowTransitive(a, b, a);
      BelowIrreflexive(a);
    }
  }

  predicate Ascending(s: seq<string>)
  {
    forall i, j :: 0 <= i < j < |s| ==> AtMost(s[i], s[j])
  }

  predicate StrictlyAscending(s: seq<string>)
  {
    forall i, j :: 0 <= i < j < |s| ==> Below(s[i], s[j])
  }

  predicate NoDuplicates<T(==)>(s: seq<T>)
  {
    forall i, j :: 0 <= i < j < |s| ==> s[i] != s[j]
  }

  /** Inserts x into an ascending list before the first element not below it. */
  function Insert(x: string, s: seq<string>): (r: seq<string>)
    requires Ascending(s)
    ensures Ascending(r)
    ensures multiset(r) == multiset(s) + multiset{x}
    ensures |r| == |s| + 1
  {
    if s == [] then [x]
    else if AtMost(x, s[0]) then
      InsertFront(x, s);
      [x] + s
    else
      var t := Insert(x, s[1..]);
      InsertBehind(x, s, t);
      [s[0]] + t
  }

  lemma InsertFront(x: string, s: seq<string>)
    requires Ascending(s) && s != [] && AtMost(x, s[0])
    ensures Ascending([x] + s)
  {
    forall j | 0 < j < |s| ensures AtMost(x, s[j]) {
      if x != s[0] && s[0] != s[j] { BelowTransitive(x, s[0], s[j]); }
    }
  }

  lemma InsertBehind(x: string, s: seq<string>, t: seq<string>)
    requires Ascending(s) && s != [] && !AtMost(x, s[0])
    requires Ascending(t) && multiset(t) == multiset(s[1..]) + multiset{x}
    ensures Ascending([s[0]] + t) && multiset([s[0]] + t) == multiset(s) + multiset{x}
  {
    assert Below(s[0], x) by { BelowTotal(x, s[0]); }
    assert s == [s[0]] + s[1..];
    forall j | 0 <= j < |t| ensures AtMost(s[0], t[j]) {
      assert t[j] in multiset(t);
      if t[j] != x {
        assert t[j] in multiset(s[1..]);
        var k :| 0 <= k < |s[1..]| && s[1..][k] == t[j];
        assert s[k + 1] == t[j];
      }
    }
  }

  /** Python's `sorted(xs)` on strings: ascending and a permutation of xs. */
  function Sort(xs: seq<string>): (r: seq<string>)
    ensures Ascending(r)
    ensures multiset(r) == multiset(xs)
    ensures |r| == |xs|
  {
    if xs == [] then []
    else
      assert xs == xs[..|xs| - 1] + [xs[|xs| - 1]];
      Insert(xs[|xs| - 1], Sort(xs[..|xs| - 1]))
  }

  /** `Series.unique()`: each name once, no more entries than the input. The
      model keeps first occurrences but does not state their order, because the
      list is sorted next. */
  function Unique(xs: seq<string>): (r: seq<string>)
    ensures NoDuplicates(r)
    ensures forall x :: x in r <==> x in xs
    ensures |r| <= |xs|
  {
    if xs == [] then []
    else
      var u := Unique(xs[..|xs| - 1]);
      assert xs == xs[..|xs| - 1] + [xs[|xs| - 1]];
      if xs[|xs| - 1] in u then u else u + [xs[|xs| - 1]]
  }

  /** `Series.dropna()` on a column of optional names: the non-null names, at
      most one entry per cell. */
  function DropNulls(xs: seq<Option<string>>): (r: seq<string>)
    ensures forall x :: x in r <==> Some(x) in xs
    ensures |r| <= |xs|
  {
    if xs == [] then []
    else
      assert xs == [xs[0]] + xs[1..];
      (if xs[0].Some? then [xs[0].value] else []) + DropNulls(xs[1..])
  }

  lemma {:induction false} CountAtMostOne<T>(s: seq<T>, x: T)
    requires NoDuplicates(s)
    ensures multiset(s)[x] <= 1
  {
    if s != [] {
      var p := s[..|s| - 1];
      assert s == p + [s[|s| - 1]];
      CountAtMostOne(p, x);
      if x == s[|s| - 1] {
        assert x !in p;
      }
    }
  }

  lemma RepeatedCount<T>(s: seq<T>, i: nat, j: nat)
    requires i < j < |s| && s[i] == s[j]
    ensures multiset(s)[s[i]] >= 2
  {
    assert s == s[..j] + s[j..];
    assert s[i] in s[..j];
    assert s[j] in s[j..];
  }

  /** An ascending list without duplicates is strictly ascending. */
  lemma AscendingDistinct(s: seq<string>, t: seq<string>)
    requires Ascending(s) && multiset(s) == multiset(t) && NoDuplicates(t)
    ensures StrictlyAscending(s) && NoDuplicates(s)
  {
    forall i, j | 0 <= i < j < |s| ensures s[i] != s[j] {
      if s[i] == s[j] {
        RepeatedCount(s, i, j);
        CountAtMostOne(t, s[i]);
      }
    }
  }

  /** The sorted list of distinct non-null names: `sorted(col.dropna().unique().tolist())`.
      It has at most one name per row. */
  function SortedNames(col: seq<Option<string>>): (names: seq<string>)
    ensures |names| <= |col|
  {
    Sort(Unique(DropNulls(col)))
  }

  /** The names list holds each non-null name once, in strictly increasing order. */
  lemma SortedNamesSpec(col: seq<Option<string>>)
    ensures StrictlyAscending(SortedNames(col))
    ensures forall n :: n in SortedNames(col) <==> Some(n) in col
  {
    var u := Unique(DropNulls(col));
    AscendingDistinct(Sort(u), u);
    forall n ensures n in SortedNames(col) <==> n in u {
      assert n in SortedNames(col) <==> n in multiset(Sort(u));
    }
  }

  /** Sorting distinct labels keeps every label exactly once. */
  lemma SortDistinct(xs: seq<string>)
    requires NoDuplicates(xs)
    ensures StrictlyAscending(Sort(xs)) && NoDuplicates(Sort(xs))
    ensures forall x :: x in Sort(xs) <==> x in xs
  {
    AscendingDistinct(Sort(xs), xs);
    forall x ensures x in Sort(xs) <==> x in xs {
      assert x in Sort(xs) <==> x in multiset(Sort(xs));
    }
  }

  /** Sorting a list that is already in strictly increasing order changes nothing. */
  lemma {:induction false} SortOfAscending(xs: seq<string>)
    requires StrictlyAscending(xs)
    ensures Sort(xs) == xs
  {
    if xs != [] {
      var p, x := xs[..|xs| - 1], xs[|xs| - 1];
      SortOfAscending(p);
      InsertLast(x, p);
      assert p + [x] == xs;
    }
  }

  lemma {:induction false} InsertLast(x: string, s: seq<string>)
    requires StrictlyAscending(s)
    requires forall i :: 0 <= i < |s| ==> Below(s[i], x)
    ensures Ascending(s) && Insert(x, s) == s + [x]
  {
    if s != [] {
      BelowAsymmetric(s[0], x);
      InsertLast(x, s[1..]);
      assert s == [s[0]] + s[1..];
    }
  }
}
