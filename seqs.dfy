/** List comprehensions of the modelled code: filtering, mapping, and the
    ascending sort an `order_by('pk')` asks of the database. */
module Seqs {

  /** `[x for x in s if p(x)]`. */
  function Filter<T>(s: seq<T>, p: T -> bool): (r: seq<T>)
    ensures |r| <= |s|
    ensures forall i :: 0 <= i < |r| ==> p(r[i]) && r[i] in s
    ensures forall i :: 0 <= i < |s| && p(s[i]) ==> s[i] in r
    decreases |s|
  {
    if s == [] then []
    else (if p(s[0]) then [s[0]] else []) + Filter(s[1..], p)
  }

  /** `[f(x) for x in s]`. */
  function MapSeq<T, U>(s: seq<T>, f: T -> U): (r: seq<U>)
    ensures |r| == |s|
    ensures forall i :: 0 <= i < |s| ==> r[i] == f(s[i])
    decreases |s|
  {
    if s == [] then [] else [f(s[0])] + MapSeq(s[1..], f)
  }

  /** Filtering mapped values is mapping the values whose image passes. */
  lemma {:induction false} FilterMap<T, U>(s: seq<T>, f: T -> U, p: U -> bool, q: T -> bool)
    requires forall x :: q(x) == p(f(x))
    ensures Filter(MapSeq(s, f), p) == MapSeq(Filter(s, q), f)
    decreases |s|
  {
    if s != [] {
      FilterMap(s[1..], f, p, q);
      assert MapSeq(s, f)[1..] == MapSeq(s[1..], f);
      if q(s[0]) {
        assert Filter(s, q) == [s[0]] + Filter(s[1..], q);
      } else {
        assert Filter(s, q) == Filter(s[1..], q);
      }
    }
  }

  /** Two filters in a row are one filter by the conjunction. */
  lemma {:induction false} FilterFilter<T>(s: seq<T>, p: T -> bool, q: T -> bool, both: T -> bool)
    requires forall x :: both(x) == (p(x) && q(x))
    ensures Filter(Filter(s, p), q) == Filter(s, both)
    decreases |s|
  {
    if s != [] {
      FilterFilter(s[1..], p, q, both);
      if p(s[0]) {
        assert Filter(s, p) == [s[0]] + Filter(s[1..], p);
        assert Filter(s, p)[1..] == Filter(s[1..], p);
      } else {
        assert Filter(s, p) == Filter(s[1..], p);
      }
    }
  }

  /** Filtering keeps a sequence free of repeats. */
  lemma {:induction false} FilterNoDuplicates<T>(s: seq<T>, p: T -> bool)
    requires NoDuplicates(s)
    ensures NoDuplicates(Filter(s, p))
    decreases |s|
  {
    if s != [] {
      FilterNoDuplicates(s[1..], p);
      HeadNotInTail(s);
      var rest := Filter(s[1..], p);
      assert forall i :: 0 <= i < |rest| ==> rest[i] in s[1..];
      assert Filter(s, p) == (if p(s[0]) then [s[0]] else []) + rest;
    }
  }

  // ---------------------------------------------------------------------
  // order_by('pk')

  predicate Ascending(s: seq<nat>) {
    forall i, j :: 0 <= i < j < |s| ==> s[i] <= s[j]
  }

  predicate StrictlyAscending(s: seq<nat>) {
    forall i, j :: 0 <= i < j < |s| ==> s[i] < s[j]
  }

  predicate NoDuplicates<T(==)>(s: seq<T>) {
    forall i, j :: 0 <= i < j < |s| ==> s[i] != s[j]
  }

  /** Places `x` into an ascending sequence. */
  function Insert(x: nat, s: seq<nat>): (r: seq<nat>)
    requires Ascending(s)
    ensures Ascending(r)
    ensures forall i :: 0 <= i < |r| ==> r[i] == x || r[i] in s
    ensures multiset(r) == multiset(s) + multiset{x}
    decreases |s|
  {
    if s == [] || x <= s[0] then [x] + s
    else
      var rest := Insert(x, s[1..]);
      InsertBehindHead(x, s, rest);
      [s[0]] + rest
  }

  /** The step of `Insert` that keeps the head in front of the rest. */
  lemma InsertBehindHead(x: nat, s: seq<nat>, rest: seq<nat>)
    requires Ascending(s) && s != [] && s[0] < x
    requires Ascending(rest)
    requires forall i :: 0 <= i < |rest| ==> rest[i] == x || rest[i] in s[1..]
    requires multiset(rest) == multiset(s[1..]) + multiset{x}
    ensures Ascending([s[0]] + rest)
    ensures forall i :: 0 <= i < |[s[0]] + rest| ==> ([s[0]] + rest)[i] == x || ([s[0]] + rest)[i] in s
    ensures multiset([s[0]] + rest) == multiset(s) + multiset{x}
  {
    assert s == [s[0]] + s[1..];
    var r := [s[0]] + rest;
    forall i | 0 <= i < |rest|
      ensures s[0] <= rest[i] && rest[i] in r
    {
      if rest[i] != x {
        var k :| 0 <= k < |s[1..]| && s[1..][k] == rest[i];
        assert s[1..][k] == s[k + 1];
      }
      assert r[i + 1] == rest[i];
    }
  }

  lemma {:induction false} InsertNoDuplicates(x: nat, s: seq<nat>)
    requires Ascending(s) && NoDuplicates(s) && x !in s
    ensures NoDuplicates(Insert(x, s))
    decreases |s|
  {
    if s != [] && x > s[0] {
      InsertNoDuplicates(x, s[1..]);
      var rest := Insert(x, s[1..]);
      HeadNotInTail(s);
      assert forall i :: 0 <= i < |rest| ==> rest[i] != s[0];
      assert Insert(x, s) == [s[0]] + rest;
    }
  }

  lemma HeadNotInTail<T>(s: seq<T>)
    requires s != [] && NoDuplicates(s)
    ensures s[0] !in s[1..]
  {
    forall m | 0 <= m < |s| - 1
      ensures s[1..][m] != s[0]
    {
      assert s[1..][m] == s[m + 1];
    }
  }

  /** The values in ascending order (what `order_by` asks of the database). */
  function Sort(s: seq<nat>): (r: seq<nat>)
    ensures Ascending(r)
    ensures multiset(r) == multiset(s)
    ensures NoDuplicates(s) ==> NoDuplicates(r)
    decreases |s|
  {
    if s == [] then []
    else
      var rest := Sort(s[1..]);
      assert s == [s[0]] + s[1..];
      SortStep(s, rest);
      assert multiset(s) == multiset(s[1..]) + multiset{s[0]};
      Insert(s[0], rest)
  }

  /** The step of `Sort` that keeps a sequence without repeats so. */
  lemma SortStep(s: seq<nat>, rest: seq<nat>)
    requires s != [] && Ascending(rest) && multiset(rest) == multiset(s[1..])
    requires NoDuplicates(s[1..]) ==> NoDuplicates(rest)
    ensures NoDuplicates(s) ==> NoDuplicates(Insert(s[0], rest))
  {
    if NoDuplicates(s) {
      HeadNotInTail(s);
      assert forall i, j :: 0 <= i < j < |s[1..]| ==> s[1..][i] == s[i + 1] && s[1..][j] == s[j + 1];
      assert s[0] !in multiset(rest);
      InsertNoDuplicates(s[0], rest);
    }
  }

  /** Ascending without repeats is strictly ascending. */
  lemma AscendingDistinct(s: seq<nat>)
    requires Ascending(s) && NoDuplicates(s)
    ensures StrictlyAscending(s)
  {
  }
}
