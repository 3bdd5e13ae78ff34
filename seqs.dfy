/** Sequence operations the pages use: `findIndex`, `filter`, `map` and the
    `[...new Set(xs)]` de-duplication. */
module Seqs {

  /** `s.findIndex(p)`: the first index whose element satisfies `p`, or -1. */
  function FirstIndex<T>(s: seq<T>, p: T -> bool): (i: int)
    ensures -1 <= i < |s|
    ensures i == -1 <==> forall j :: 0 <= j < |s| ==> !p(s[j])
    ensures 0 <= i ==> p(s[i]) && forall j :: 0 <= j < i ==> !p(s[j])
  {
    if s == [] then -1
    else if p(s[0]) then 0
    else
      var k := FirstIndex(s[1..], p);
      if k == -1 then -1 else k + 1
  }

  /** `r` is `s` with some elements left out, the rest in their order. */
  ghost predicate IsSubsequence<T>(r: seq<T>, s: seq<T>)
    decreases |s|
  {
    r == [] || (s != [] && ((r[0] == s[0] && IsSubsequence(r[1..], s[1..])) || IsSubsequence(r, s[1..])))
  }

  lemma {:induction false} SubsequenceTransitive<T>(a: seq<T>, b: seq<T>, c: seq<T>)
    requires IsSubsequence(a, b) && IsSubsequence(b, c)
    ensures IsSubsequence(a, c)
    decreases |c|
  {
    if a != [] {
      assert c != [];
      if b[0] == c[0] && IsSubsequence(b[1..], c[1..]) {
        if a[0] == b[0] && IsSubsequence(a[1..], b[1..]) {
          SubsequenceTransitive(a[1..], b[1..], c[1..]);
        } else {
          SubsequenceTransitive(a, b[1..], c[1..]);
        }
      } else {
        SubsequenceTransitive(a, b, c[1..]);
      }
    }
  }

  /** `r` holds each value satisfying `p` exactly as often as `s` does, and
      no other value. */
  ghost predicate CountsFiltered<T(!new)>(r: seq<T>, s: seq<T>, p: T -> bool)
  {
    forall x :: multiset(r)[x] == if p(x) then multiset(s)[x] else 0
  }

  /** One step of the filter: keeping or dropping the head preserves the counts. */
  lemma FilterStep<T(!new)>(s: seq<T>, p: T -> bool, rest: seq<T>)
    requires s != [] && CountsFiltered(rest, s[1..], p)
    ensures CountsFiltered(if p(s[0]) then [s[0]] + rest else rest, s, p)
  {
    assert s == [s[0]] + s[1..];
  }

  /** Counts that agree with the filter fix membership both ways. */
  lemma CountsGiveMembership<T(!new)>(r: seq<T>, s: seq<T>, p: T -> bool)
    requires CountsFiltered(r, s, p)
    ensures forall i :: 0 <= i < |r| ==> r[i] in s && p(r[i])
    ensures forall i :: 0 <= i < |s| && p(s[i]) ==> s[i] in r
  {
    forall i | 0 <= i < |r| ensures r[i] in s && p(r[i]) {
      assert r[i] in multiset(r);
    }
    forall i | 0 <= i < |s| && p(s[i]) ensures s[i] in r {
      assert s[i] in multiset(s);
    }
  }

  /** `s.filter(p)`: the elements satisfying `p`, in order, each as often as in `s`. */
  function Filter<T(!new)>(s: seq<T>, p: T -> bool): (r: seq<T>)
    ensures CountsFiltered(r, s, p)
    ensures |r| <= |s|
    ensures forall i :: 0 <= i < |r| ==> r[i] in s && p(r[i])
    ensures forall i :: 0 <= i < |s| && p(s[i]) ==> s[i] in r
    ensures IsSubsequence(r, s)
  {
    if s == [] then []
    else
      var rest := Filter(s[1..], p);
      var r := if p(s[0]) then [s[0]] + rest else rest;
      FilterStep(s, p, rest);
      CountsGiveMembership(r, s, p);
      r
  }

  /** Filtering with a predicate every element satisfies keeps the whole sequence. */
  lemma {:induction false} FilterKeepsAll<T(!new)>(s: seq<T>, p: T -> bool)
    requires forall i :: 0 <= i < |s| ==> p(s[i])
    ensures Filter(s, p) == s
  {
    if s != [] {
      FilterKeepsAll(s[1..], p);
    }
  }

  /** Filtering with a predicate no element satisfies leaves nothing. */
  lemma {:induction false} FilterDropsAll<T(!new)>(s: seq<T>, p: T -> bool)
    requires forall i :: 0 <= i < |s| ==> !p(s[i])
    ensures Filter(s, p) == []
  {
    if s != [] {
      FilterDropsAll(s[1..], p);
    }
  }

  /** When exactly the element at `k` satisfies the predicate, the filter
      keeps that element alone. */
  lemma {:induction false} FilterKeepsOne<T(!new)>(s: seq<T>, p: T -> bool, k: nat)
    requires k < |s| && p(s[k])
    requires forall j :: 0 <= j < |s| && j != k ==> !p(s[j])
    ensures Filter(s, p) == [s[k]]
  {
    if k == 0 {
      FilterDropsAll(s[1..], p);
    } else {
      FilterKeepsOne(s[1..], p, k - 1);
    }
  }

  /** `s.map(f)` */
  function Map<T, U>(s: seq<T>, f: T -> U): (r: seq<U>)
    ensures |r| == |s|
    ensures forall i :: 0 <= i < |s| ==> r[i] == f(s[i])
  {
    seq(|s|, i requires 0 <= i < |s| => f(s[i]))
  }

  /** Every element's image is in the mapped sequence, and every value of the
      mapped sequence is the image of some element. */
  lemma MapMembership<T, U>(s: seq<T>, f: T -> U)
    ensures forall x :: x in s ==> f(x) in Map(s, f)
    ensures forall y :: y in Map(s, f) ==> exists x :: x in s && f(x) == y
  {
    var r := Map(s, f);
    forall x | x in s ensures f(x) in r {
      var j :| 0 <= j < |s| && s[j] == x;
      assert r[j] == f(x);
    }
    forall y | y in r ensures exists x :: x in s && f(x) == y {
      var j :| 0 <= j < |r| && r[j] == y;
      assert s[j] in s;
    }
  }

  predicate NoDuplicates<T(==)>(s: seq<T>)
  {
    forall i, j :: 0 <= i < j < |s| ==> s[i] != s[j]
  }

  /** The index of the first occurrence of `x` in `s`, or -1. */
  function Position<T(==)>(s: seq<T>, x: T): (k: int)
    ensures -1 <= k < |s|
    ensures k == -1 <==> x !in s
    ensures 0 <= k ==> s[k] == x && forall j :: 0 <= j < k ==> s[j] != x
  {
    if s == [] then -1
    else if s[0] == x then 0
    else
      var k := Position(s[1..], x);
      if k == -1 then -1 else k + 1
  }

  /** The elements of `r` appear in the order of their first occurrence in `s`. */
  predicate InFirstOccurrenceOrder<T(==)>(r: seq<T>, s: seq<T>)
  {
    forall i, j :: 0 <= i < j < |r| ==> Position(s, r[i]) < Position(s, r[j])
  }

  /** Order by first occurrence in the tail carries over to the whole
      sequence for elements other than its head. */
  lemma OrderInTail<T>(r: seq<T>, s: seq<T>)
    requires s != [] && InFirstOccurrenceOrder(r, s[1..])
    requires forall i :: 0 <= i < |r| ==> r[i] in s[1..] && r[i] != s[0]
    ensures InFirstOccurrenceOrder(r, s)
    ensures forall i :: 0 <= i < |r| ==> Position(s, r[i]) > 0
  {
  }

  /** The head of `s` comes first by first occurrence. */
  lemma OrderWithHead<T>(r: seq<T>, s: seq<T>)
    requires s != [] && InFirstOccurrenceOrder(r, s)
    requires forall i :: 0 <= i < |r| ==> Position(s, r[i]) > 0
    ensures InFirstOccurrenceOrder([s[0]] + r, s)
  {
    var r' := [s[0]] + r;
    forall i, j | 0 <= i < j < |r'| ensures Position(s, r'[i]) < Position(s, r'[j]) {
      assert r'[j] == r[j - 1];
      if i > 0 { assert r'[i] == r[i - 1]; }
    }
  }

  /** The elements of `s` not in `seen`, each once, in order of first occurrence. */
  function DistinctFrom<T(==)>(s: seq<T>, seen: set<T>): (r: seq<T>)
    ensures NoDuplicates(r)
    ensures forall i :: 0 <= i < |r| ==> r[i] in s && r[i] !in seen
    ensures forall i :: 0 <= i < |s| && s[i] !in seen ==> s[i] in r
    ensures InFirstOccurrenceOrder(r, s)
    ensures IsSubsequence(r, s)
  {
    if s == [] then []
    else if s[0] in seen then
      var rest := DistinctFrom(s[1..], seen);
      OrderInTail(rest, s);
      rest
    else
      var rest := DistinctFrom(s[1..], seen + {s[0]});
      OrderInTail(rest, s);
      OrderWithHead(rest, s);
      assert s[0] !in rest;
      [s[0]] + rest
  }

  /** `[...new Set(s)]`: each value of `s` once, in order of first occurrence. */
  function Distinct<T(==)>(s: seq<T>): (r: seq<T>)
    ensures NoDuplicates(r)
    ensures forall i :: 0 <= i < |r| ==> r[i] in s
    ensures forall i :: 0 <= i < |s| ==> s[i] in r
    ensures InFirstOccurrenceOrder(r, s)
    ensures IsSubsequence(r, s)
  {
    DistinctFrom(s, {})
  }
}
