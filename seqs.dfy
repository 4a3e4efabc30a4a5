/** Sequence helpers: Python's `s[:k]` and the filter-and-convert shape shared
    by every backend's search loop (`for hit in hits: if ...: continue; results.append(...)`). */
module Seqs {
  import opened Wrappers

  /** `s[:k]` for a non-negative `k`. */
  function Take<T>(s: seq<T>, k: nat): (r: seq<T>)
    ensures |r| == if k < |s| then k else |s|
    ensures r == s[..|r|]
  {
    if k < |s| then s[..k] else s
  }

  /** `s[:k]` for any integer `k`: a negative `k` drops the last `-k` elements. */
  function PyPrefix<T>(s: seq<T>, k: int): (r: seq<T>)
    ensures |r| == if k >= 0 then (if k < |s| then k else |s|) else (if |s| + k > 0 then |s| + k else 0)
    ensures r == s[..|r|]
  {
    if k >= 0 then Take(s, k) else if |s| + k > 0 then s[..|s| + k] else []
  }

  /** Keeps, in order, the converted elements for which `f` answers `Some`. */
  function FilterMap<A, B>(s: seq<A>, f: A -> Option<B>): seq<B> {
    if s == [] then []
    else FilterMap(s[..|s| - 1], f) + (match f(s[|s| - 1]) case Some(b) => [b] case None => [])
  }

  /** One more loop iteration extends the result by the converted element, if any. */
  lemma FilterMapStep<A, B>(s: seq<A>, i: nat, f: A -> Option<B>)
    requires i < |s|
    ensures FilterMap(s[..i + 1], f)
         == FilterMap(s[..i], f) + (match f(s[i]) case Some(b) => [b] case None => [])
  {
    assert s[..i + 1][..i] == s[..i];
  }

  lemma {:induction false} FilterMapAppend<A, B>(a: seq<A>, b: seq<A>, f: A -> Option<B>)
    ensures FilterMap(a + b, f) == FilterMap(a, f) + FilterMap(b, f)
    decreases |b|
  {
    if b != [] {
      assert (a + b)[..|a + b| - 1] == a + b[..|b| - 1];
      FilterMapAppend(a, b[..|b| - 1], f);
    } else {
      assert a + b == a;
    }
  }

  lemma {:induction false} FilterMapLength<A, B>(s: seq<A>, f: A -> Option<B>)
    ensures |FilterMap(s, f)| <= |s|
  {
    if s != [] {
      FilterMapLength(s[..|s| - 1], f);
    }
  }

  /** A loop that stops once `k` outputs are collected returns the first `k`
      outputs of the whole sequence. */
  lemma FilterMapEarlyStop<A, B>(s: seq<A>, i: nat, f: A -> Option<B>, k: nat)
    requires i < |s| && |FilterMap(s[..i + 1], f)| == k
    ensures Take(FilterMap(s, f), k) == FilterMap(s[..i + 1], f)
  {
    var x, y := FilterMap(s[..i + 1], f), FilterMap(s[i + 1..], f);
    FilterMapAppend(s[..i + 1], s[i + 1..], f);
    assert s[..i + 1] + s[i + 1..] == s;
    assert (x + y)[..|x|] == x;
  }

  /** Converting an element in front of `s` puts its output, if any, in
      front of the output for `s`. */
  lemma FilterMapCons<A, B>(x: A, s: seq<A>, f: A -> Option<B>)
    ensures FilterMap([x] + s, f) == (match f(x) case Some(b) => [b] case None => []) + FilterMap(s, f)
  {
    FilterMapAppend([x], s, f);
    assert [x][..0] == [];
  }

  /** Every output comes from some input element. */
  lemma {:induction false} FilterMapSound<A, B>(s: seq<A>, f: A -> Option<B>, y: B)
    requires y in FilterMap(s, f)
    ensures exists i :: 0 <= i < |s| && f(s[i]) == Some(y)
  {
    var p := s[..|s| - 1];
    if y in FilterMap(p, f) {
      FilterMapSound(p, f, y);
      var i :| 0 <= i < |p| && f(p[i]) == Some(y);
      assert s[i] == p[i];
    } else {
      assert f(s[|s| - 1]) == Some(y);
    }
  }

  /** Every input element that converts appears in the output. */
  lemma {:induction false} FilterMapComplete<A, B>(s: seq<A>, f: A -> Option<B>, i: nat)
    requires i < |s| && f(s[i]).Some?
    ensures f(s[i]).value in FilterMap(s, f)
  {
    if i < |s| - 1 {
      var p := s[..|s| - 1];
      assert p[i] == s[i];
      FilterMapComplete(p, f, i);
    }
  }

  /** The output is empty exactly when no input element converts. */
  lemma FilterMapEmpty<A, B>(s: seq<A>, f: A -> Option<B>)
    ensures FilterMap(s, f) == [] <==> forall i :: 0 <= i < |s| ==> f(s[i]).None?
  {
    if FilterMap(s, f) == [] {
      forall i | 0 <= i < |s| ensures f(s[i]).None? {
        if f(s[i]).Some? { FilterMapComplete(s, f, i); }
      }
    } else {
      var y := FilterMap(s, f)[0];
      FilterMapSound(s, f, y);
    }
  }

  /** Keeps, in order, the elements that satisfy `keep`. */
  function Filter<T>(s: seq<T>, keep: T -> bool): seq<T> {
    if s == [] then []
    else Filter(s[..|s| - 1], keep) + (if keep(s[|s| - 1]) then [s[|s| - 1]] else [])
  }

  lemma FilterStep<T>(s: seq<T>, i: nat, keep: T -> bool)
    requires i < |s|
    ensures Filter(s[..i + 1], keep) == Filter(s[..i], keep) + (if keep(s[i]) then [s[i]] else [])
  {
    assert s[..i + 1][..i] == s[..i];
  }

  /** What the filter keeps is exactly the elements satisfying `keep`. */
  lemma {:induction false} FilterMembers<T>(s: seq<T>, keep: T -> bool)
    ensures forall x :: x in Filter(s, keep) <==> x in s && keep(x)
    ensures |Filter(s, keep)| <= |s|
  {
    if s != [] {
      FilterMembers(s[..|s| - 1], keep);
      assert s == s[..|s| - 1] + [s[|s| - 1]];
    }
  }

  lemma FilterKeeps<T>(s: seq<T>, keep: T -> bool, y: T)
    requires y in Filter(s, keep)
    ensures keep(y) && y in s
  {
    FilterMembers(s, keep);
  }

  /** Filtering again with the same test removes nothing more. */
  lemma FilterIdempotent<T>(s: seq<T>, keep: T -> bool)
    ensures Filter(Filter(s, keep), keep) == Filter(s, keep)
  {
    FilterMembers(s, keep);
    var f := Filter(s, keep);
    forall i | 0 <= i < |f| ensures keep(f[i]) {
      FilterKeeps(s, keep, f[i]);
    }
    FilterAllKept(f, keep);
  }

  /** The filter keeps everything exactly when every element passes. */
  lemma {:induction false} FilterAllKept<T>(s: seq<T>, keep: T -> bool)
    requires forall i :: 0 <= i < |s| ==> keep(s[i])
    ensures Filter(s, keep) == s
  {
    if s != [] {
      FilterAllKept(s[..|s| - 1], keep);
      assert s == s[..|s| - 1] + [s[|s| - 1]];
    }
  }

  /** Filtering by `p` and then by `q` is filtering once by their conjunction `r`. */
  lemma {:induction false} FilterFilter<T>(s: seq<T>, p: T -> bool, q: T -> bool, r: T -> bool)
    requires forall x :: r(x) == (p(x) && q(x))
    ensures Filter(Filter(s, p), q) == Filter(s, r)
  {
    if s != [] {
      var n := |s| - 1;
      FilterFilter(s[..n], p, q, r);
      var fp := Filter(s[..n], p);
      if p(s[n]) {
        assert Filter(s, p) == fp + [s[n]];
        assert (fp + [s[n]])[..|fp|] == fp;
      } else {
        assert Filter(s, p) == fp;
      }
    }
  }

  /** The first index whose element satisfies `p`, as
      `next((x for x in s if p(x)), None)` finds it. */
  function FirstIndex<T>(s: seq<T>, p: T -> bool): (r: Option<nat>)
    ensures r.Some? ==> r.value < |s| && p(s[r.value])
    ensures r.Some? ==> forall j :: 0 <= j < r.value ==> !p(s[j])
    ensures r.None? <==> forall j :: 0 <= j < |s| ==> !p(s[j])
  {
    if s == [] then None
    else if p(s[0]) then Some(0)
    else match FirstIndex(s[1..], p)
      case None => None
      case Some(k) => Some(k + 1)
  }

  /** The first index is the one before which nothing satisfies `p`. */
  lemma FirstIndexAt<T>(s: seq<T>, p: T -> bool, i: nat)
    requires i < |s| && p(s[i]) && forall j :: 0 <= j < i ==> !p(s[j])
    ensures FirstIndex(s, p) == Some(i)
  {
    var r := FirstIndex(s, p);
    assert r.Some?;
    assert r.value >= i;
  }

  /** With no match yet, an appended match is the first one. */
  lemma FirstIndexAppend<T>(s: seq<T>, x: T, p: T -> bool)
    requires FirstIndex(s, p).None? && p(x)
    ensures FirstIndex(s + [x], p) == Some(|s|)
  {
    var t := s + [x];
    assert t[|s|] == x;
    assert forall j :: 0 <= j < |s| ==> t[j] == s[j];
    FirstIndexAt(t, p, |s|);
  }

  /** The outputs of `f` on the elements of `s`, concatenated in order
      (`for x in s: out.extend(f(x))`). */
  function FlatMap<A, B>(s: seq<A>, f: A -> seq<B>): seq<B> {
    if s == [] then []
    else FlatMap(s[..|s| - 1], f) + f(s[|s| - 1])
  }

  /** One more loop iteration extends the result by the element's outputs. */
  lemma FlatMapStep<A, B>(s: seq<A>, i: nat, f: A -> seq<B>)
    requires i < |s|
    ensures FlatMap(s[..i + 1], f) == FlatMap(s[..i], f) + f(s[i])
  {
    assert s[..i + 1][..i] == s[..i];
  }

  lemma {:induction false} FlatMapAppend<A, B>(a: seq<A>, b: seq<A>, f: A -> seq<B>)
    ensures FlatMap(a + b, f) == FlatMap(a, f) + FlatMap(b, f)
    decreases |b|
  {
    if b != [] {
      assert (a + b)[..|a + b| - 1] == a + b[..|b| - 1];
      assert (a + b)[|a + b| - 1] == b[|b| - 1];
      FlatMapAppend(a, b[..|b| - 1], f);
    } else {
      assert a + b == a;
    }
  }

  /** Every output comes from the outputs of some input element. */
  lemma {:induction false} FlatMapSound<A, B>(s: seq<A>, f: A -> seq<B>, y: B)
    requires y in FlatMap(s, f)
    ensures exists i :: 0 <= i < |s| && y in f(s[i])
  {
    var p := s[..|s| - 1];
    if y in FlatMap(p, f) {
      FlatMapSound(p, f, y);
      var i :| 0 <= i < |p| && y in f(p[i]);
      assert s[i] == p[i];
    }
  }

  /** Every output of every input element appears in the result. */
  lemma {:induction false} FlatMapComplete<A, B>(s: seq<A>, f: A -> seq<B>, i: nat, y: B)
    requires i < |s| && y in f(s[i])
    ensures y in FlatMap(s, f)
  {
    if i < |s| - 1 {
      var p := s[..|s| - 1];
      assert p[i] == s[i];
      FlatMapComplete(p, f, i, y);
    }
  }
}
