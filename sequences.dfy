/** Sequence helpers that stand for the JavaScript array operations the ledger code is
    built from: `Array.prototype.filter`, `map`, `findIndex`/`find`, and the
    de-duplication `Array.from(new Set(xs))`, which keeps the first occurrence of each
    value in insertion order. Every recursive definition peels off the LAST element, so
    that facts about a prefix `s[..i]` extend to `s[..i+1]` by one unfolding. */
module Sequences {

  import opened Wrappers

  // ---------------------------------------------------------------------------
  // filter

  /** The elements of `s` that satisfy `keep`, in their original order. */
  function Filter<T>(s: seq<T>, keep: T -> bool): (r: seq<T>)
    ensures |r| <= |s|
    ensures forall k :: 0 <= k < |r| ==> keep(r[k])
    decreases |s|
  {
    if s == [] then []
    else Filter(s[..|s| - 1], keep) + (if keep(s[|s| - 1]) then [s[|s| - 1]] else [])
  }

  /** The positions of `s` whose elements satisfy `keep`, in ascending order. */
  function FilterIndices<T>(s: seq<T>, keep: T -> bool): (idx: seq<nat>)
    decreases |s|
  {
    if s == [] then []
    else FilterIndices(s[..|s| - 1], keep) + (if keep(s[|s| - 1]) then [|s| - 1] else [])
  }

  predicate StrictlyIncreasing(idx: seq<nat>)
  {
    forall i, j :: 0 <= i < j < |idx| ==> idx[i] < idx[j]
  }

  /** `Filter(s, keep)` is the order-preserving subsequence of `s` made of exactly the
      elements that satisfy `keep`: it picks the positions `FilterIndices(s, keep)`, which
      ascend, and a position is picked if and only if its element is kept. */
  lemma {:induction false} FilterIsSubsequence<T>(s: seq<T>, keep: T -> bool)
    ensures |FilterIndices(s, keep)| == |Filter(s, keep)|
    ensures StrictlyIncreasing(FilterIndices(s, keep))
    ensures forall k :: 0 <= k < |FilterIndices(s, keep)| ==>
              FilterIndices(s, keep)[k] < |s| && Filter(s, keep)[k] == s[FilterIndices(s, keep)[k]]
    ensures forall i :: 0 <= i < |s| ==> (keep(s[i]) <==> i in FilterIndices(s, keep))
    decreases |s|
  {
    if s != [] {
      var n := |s| - 1;
      var init := s[..n];
      FilterIsSubsequence(init, keep);
      assert forall i :: 0 <= i < n ==> init[i] == s[i];
      var idx := FilterIndices(init, keep);
      var r := Filter(init, keep);
      if keep(s[n]) {
        assert FilterIndices(s, keep) == idx + [n];
        assert Filter(s, keep) == r + [s[n]];
      } else {
        assert FilterIndices(s, keep) == idx;
        assert Filter(s, keep) == r;
      }
    }
  }

  /** Filtering distributes over concatenation. */
  lemma {:induction false} FilterAppend<T>(a: seq<T>, b: seq<T>, keep: T -> bool)
    ensures Filter(a + b, keep) == Filter(a, keep) + Filter(b, keep)
    decreases |b|
  {
    if b == [] {
      assert a + b == a;
    } else {
      var n := |b| - 1;
      assert (a + b)[..|a + b| - 1] == a + b[..n];
      FilterAppend(a, b[..n], keep);
    }
  }

  /** Filtering is idempotent: everything `Filter` returns already passes `keep`. */
  lemma {:induction false} FilterIdempotent<T>(s: seq<T>, keep: T -> bool)
    ensures Filter(Filter(s, keep), keep) == Filter(s, keep)
    decreases |s|
  {
    if s != [] {
      var n := |s| - 1;
      var tail := if keep(s[n]) then [s[n]] else [];
      FilterIdempotent(s[..n], keep);
      FilterAppend(Filter(s[..n], keep), tail, keep);
      if keep(s[n]) {
        assert Filter(tail, keep) == Filter([], keep) + [s[n]];
      }
    }
  }

  /** Filtering by `p` and then by `q` is filtering once by "`p` and `q`". */
  lemma {:induction false} FilterCompose<T>(s: seq<T>, p: T -> bool, q: T -> bool, both: T -> bool)
    requires forall x :: both(x) == (p(x) && q(x))
    ensures Filter(Filter(s, p), q) == Filter(s, both)
    decreases |s|
  {
    if s != [] {
      var n := |s| - 1;
      var tail := if p(s[n]) then [s[n]] else [];
      FilterCompose(s[..n], p, q, both);
      FilterAppend(Filter(s[..n], p), tail, q);
      if p(s[n]) {
        assert Filter(tail, q) == Filter([], q) + (if q(s[n]) then [s[n]] else []);
      }
    }
  }

  /** When every element passes, filtering returns its input unchanged. */
  lemma {:induction false} FilterKeepsAll<T>(s: seq<T>, keep: T -> bool)
    requires forall k :: 0 <= k < |s| ==> keep(s[k])
    ensures Filter(s, keep) == s
    decreases |s|
  {
    if s != [] {
      var n := |s| - 1;
      FilterKeepsAll(s[..n], keep);
      assert s[..n] + [s[n]] == s;
    }
  }

  // ---------------------------------------------------------------------------
  // map

  /** `f` applied to every element of `s`, in order. */
  function Map<A, B>(s: seq<A>, f: A -> B): (r: seq<B>)
    decreases |s|
  {
    if s == [] then [] else Map(s[..|s| - 1], f) + [f(s[|s| - 1])]
  }

  lemma {:induction false} MapAt<A, B>(s: seq<A>, f: A -> B)
    ensures |Map(s, f)| == |s|
    ensures forall k :: 0 <= k < |s| ==> Map(s, f)[k] == f(s[k])
    decreases |s|
  {
    if s != [] {
      var n := |s| - 1;
      MapAt(s[..n], f);
      assert forall k :: 0 <= k < n ==> s[..n][k] == s[k];
    }
  }

  // ---------------------------------------------------------------------------
  // findIndex / find

  /** The first position of `s` whose element satisfies `p`, or `None` when there is none. */
  function FindIndex<T>(s: seq<T>, p: T -> bool): (r: Option<nat>)
    ensures r.Some? ==> r.value < |s| && p(s[r.value])
    ensures r.Some? ==> forall j :: 0 <= j < r.value ==> !p(s[j])
    ensures r.None? <==> forall j :: 0 <= j < |s| ==> !p(s[j])
    decreases |s|
  {
    if s == [] then None
    else match FindIndex(s[..|s| - 1], p)
      case Some(i) => Some(i)
      case None => if p(s[|s| - 1]) then Some(|s| - 1) else None
  }

  /** Searching a filtered sequence finds the element that a search of the whole
      sequence for "kept and matching" finds. */
  lemma {:induction false} FindIndexInFilter<T>(s: seq<T>, keep: T -> bool, p: T -> bool, both: T -> bool)
    requires forall x :: both(x) == (keep(x) && p(x))
    ensures FindIndex(Filter(s, keep), p).None? <==> FindIndex(s, both).None?
    ensures FindIndex(Filter(s, keep), p).Some? ==>
              Filter(s, keep)[FindIndex(Filter(s, keep), p).value] == s[FindIndex(s, both).value]
    decreases |s|
  {
    if s != [] {
      var n := |s| - 1;
      var init := s[..n];
      FindIndexInFilter(init, keep, p, both);
      var f := Filter(init, keep);
      var whole := FindIndex(s, both);
      assert FindIndex(init, both).Some? ==> whole == FindIndex(init, both);
      assert FindIndex(init, both).None? ==> whole == if both(s[n]) then Some(n) else None;
      if keep(s[n]) {
        var g := f + [s[n]];
        assert Filter(s, keep) == g;
        assert g[..|f|] == f;
        assert FindIndex(f, p).Some? ==> FindIndex(g, p) == FindIndex(f, p);
        assert FindIndex(f, p).None? ==> FindIndex(g, p) == if p(s[n]) then Some(|f|) else None;
      } else {
        assert Filter(s, keep) == f;
      }
    }
  }

  // ---------------------------------------------------------------------------
  // Array.from(new Set(xs))

  predicate NoDuplicates<T(==)>(s: seq<T>)
  {
    forall i, j :: 0 <= i < j < |s| ==> s[i] != s[j]
  }

  /** The distinct values of `s`, each kept at its first occurrence. */
  function Distinct<T(==)>(s: seq<T>): (r: seq<T>)
    ensures NoDuplicates(r)
    ensures forall k :: 0 <= k < |r| ==> r[k] in s
    ensures forall k :: 0 <= k < |s| ==> s[k] in r
    decreases |s|
  {
    if s == [] then []
    else
      var d := Distinct(s[..|s| - 1]);
      assert s == s[..|s| - 1] + [s[|s| - 1]];
      if s[|s| - 1] in d then d else d + [s[|s| - 1]]
  }

  /** Appending a value adds it to the distinct values unless it is already there. */
  lemma DistinctSnoc<T>(s: seq<T>, x: T)
    ensures Distinct(s + [x]) == if x in Distinct(s) then Distinct(s) else Distinct(s) + [x]
  {
    assert (s + [x])[..|s|] == s;
  }

  /** Where `x` first occurs in `s`. */
  function FirstIndex<T(==)>(s: seq<T>, x: T): (i: nat)
    requires x in s
    ensures i < |s| && s[i] == x && x !in s[..i]
    decreases |s|
  {
    var init := s[..|s| - 1];
    assert s == init + [s[|s| - 1]];
    if x in init then
      var i := FirstIndex(init, x);
      assert s[..i] == init[..i];
      i
    else |s| - 1
  }

  /** `Distinct` lists values in the order in which they first occur in its input. */
  lemma {:induction false} DistinctInFirstSeenOrder<T>(s: seq<T>)
    ensures forall i, j :: 0 <= i < j < |Distinct(s)| ==>
              FirstIndex(s, Distinct(s)[i]) < FirstIndex(s, Distinct(s)[j])
    decreases |s|
  {
    if s != [] {
      var n := |s| - 1;
      var init := s[..n];
      var d := Distinct(init);
      DistinctInFirstSeenOrder(init);
      assert s == init + [s[n]];
      forall x | x in init
        ensures FirstIndex(s, x) == FirstIndex(init, x)
      {
      }
      if s[n] !in d {
        assert FirstIndex(s, s[n]) == n;
        forall i | 0 <= i < |d|
          ensures FirstIndex(s, d[i]) < n
        {
          assert d[i] in init;
        }
      }
    }
  }
}
