/**
 * Sequence vocabulary shared by the server tables and the client pages:
 * order-preserving filtering (Python comprehensions with an `if`, JavaScript's
 * `filter`), integer sums, and "distinct keys in order of first occurrence"
 * (the key order of a Python dict filled in a loop).
 */
module Seqs {

  import Wrappers

  /** `a` is `b` with some elements deleted: same relative order, nothing added. */
  ghost predicate Subseq<T>(a: seq<T>, b: seq<T>)
    decreases |b|
  {
    a == [] ||
    (b != [] &&
     ((a[|a| - 1] == b[|b| - 1] && Subseq(a[..|a| - 1], b[..|b| - 1])) ||
      Subseq(a, b[..|b| - 1])))
  }

  ghost predicate Distinct<T>(s: seq<T>) {
    forall i, j :: 0 <= i < j < |s| ==> s[i] != s[j]
  }

  /** The elements of `s` satisfying `p`, in their original order and with their multiplicity. */
  function Filter<T(!new)>(p: T -> bool, s: seq<T>): (r: seq<T>)
    ensures forall x :: x in r <==> x in s && p(x)
  {
    if s == [] then []
    else
      var init := Filter(p, s[..|s| - 1]);
      assert s == s[..|s| - 1] + [s[|s| - 1]];
      if p(s[|s| - 1]) then init + [s[|s| - 1]] else init
  }

  /** Filtering only deletes: what is kept stays in its original order. */
  lemma {:induction false} FilterIsSubseq<T(!new)>(p: T -> bool, s: seq<T>)
    ensures Subseq(Filter(p, s), s)
  {
    if s != [] {
      var init := s[..|s| - 1];
      FilterIsSubseq(p, init);
      var r := Filter(p, s);
      if p(s[|s| - 1]) {
        assert r[..|r| - 1] == Filter(p, init);
      }
    }
  }

  /** Filtering keeps every passing element as often as it occurs, and no other. */
  lemma {:induction false} FilterCounts<T(!new)>(p: T -> bool, s: seq<T>)
    ensures forall x :: p(x) ==> multiset(Filter(p, s))[x] == multiset(s)[x]
    ensures forall x :: !p(x) ==> multiset(Filter(p, s))[x] == 0
  {
    if s != [] {
      var init, last := s[..|s| - 1], s[|s| - 1];
      FilterCounts(p, init);
      assert s == init + [last];
      assert multiset(s) == multiset(init) + multiset{last};
      if p(last) {
        assert Filter(p, s) == Filter(p, init) + [last];
        assert multiset(Filter(p, s)) == multiset(Filter(p, init)) + multiset{last};
      } else {
        assert Filter(p, s) == Filter(p, init);
      }
    }
  }

  /** Filtering with a test every element passes gives the sequence back. */
  lemma {:induction false} FilterKeepsAll<T(!new)>(p: T -> bool, s: seq<T>)
    requires forall i :: 0 <= i < |s| ==> p(s[i])
    ensures Filter(p, s) == s
  {
    if s != [] {
      var init, last := s[..|s| - 1], s[|s| - 1];
      assert forall i :: 0 <= i < |init| ==> init[i] == s[i];
      FilterKeepsAll(p, init);
      assert p(last);
      assert Filter(p, s) == Filter(p, init) + [last];
      assert s == init + [last];
    }
  }

  /** Filtering with a test no element passes gives the empty sequence. */
  lemma {:induction false} FilterDropsAll<T(!new)>(p: T -> bool, s: seq<T>)
    requires forall i :: 0 <= i < |s| ==> !p(s[i])
    ensures Filter(p, s) == []
  {
    if s != [] {
      var init := s[..|s| - 1];
      assert forall i :: 0 <= i < |init| ==> init[i] == s[i];
      FilterDropsAll(p, init);
    }
  }

  lemma {:induction false} SubseqOfSubseq<T>(a: seq<T>, b: seq<T>, c: seq<T>)
    requires Subseq(a, b) && Subseq(b, c)
    ensures Subseq(a, c)
    decreases |c|
  {
    if a == [] || b == [] {
    } else if c == [] {
    } else {
      var a', b', c' := a[..|a| - 1], b[..|b| - 1], c[..|c| - 1];
      if b[|b| - 1] == c[|c| - 1] && Subseq(b', c') {
        if a[|a| - 1] == b[|b| - 1] && Subseq(a', b') {
          SubseqOfSubseq(a', b', c');
        } else {
          SubseqOfSubseq(a, b', c');
        }
      } else {
        SubseqOfSubseq(a, b, c');
      }
    }
  }

  function Sum(s: seq<int>): int {
    if s == [] then 0 else Sum(s[..|s| - 1]) + s[|s| - 1]
  }

  lemma {:induction false} SumAppend(a: seq<int>, b: seq<int>)
    ensures Sum(a + b) == Sum(a) + Sum(b)
    decreases |b|
  {
    if b == [] {
      assert a + b == a;
    } else {
      assert (a + b)[..|a + b| - 1] == a + b[..|b| - 1];
      SumAppend(a, b[..|b| - 1]);
    }
  }

  /** Raising one element by `v` raises the sum by `v`. */
  lemma {:induction false} SumBump(a: seq<int>, b: seq<int>, k: nat, v: int)
    requires |a| == |b| && k < |a| && b[k] == a[k] + v
    requires forall i :: 0 <= i < |a| && i != k ==> b[i] == a[i]
    ensures Sum(b) == Sum(a) + v
  {
    var n := |a| - 1;
    if k == n {
      assert a[..n] == b[..n];
    } else {
      SumBump(a[..n], b[..n], k, v);
    }
  }

  /**
   * Every later element of `r` first occurs in `s` after every earlier one:
   * each occurrence of r[j] in s is preceded by an occurrence of r[i], i < j.
   */
  ghost predicate InFirstOccurrenceOrder<T>(r: seq<T>, s: seq<T>) {
    forall i, j, k :: 0 <= i < j < |r| && 0 <= k < |s| && s[k] == r[j] ==> r[i] in s[..k]
  }

  /** The distinct elements of `s`, each once, in order of first occurrence. */
  function Dedup<T(==,!new)>(s: seq<T>): (r: seq<T>)
    ensures forall x :: x in r <==> x in s
  {
    if s == [] then []
    else
      var init, last := s[..|s| - 1], s[|s| - 1];
      assert s == init + [last];
      var d := Dedup(init);
      if last in init then d else d + [last]
  }

  /** No element is kept twice. */
  lemma {:induction false} DedupDistinct<T(!new)>(s: seq<T>)
    ensures Distinct(Dedup(s))
  {
    if s != [] {
      DedupDistinct(s[..|s| - 1]);
    }
  }

  /** The kept elements come in the order in which they first occur. */
  lemma {:induction false} DedupFirstOccurrence<T(!new)>(s: seq<T>)
    ensures InFirstOccurrenceOrder(Dedup(s), s)
  {
    if s != [] {
      var init, last := s[..|s| - 1], s[|s| - 1];
      DedupFirstOccurrence(init);
      assert s == init + [last];
      assert forall k :: 0 <= k < |init| ==> s[..k] == init[..k];
    }
  }

  /** The index of the first element satisfying `p` (Python's `next((i for ... if ...), None)`). */
  function FirstWhere<T>(s: seq<T>, p: T -> bool): (r: Wrappers.Option<nat>)
    ensures r.Some? ==> r.value < |s| && p(s[r.value]) && forall j :: 0 <= j < r.value ==> !p(s[j])
    ensures r.None? ==> forall j :: 0 <= j < |s| ==> !p(s[j])
  {
    if s == [] then Wrappers.None
    else if p(s[0]) then Wrappers.Some(0)
    else
      var r := FirstWhere(s[1..], p);
      if r.Some? then Wrappers.Some(r.value + 1) else Wrappers.None
  }
}
