/** `Array.prototype.filter` over sequences, with the facts the stores and the task
    list rely on: what is kept, that order is kept, and how it composes. */
module Seqs {

  /** `s.filter(p)` */
  function Filter<T>(s: seq<T>, p: T -> bool): (r: seq<T>)
    ensures |r| <= |s|
    ensures forall i :: 0 <= i < |r| ==> r[i] in s && p(r[i])
    ensures forall i :: 0 <= i < |s| && p(s[i]) ==> s[i] in r
  {
    if s == [] then []
    else
      var init := s[..|s| - 1];
      var r := Filter(init, p) + (if p(s[|s| - 1]) then [s[|s| - 1]] else []);
      assert forall i :: 0 <= i < |s| - 1 ==> s[i] == init[i];
      r
  }

  /** The positions of `s` that `p` keeps, in increasing order. */
  function KeptPositions<T>(s: seq<T>, p: T -> bool): (idx: seq<nat>)
    ensures forall k :: 0 <= k < |idx| ==> idx[k] < |s|
  {
    if s == [] then []
    else KeptPositions(s[..|s| - 1], p) + (if p(s[|s| - 1]) then [|s| - 1] else [])
  }

  ghost predicate StrictlyIncreasing(idx: seq<nat>) {
    forall j, k :: 0 <= j < k < |idx| ==> idx[j] < idx[k]
  }

  /** `r` is `s` read at the increasing positions `idx`, which are exactly the
      positions where `p` holds. */
  ghost predicate ReadsAtKept<T>(s: seq<T>, p: T -> bool, r: seq<T>, idx: seq<nat>) {
    |idx| == |r| &&
    StrictlyIncreasing(idx) &&
    (forall k :: 0 <= k < |idx| ==> idx[k] < |s| && r[k] == s[idx[k]]) &&
    (forall i :: 0 <= i < |s| ==> (i in idx <==> p(s[i])))
  }

  lemma ReadsAtKeptStep<T>(s: seq<T>, p: T -> bool, r0: seq<T>, idx0: seq<nat>)
    requires |s| > 0 && ReadsAtKept(s[..|s| - 1], p, r0, idx0)
    ensures p(s[|s| - 1]) ==> ReadsAtKept(s, p, r0 + [s[|s| - 1]], idx0 + [|s| - 1])
    ensures !p(s[|s| - 1]) ==> ReadsAtKept(s, p, r0, idx0)
  {
    var n := |s|;
    var init := s[..n - 1];
    assert forall i :: 0 <= i < n - 1 ==> init[i] == s[i];
    if p(s[n - 1]) {
      var idx := idx0 + [n - 1];
      var r := r0 + [s[n - 1]];
      forall j, k | 0 <= j < k < |idx| ensures idx[j] < idx[k] {
        if k < |idx0| { assert idx[j] == idx0[j] && idx[k] == idx0[k]; }
      }
      forall i | 0 <= i < n ensures (i in idx <==> p(s[i])) {
        if i < n - 1 {
          assert i in idx <==> i in idx0;
        }
      }
    } else {
      forall i | 0 <= i < n ensures (i in idx0 <==> p(s[i])) {
        if i == n - 1 {
          assert i !in idx0;
        }
      }
    }
  }

  /** `Filter(s, p)` is `s` read at exactly the positions where `p` holds, in their
      original order: a subsequence, nothing reordered, nothing kept twice. */
  lemma {:induction false} FilterIsSubsequence<T>(s: seq<T>, p: T -> bool)
    ensures ReadsAtKept(s, p, Filter(s, p), KeptPositions(s, p))
  {
    if s != [] {
      FilterIsSubsequence(s[..|s| - 1], p);
      ReadsAtKeptStep(s, p, Filter(s[..|s| - 1], p), KeptPositions(s[..|s| - 1], p));
    }
  }

  /** Filtering distributes over concatenation. */
  lemma {:induction false} FilterConcat<T>(a: seq<T>, b: seq<T>, p: T -> bool)
    ensures Filter(a + b, p) == Filter(a, p) + Filter(b, p)
    decreases |b|
  {
    if b != [] {
      var b' := b[..|b| - 1];
      assert (a + b)[..|a + b| - 1] == a + b';
      FilterConcat(a, b', p);
    } else {
      assert a + b == a;
    }
  }

  /** A filter that keeps everything returns its input unchanged. */
  lemma {:induction false} FilterKeepsAll<T>(s: seq<T>, p: T -> bool)
    requires forall i :: 0 <= i < |s| ==> p(s[i])
    ensures Filter(s, p) == s
  {
    if s != [] {
      FilterKeepsAll(s[..|s| - 1], p);
    }
  }

  /** Filtering twice with the same predicate is filtering once. */
  lemma FilterIdempotent<T>(s: seq<T>, p: T -> bool)
    ensures Filter(Filter(s, p), p) == Filter(s, p)
  {
    var r := Filter(s, p);
    assert forall i :: 0 <= i < |r| ==> r[i] in r;
    FilterKeepsAll(r, p);
  }
}
