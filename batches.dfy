/**
 * Sequence helpers for the reporter's batches: the column of one descriptor
 * taken from a run of per-frame samples, and the concatenation of flushed
 * batches.
 */
module Batches {
  import opened Wrappers
  import Arith

  /** The values of one slot, in order, over the samples that carry it. */
  function Collected<S, T>(samples: seq<S>, slot: S -> Option<T>): (r: seq<T>)
    ensures |r| <= |samples|
  {
    if samples == [] then []
    else
      var n := |samples| - 1;
      Collected(samples[..n], slot) + (if slot(samples[n]).Some? then [slot(samples[n]).value] else [])
  }

  /** Collecting one more sample appends its value, if it has one, at the end. */
  lemma CollectedAppend<S, T>(samples: seq<S>, x: S, slot: S -> Option<T>)
    ensures Collected(samples + [x], slot) ==
      Collected(samples, slot) + (if slot(x).Some? then [slot(x).value] else [])
  {
    assert (samples + [x])[..|samples|] == samples;
  }

  /** When every sample carries the slot, the column has one value per sample, in order. */
  lemma {:induction false} CollectedAll<S, T>(samples: seq<S>, slot: S -> Option<T>)
    requires forall k :: 0 <= k < |samples| ==> slot(samples[k]).Some?
    ensures |Collected(samples, slot)| == |samples|
    ensures forall k :: 0 <= k < |samples| ==> Collected(samples, slot)[k] == slot(samples[k]).value
  {
    if samples != [] {
      CollectedAll(samples[..|samples| - 1], slot);
    }
  }

  /** When no sample carries the slot, the column is empty. */
  lemma {:induction false} CollectedNone<S, T>(samples: seq<S>, slot: S -> Option<T>)
    requires forall k :: 0 <= k < |samples| ==> slot(samples[k]).None?
    ensures Collected(samples, slot) == []
  {
    if samples != [] {
      CollectedNone(samples[..|samples| - 1], slot);
    }
  }

  /** The groups one after another. */
  function Flatten<T>(groups: seq<seq<T>>): seq<T> {
    if groups == [] then [] else Flatten(groups[..|groups| - 1]) + groups[|groups| - 1]
  }

  lemma FlattenAppend<T>(groups: seq<seq<T>>, g: seq<T>)
    ensures Flatten(groups + [g]) == Flatten(groups) + g
  {
    assert (groups + [g])[..|groups|] == groups;
  }

  /** Groups of n elements each hold n times as many elements as there are groups. */
  lemma {:induction false} FlattenLength<T>(groups: seq<seq<T>>, n: int)
    requires forall i :: 0 <= i < |groups| ==> |groups[i]| == n
    ensures |Flatten(groups)| == |groups| * n
  {
    if groups != [] {
      var m := |groups| - 1;
      FlattenLength(groups[..m], n);
      assert |groups| * n == m * n + n;
    }
  }

  /** x = q * n + r with 0 <= r < n fixes the quotient and the remainder. */
  lemma DivModUnique(x: int, q: int, n: int, r: int)
    requires n > 0 && 0 <= r < n && x == q * n + r
    ensures x / n == q && x % n == r
  {
    var q', r' := x / n, x % n;
    assert q' * n + r' == q * n + r;
    assert (q' - q) * n == r - r';
    Arith.MulSign(q' - q, n);
  }
}
