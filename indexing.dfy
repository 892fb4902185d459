/** The index bookkeeping of numpy and of list comprehensions that the plotting
    code relies on: `np.arange`, `np.where` and fancy indexing `a[idx]`. */
module Indexing {

  /** `np.arange(n)`: the positions 0 .. n-1. */
  function Range(n: nat): (r: seq<nat>)
    ensures |r| == n
    ensures forall k :: 0 <= k < n ==> r[k] == k
  {
    seq(n, k => k)
  }

  ghost predicate StrictlyIncreasing(s: seq<int>) {
    forall j, k :: 0 <= j < k < |s| ==> s[j] < s[k]
  }

  /** All rows have the same length, as a two-dimensional numpy array needs. */
  ghost predicate Rectangular<X>(rows: seq<seq<X>>) {
    forall i, j :: 0 <= i < |rows| && 0 <= j < |rows| ==> |rows[i]| == |rows[j]|
  }

  /** `np.where(mask)[0]`, and equally `[i for i, m in enumerate(mask) if m]`:
      the positions at which the mask holds, in ascending order. */
  function Where(mask: seq<bool>): (r: seq<nat>)
    ensures StrictlyIncreasing(r)
    ensures forall k :: 0 <= k < |r| ==> r[k] < |mask| && mask[r[k]]
    ensures forall i :: 0 <= i < |mask| && mask[i] ==> i in r
  {
    if |mask| == 0 then []
    else
      var n := |mask| - 1;
      var front := Where(mask[..n]);
      assert forall i :: 0 <= i < n && mask[i] ==> mask[..n][i];
      front + if mask[n] then [n] else []
  }

  /** Fancy indexing `a[idx]`, and equally `[a[i] for i in idx]`. */
  function Gather<X>(a: seq<X>, idx: seq<nat>): (r: seq<X>)
    requires forall k :: 0 <= k < |idx| ==> idx[k] < |a|
    ensures |r| == |idx|
    ensures forall k :: 0 <= k < |idx| ==> r[k] == a[idx[k]]
  {
    seq(|idx|, k requires 0 <= k < |idx| => a[idx[k]])
  }

  /** A mask that holds everywhere selects every position. */
  lemma {:induction false} WhereAll(mask: seq<bool>)
    requires forall i :: 0 <= i < |mask| ==> mask[i]
    ensures Where(mask) == Range(|mask|)
  {
    if |mask| > 0 {
      var n := |mask| - 1;
      WhereAll(mask[..n]);
      assert Range(n) + [n] == Range(n + 1);
    }
  }

  /** Indexing with every position returns the sequence itself. */
  lemma GatherRange<X>(a: seq<X>)
    ensures Gather(a, Range(|a|)) == a
  {
  }
}
