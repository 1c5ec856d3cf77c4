/**
 * Order-preserving filters. Several operations of the system keep, in order,
 * the entries of a list that pass a test (`compactMap`, `filter`, a Python loop
 * with a guarded `append`); their contracts are stated through the positions
 * they keep.
 */
module Indices {

  /** The positions `i` of `xs`, in increasing order, whose entry passes `keep`. */
  function Kept<T>(xs: seq<T>, keep: T -> bool): (r: seq<nat>)
    ensures forall k :: 0 <= k < |r| ==> r[k] < |xs| && keep(xs[r[k]])
    ensures forall a, b :: 0 <= a < b < |r| ==> r[a] < r[b]
    ensures forall i :: 0 <= i < |xs| && keep(xs[i]) ==> i in r
    ensures |r| <= |xs|
  {
    if xs == [] then []
    else
      var init := xs[..|xs| - 1];
      var rest := Kept(init, keep);
      assert forall k :: 0 <= k < |rest| ==> xs[rest[k]] == init[rest[k]];
      rest + (if keep(xs[|xs| - 1]) then [|xs| - 1] else [])
  }

  /** Every kept position holds an entry that passes the test: no other position is kept. */
  lemma KeptExactly<T>(xs: seq<T>, keep: T -> bool, i: int)
    ensures i in Kept(xs, keep) <==> 0 <= i < |xs| && keep(xs[i])
  {
    var r := Kept(xs, keep);
    if i in r {
      var k :| 0 <= k < |r| && r[k] == i;
    }
  }

  /** Keeping everything keeps every position. */
  lemma {:induction false} KeptAll<T>(xs: seq<T>, keep: T -> bool)
    requires forall i :: 0 <= i < |xs| ==> keep(xs[i])
    ensures |Kept(xs, keep)| == |xs|
  {
    if xs != [] {
      var init := xs[..|xs| - 1];
      forall i | 0 <= i < |init| ensures keep(init[i]) {
        assert init[i] == xs[i];
      }
      KeptAll(init, keep);
    }
  }

  /** Extending the list at the end extends the kept positions at the end. */
  lemma KeptSnoc<T>(xs: seq<T>, x: T, keep: T -> bool)
    ensures Kept(xs + [x], keep) == Kept(xs, keep) + (if keep(x) then [|xs|] else [])
  {
    assert (xs + [x])[..|xs|] == xs;
  }

  /** The positions kept from a prefix are a prefix of the positions kept from the whole list. */
  lemma {:induction false} KeptPrefix<T>(xs: seq<T>, keep: T -> bool, j: nat)
    requires j <= |xs|
    ensures Kept(xs[..j], keep) <= Kept(xs, keep)
    decreases |xs| - j
  {
    if j < |xs| {
      KeptPrefix(xs, keep, j + 1);
      assert xs[..j + 1] == xs[..j] + [xs[j]];
      KeptSnoc(xs[..j], xs[j], keep);
    } else {
      assert xs[..j] == xs;
    }
  }

  /** The entries at the given positions, in that order. */
  function Select<T>(xs: seq<T>, idx: seq<nat>): (r: seq<T>)
    requires forall k :: 0 <= k < |idx| ==> idx[k] < |xs|
    ensures |r| == |idx| && forall k :: 0 <= k < |r| ==> r[k] == xs[idx[k]]
  {
    seq(|idx|, k requires 0 <= k < |idx| => xs[idx[k]])
  }
}
