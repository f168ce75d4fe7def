/** Order-preserving selection from a sequence: what a Python list
    comprehension `[x for x in s if keep(x)]` computes. */
module Selection {

  /** The positions of `s` whose element satisfies `keep`, in increasing order. */
  function Positions<T>(s: seq<T>, keep: T -> bool): (idx: seq<nat>)
    ensures forall k :: 0 <= k < |idx| ==> idx[k] < |s| && keep(s[idx[k]])
    ensures forall k, l :: 0 <= k < l < |idx| ==> idx[k] < idx[l]
    ensures forall i :: 0 <= i < |s| && keep(s[i]) ==> i in idx
  {
    if s == [] then []
    else
      var n := |s| - 1;
      Positions(s[..n], keep) + (if keep(s[n]) then [n] else [])
  }

  /** The elements of `s` that satisfy `keep`, in their order in `s`. */
  function Filter<T>(s: seq<T>, keep: T -> bool): (r: seq<T>)
    ensures |r| <= |s|
    ensures forall k :: 0 <= k < |r| ==> keep(r[k])
  {
    if s == [] then []
    else
      var n := |s| - 1;
      Filter(s[..n], keep) + (if keep(s[n]) then [s[n]] else [])
  }

  /** `r` lists the elements of `s` at the positions `idx`, in that order. */
  ghost predicate PicksAt<T>(r: seq<T>, s: seq<T>, idx: seq<nat>) {
    |r| == |idx| && forall k :: 0 <= k < |idx| ==> idx[k] < |s| && r[k] == s[idx[k]]
  }

  /** `Filter(s, keep)` is the subsequence of `s` at `Positions(s, keep)`: it
      keeps every element that satisfies `keep`, drops every other one, and
      does not reorder. */
  lemma {:induction false} FilterAtPositions<T>(s: seq<T>, keep: T -> bool)
    ensures PicksAt(Filter(s, keep), s, Positions(s, keep))
  {
    if s != [] {
      var n := |s| - 1;
      var init := s[..n];
      FilterAtPositions(init, keep);
      PicksAtPrefix(Filter(init, keep), init, Positions(init, keep), s);
      if keep(s[n]) {
        PicksAtAppend(Filter(init, keep), s, Positions(init, keep), n);
      }
    }
  }

  /** Picking from a prefix of `s` is picking from `s`. */
  lemma PicksAtPrefix<T>(r: seq<T>, init: seq<T>, idx: seq<nat>, s: seq<T>)
    requires PicksAt(r, init, idx) && init <= s
    ensures PicksAt(r, s, idx)
  {
  }

  lemma PicksAtAppend<T>(r: seq<T>, s: seq<T>, idx: seq<nat>, i: nat)
    requires PicksAt(r, s, idx) && i < |s|
    ensures PicksAt(r + [s[i]], s, idx + [i])
  {
  }

  /** An element is kept exactly when it occurs in `s` and satisfies `keep`. */
  lemma {:induction false} FilterMembership<T>(s: seq<T>, keep: T -> bool, x: T)
    ensures x in Filter(s, keep) <==> x in s && keep(x)
  {
    if s != [] {
      var n := |s| - 1;
      FilterMembership(s[..n], keep, x);
      assert s == s[..n] + [s[n]];
    }
  }
}
