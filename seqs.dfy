/** Sequence facts shared by the list-editing operations: an order-preserving
    filter, and the sum of a sequence of vectors. */
module Seqs {
  import opened Vectors

  /** The elements of `s` that satisfy `keep`, in their original order. */
  function Filter<T>(keep: T -> bool, s: seq<T>): (r: seq<T>)
    ensures |r| <= |s|
    ensures forall k :: 0 <= k < |r| ==> keep(r[k])
    ensures forall x :: x in r ==> x in s
    decreases |s|
  {
    if s == [] then []
    else if keep(s[0]) then [s[0]] + Filter(keep, s[1..])
    else Filter(keep, s[1..])
  }

  lemma {:induction false} FilterAppend<T>(keep: T -> bool, a: seq<T>, b: seq<T>)
    ensures Filter(keep, a + b) == Filter(keep, a) + Filter(keep, b)
    decreases |a|
  {
    if a != [] {
      assert (a + b)[1..] == a[1..] + b;
      FilterAppend(keep, a[1..], b);
    } else {
      assert a + b == b;
    }
  }

  /** Splicing out an element the filter rejects does not change the filter. */
  lemma {:induction false} FilterSkipsRejected<T>(keep: T -> bool, s: seq<T>, i: nat)
    requires i < |s| && !keep(s[i])
    ensures Filter(keep, s[..i] + s[i + 1..]) == Filter(keep, s)
  {
    assert s == s[..i] + [s[i]] + s[i + 1..];
    FilterAppend(keep, s[..i] + [s[i]], s[i + 1..]);
    FilterAppend(keep, s[..i], [s[i]]);
    FilterAppend(keep, s[..i], s[i + 1..]);
    assert Filter(keep, [s[i]]) == [];
  }

  /** Nothing that satisfies `keep` is dropped. */
  lemma {:induction false} FilterKeepsEverySatisfier<T>(keep: T -> bool, s: seq<T>, x: T)
    requires x in s && keep(x)
    ensures x in Filter(keep, s)
    decreases |s|
  {
    if s[0] != x {
      FilterKeepsEverySatisfier(keep, s[1..], x);
    }
  }

  /** The filter keeps exactly the elements that satisfy `keep`. */
  lemma FilterKeepsExactly<T>(keep: T -> bool, s: seq<T>)
    ensures forall x :: x in Filter(keep, s) <==> x in s && keep(x)
  {
    forall x | x in s && keep(x)
      ensures x in Filter(keep, s)
    {
      FilterKeepsEverySatisfier(keep, s, x);
    }
    forall x | x in Filter(keep, s)
      ensures keep(x)
    {
      var k :| 0 <= k < |Filter(keep, s)| && Filter(keep, s)[k] == x;
    }
  }

  /** A filter leaves the sequence unchanged exactly when every element is kept. */
  lemma {:induction false} FilterIdentity<T>(keep: T -> bool, s: seq<T>)
    ensures Filter(keep, s) == s <==> forall k :: 0 <= k < |s| ==> keep(s[k])
    decreases |s|
  {
    if s != [] {
      FilterIdentity(keep, s[1..]);
      if !keep(s[0]) {
        assert |Filter(keep, s)| < |s|;
      } else {
        if forall k :: 0 <= k < |s[1..]| ==> keep(s[1..][k]) {
          assert s == [s[0]] + s[1..];
        }
        if Filter(keep, s) == s {
          assert Filter(keep, s[1..]) == s[1..];
        }
        assert forall k :: 1 <= k < |s| ==> s[k] == s[1..][k - 1];
      }
    }
  }

  /** Filtering twice is filtering once. */
  lemma FilterIdempotent<T>(keep: T -> bool, s: seq<T>)
    ensures Filter(keep, Filter(keep, s)) == Filter(keep, s)
  {
    FilterIdentity(keep, Filter(keep, s));
  }

  /** Componentwise sum of a sequence of vectors. */
  function VecSum(vs: seq<Vec>): Vec
    decreases |vs|
  {
    if vs == [] then Zero else Add(vs[0], VecSum(vs[1..]))
  }

  /** Replacing one element changes the sum by the difference of the two. */
  lemma {:induction false} VecSumUpdate(vs: seq<Vec>, k: nat, v: Vec)
    requires k < |vs|
    ensures VecSum(vs[k := v]) == Add(Sub(VecSum(vs), vs[k]), v)
    decreases |vs|
  {
    if k > 0 {
      assert vs[k := v][1..] == vs[1..][k - 1 := v];
      VecSumUpdate(vs[1..], k - 1, v);
    } else {
      assert vs[k := v][1..] == vs[1..];
    }
  }

  /** Adding `d` to one element and subtracting it from another leaves the sum
      unchanged. */
  lemma OppositeUpdatesKeepSum(vs: seq<Vec>, i: nat, j: nat, d: Vec)
    requires i < |vs| && j < |vs| && i != j
    ensures VecSum(vs[i := Sub(vs[i], d)][j := Add(vs[j], d)]) == VecSum(vs)
  {
    var ws := vs[i := Sub(vs[i], d)];
    VecSumUpdate(vs, i, Sub(vs[i], d));
    VecSumUpdate(ws, j, Add(vs[j], d));
    assert ws[j] == vs[j];
  }
}
