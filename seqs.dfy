/**
 * `Array.prototype.filter` and `map`, and what filter promises: exactly the kept elements, in
 * their original order.
 */
module Seqs {

  function Filter<T>(p: T -> bool, xs: seq<T>): (r: seq<T>)
    ensures |r| <= |xs|
    ensures forall k :: 0 <= k < |r| ==> p(r[k]) && r[k] in xs
  {
    if xs == [] then [] else (if p(xs[0]) then [xs[0]] else []) + Filter(p, xs[1..])
  }

  /** An element survives the filter exactly when it is in the input and satisfies p. */
  lemma {:induction false} FilterMember<T>(p: T -> bool, xs: seq<T>, x: T)
    ensures x in Filter(p, xs) <==> x in xs && p(x)
  {
    if xs != [] {
      FilterMember(p, xs[1..], x);
      assert xs == [xs[0]] + xs[1..];
    }
  }

  /** Filtering distributes over concatenation. */
  lemma {:induction false} FilterAppend<T>(p: T -> bool, xs: seq<T>, ys: seq<T>)
    ensures Filter(p, xs + ys) == Filter(p, xs) + Filter(p, ys)
  {
    if xs != [] {
      assert (xs + ys)[1..] == xs[1..] + ys;
      FilterAppend(p, xs[1..], ys);
    } else {
      assert xs + ys == ys;
    }
  }

  /** A filter that rejects nothing is the identity. */
  lemma {:induction false} FilterKeepsAll<T>(p: T -> bool, xs: seq<T>)
    requires forall i :: 0 <= i < |xs| ==> p(xs[i])
    ensures Filter(p, xs) == xs
  {
    if xs != [] {
      FilterKeepsAll(p, xs[1..]);
    }
  }

  /** A filter that accepts nothing gives the empty sequence. */
  lemma {:induction false} FilterDropsAll<T>(p: T -> bool, xs: seq<T>)
    requires forall i :: 0 <= i < |xs| ==> !p(xs[i])
    ensures Filter(p, xs) == []
  {
    if xs != [] {
      FilterDropsAll(p, xs[1..]);
    }
  }

  /** `Array.prototype.map` */
  function Map<A, B>(f: A -> B, xs: seq<A>): (r: seq<B>)
    ensures |r| == |xs| && forall i :: 0 <= i < |xs| ==> r[i] == f(xs[i])
  {
    seq(|xs|, i requires 0 <= i < |xs| => f(xs[i]))
  }

  /** Mapping distributes over concatenation. */
  lemma MapAppend<A, B>(f: A -> B, xs: seq<A>, ys: seq<A>)
    ensures Map(f, xs + ys) == Map(f, xs) + Map(f, ys)
  {
    assert forall i :: 0 <= i < |xs + ys| ==> Map(f, xs + ys)[i] == (Map(f, xs) + Map(f, ys))[i];
  }

  function Shift(s: seq<nat>): (r: seq<nat>)
    ensures |r| == |s| && forall k :: 0 <= k < |s| ==> r[k] == s[k] + 1
  {
    if s == [] then [] else [s[0] + 1] + Shift(s[1..])
  }

  predicate Increasing(idx: seq<nat>) {
    forall k, l :: 0 <= k < l < |idx| ==> idx[k] < idx[l]
  }

  /** The positions of the elements of xs that p accepts. */
  function KeptIndices<T>(p: T -> bool, xs: seq<T>): (r: seq<nat>)
    ensures |r| == |Filter(p, xs)|
  {
    if xs == [] then [] else (if p(xs[0]) then [0] else []) + Shift(KeptIndices(p, xs[1..]))
  }

  lemma {:induction false} KeptIndicesPick<T>(p: T -> bool, xs: seq<T>)
    ensures forall k :: 0 <= k < |KeptIndices(p, xs)| ==>
      KeptIndices(p, xs)[k] < |xs| && Filter(p, xs)[k] == xs[KeptIndices(p, xs)[k]]
  {
    if xs != [] {
      KeptIndicesPick(p, xs[1..]);
      var head := if p(xs[0]) then [0] else [];
      assert Filter(p, xs) == (if p(xs[0]) then [xs[0]] else []) + Filter(p, xs[1..]);
      assert KeptIndices(p, xs) == head + Shift(KeptIndices(p, xs[1..]));
    }
  }

  lemma {:induction false} KeptIndicesIncreasing<T>(p: T -> bool, xs: seq<T>)
    ensures Increasing(KeptIndices(p, xs))
  {
    if xs != [] {
      KeptIndicesIncreasing(p, xs[1..]);
      var rest := KeptIndices(p, xs[1..]);
      var head: seq<nat> := if p(xs[0]) then [0] else [];
      var shifted := Shift(rest);
      var idx := head + shifted;
      assert KeptIndices(p, xs) == idx;
      forall k, l | 0 <= k < l < |idx|
        ensures idx[k] < idx[l]
      {
        assert idx[l] == shifted[l - |head|] == rest[l - |head|] + 1;
        if k < |head| {
          assert idx[k] == 0;
        } else {
          assert idx[k] == shifted[k - |head|] == rest[k - |head|] + 1;
          assert rest[k - |head|] < rest[l - |head|];
        }
      }
    }
  }

  lemma {:induction false} KeptIndicesComplete<T>(p: T -> bool, xs: seq<T>)
    ensures forall j :: 0 <= j < |xs| && p(xs[j]) ==> j in KeptIndices(p, xs)
  {
    if xs != [] {
      KeptIndicesComplete(p, xs[1..]);
      var rest := KeptIndices(p, xs[1..]);
      var head := if p(xs[0]) then [0] else [];
      var idx := KeptIndices(p, xs);
      assert idx == head + Shift(rest);
      forall j | 0 <= j < |xs| && p(xs[j])
        ensures j in idx
      {
        if j == 0 {
          assert idx[0] == 0;
        } else {
          assert xs[1..][j - 1] == xs[j];
          var k :| 0 <= k < |rest| && rest[k] == j - 1;
          assert idx[|head| + k] == j;
        }
      }
    }
  }

  /**
   * The filtered sequence is the subsequence of xs picked out by the strictly increasing
   * indices idx, and every element that p accepts has its index among them.
   */
  lemma FilterOrder<T>(p: T -> bool, xs: seq<T>) returns (idx: seq<nat>)
    ensures |idx| == |Filter(p, xs)|
    ensures forall k :: 0 <= k < |idx| ==> idx[k] < |xs| && Filter(p, xs)[k] == xs[idx[k]]
    ensures Increasing(idx)
    ensures forall j :: 0 <= j < |xs| && p(xs[j]) ==> j in idx
  {
    idx := KeptIndices(p, xs);
    KeptIndicesPick(p, xs);
    KeptIndicesIncreasing(p, xs);
    KeptIndicesComplete(p, xs);
  }
}
