/** Sequence helpers shared by the model: distinctness, and the concatenation that
    lodash's `flatten` performs on an array of arrays. */
module Seqs {

  ghost predicate Distinct<T>(s: seq<T>) {
    forall i, j :: 0 <= i < j < |s| ==> s[i] != s[j]
  }

  /** A prefix of a sequence without repetitions has none, and misses the next element. */
  lemma DistinctPrefix<T>(s: seq<T>, n: nat)
    requires Distinct(s) && n <= |s|
    ensures Distinct(s[..n])
    ensures n < |s| ==> s[n] !in s[..n]
  {
  }

  /** Concatenation of the inner sequences, in order. */
  function Flatten<T>(ss: seq<seq<T>>): seq<T> {
    if |ss| == 0 then [] else Flatten(ss[..|ss| - 1]) + ss[|ss| - 1]
  }

  /** Total length of the inner sequences. */
  function TotalLength<T>(ss: seq<seq<T>>): nat {
    if |ss| == 0 then 0 else TotalLength(ss[..|ss| - 1]) + |ss[|ss| - 1]|
  }

  lemma {:induction false} FlattenLength<T>(ss: seq<seq<T>>)
    ensures |Flatten(ss)| == TotalLength(ss)
  {
    if |ss| > 0 {
      FlattenLength(ss[..|ss| - 1]);
    }
  }

  /** Element j of inner sequence i sits after everything in the inner sequences before it:
      the result is ordered by outer index, then by inner index. */
  lemma {:induction false} FlattenIndex<T>(ss: seq<seq<T>>, i: nat, j: nat)
    requires i < |ss| && j < |ss[i]|
    ensures TotalLength(ss[..i]) + j < |Flatten(ss)|
    ensures Flatten(ss)[TotalLength(ss[..i]) + j] == ss[i][j]
  {
    var init := ss[..|ss| - 1];
    FlattenLength(init);
    FlattenLength(ss);
    if i < |ss| - 1 {
      assert init[..i] == ss[..i];
      FlattenIndex(init, i, j);
    } else {
      assert ss[..i] == init;
    }
  }

  /** FlattenIndex for a known element, with the length of the whole. */
  lemma FlattenAt<T>(ss: seq<seq<T>>, i: nat, j: nat, x: T)
    requires i < |ss| && j < |ss[i]| && ss[i][j] == x
    ensures |Flatten(ss)| == TotalLength(ss)
    ensures TotalLength(ss[..i]) + j < |Flatten(ss)| && Flatten(ss)[TotalLength(ss[..i]) + j] == x
  {
    FlattenLength(ss);
    FlattenIndex(ss, i, j);
  }

  /** Every element of the flattened sequence comes from some inner sequence. */
  lemma {:induction false} FlattenMember<T>(ss: seq<seq<T>>, k: nat)
    requires k < |Flatten(ss)|
    ensures exists i, j :: 0 <= i < |ss| && 0 <= j < |ss[i]| && Flatten(ss)[k] == ss[i][j]
  {
    var init := ss[..|ss| - 1];
    if k < |Flatten(init)| {
      FlattenMember(init, k);
      var i, j :| 0 <= i < |init| && 0 <= j < |init[i]| && Flatten(init)[k] == init[i][j];
      assert ss[i] == init[i];
    } else {
      var j := k - |Flatten(init)|;
      assert Flatten(ss)[k] == ss[|ss| - 1][j];
    }
  }

  lemma {:induction false} FlattenAppend<T>(ss: seq<seq<T>>, s: seq<T>)
    ensures Flatten(ss + [s]) == Flatten(ss) + s
    ensures TotalLength(ss + [s]) == TotalLength(ss) + |s|
  {
    assert (ss + [s])[..|ss|] == ss;
  }

  /** One more inner sequence of a prefix. */
  lemma FlattenPrefixSnoc<T>(ss: seq<seq<T>>, a: nat)
    requires a < |ss|
    ensures Flatten(ss[..a + 1]) == Flatten(ss[..a]) + ss[a]
  {
    assert ss[..a + 1][..a] == ss[..a];
  }

  /** Inner sequences of the same lengths have the same total length. */
  lemma {:induction false} TotalLengthSameShape<A, B>(ss: seq<seq<A>>, ts: seq<seq<B>>)
    requires |ss| == |ts|
    requires forall i :: 0 <= i < |ss| ==> |ss[i]| == |ts[i]|
    ensures TotalLength(ss) == TotalLength(ts)
  {
    if |ss| > 0 {
      TotalLengthSameShape(ss[..|ss| - 1], ts[..|ts| - 1]);
    }
  }

  /** Flattening commutes with a pointwise map: inner sequences related element by element
      by f flatten to sequences related element by element by f. */
  lemma {:induction false} FlattenPointwise<A, B>(ss: seq<seq<A>>, ts: seq<seq<B>>, f: A -> B)
    requires |ss| == |ts|
    requires forall i :: 0 <= i < |ss| ==> |ss[i]| == |ts[i]|
    requires forall i, j :: 0 <= i < |ss| && 0 <= j < |ss[i]| ==> ts[i][j] == f(ss[i][j])
    ensures |Flatten(ts)| == |Flatten(ss)|
    ensures forall k :: 0 <= k < |Flatten(ss)| ==> Flatten(ts)[k] == f(Flatten(ss)[k])
  {
    if |ss| > 0 {
      var n := |ss| - 1;
      FlattenPointwise(ss[..n], ts[..n], f);
    }
  }
}
