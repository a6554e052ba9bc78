/** Concatenation of a sequence of sequences, the row-wise shape of `pandas.concat(..., ignore_index=True)`. */
module Seqs {

  /** The concatenation of `xss` in order; defined from the back, as a loop appends. */
  function Flatten<X>(xss: seq<seq<X>>): seq<X>
  {
    if |xss| == 0 then [] else Flatten(xss[..|xss| - 1]) + xss[|xss| - 1]
  }

  /** Flattening distributes over concatenation of the outer sequence. */
  lemma {:induction false} FlattenConcat<X>(a: seq<seq<X>>, b: seq<seq<X>>)
    ensures Flatten(a + b) == Flatten(a) + Flatten(b)
    decreases |b|
  {
    if |b| == 0 {
      assert a + b == a;
    } else {
      assert (a + b)[..|a + b| - 1] == a + b[..|b| - 1];
      FlattenConcat(a, b[..|b| - 1]);
    }
  }

  /** When every part has width `w`, the flattening has `w` elements per part. */
  lemma {:induction false} FlattenUniformLength<X>(xss: seq<seq<X>>, w: nat)
    requires forall i :: 0 <= i < |xss| ==> |xss[i]| == w
    ensures |Flatten(xss)| == w * |xss|
    decreases |xss|
  {
    if |xss| > 0 {
      FlattenUniformLength(xss[..|xss| - 1], w);
      assert w * |xss| == w * (|xss| - 1) + w;
    }
  }

  /** Element `s` of part `u` sits in the flattening right after the parts before `u`. */
  lemma FlattenAt<X>(xss: seq<seq<X>>, u: nat, s: nat)
    requires u < |xss| && s < |xss[u]|
    ensures |Flatten(xss[..u])| + s < |Flatten(xss)|
    ensures Flatten(xss)[|Flatten(xss[..u])| + s] == xss[u][s]
  {
    assert xss[..u + 1] + xss[u + 1..] == xss;
    FlattenConcat(xss[..u + 1], xss[u + 1..]);
    assert xss[..u + 1][..u] == xss[..u];
  }

  /** When every part has width `w`, element `w * u + s` of the flattening is element `s` of part `u`. */
  lemma FlattenUniform<X>(xss: seq<seq<X>>, w: nat, u: nat, s: nat)
    requires forall i :: 0 <= i < |xss| ==> |xss[i]| == w
    requires u < |xss| && s < w
    ensures |Flatten(xss)| == w * |xss|
    ensures w * u + s < w * |xss|
    ensures Flatten(xss)[w * u + s] == xss[u][s]
  {
    FlattenUniformLength(xss, w);
    var before := xss[..u];
    assert forall i :: 0 <= i < |before| ==> |before[i]| == w;
    FlattenUniformLength(before, w);
    FlattenAt(xss, u, s);
    assert |Flatten(before)| + s == w * u + s;
  }

  /** Every element of the flattening comes from some part. */
  lemma {:induction false} FlattenMember<X>(xss: seq<seq<X>>, k: nat)
    requires k < |Flatten(xss)|
    ensures exists i, j :: 0 <= i < |xss| && 0 <= j < |xss[i]| && Flatten(xss)[k] == xss[i][j]
    decreases |xss|
  {
    var n := |xss|;
    var init := xss[..n - 1];
    if k < |Flatten(init)| {
      FlattenMember(init, k);
      var i, j :| 0 <= i < |init| && 0 <= j < |init[i]| && Flatten(init)[k] == init[i][j];
      assert Flatten(xss)[k] == xss[i][j];
    } else {
      assert Flatten(xss)[k] == xss[n - 1][k - |Flatten(init)|];
    }
  }
}
