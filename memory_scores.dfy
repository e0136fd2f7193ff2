// The memory store's score arithmetic: the fusion of a dense and a sparse
// score and min-max normalisation of a score map.
module MemoryScores {

  const Alpha: real := 0.7

  /** `fusion_score`: the dense score weighted by alpha and the sparse by the rest. */
  function FusionScore(dense: real, sparse: real, alpha: real): (r: real)
    ensures alpha == 1.0 ==> r == dense
    ensures alpha == 0.0 ==> r == sparse
  {
    alpha * dense + (1.0 - alpha) * sparse
  }

  /** Scores in [0, 1] fuse to a score in [0, 1] for any weight in [0, 1]. */
  lemma FusionBounds(dense: real, sparse: real, alpha: real)
    requires 0.0 <= alpha <= 1.0 && 0.0 <= dense <= 1.0 && 0.0 <= sparse <= 1.0
    ensures 0.0 <= FusionScore(dense, sparse, alpha) <= 1.0
  {
    var p := alpha * dense;
    var q := (1.0 - alpha) * sparse;
    assert 0.0 <= p <= alpha by { Scale(alpha, dense); }
    assert 0.0 <= q <= 1.0 - alpha by { Scale(1.0 - alpha, sparse); }
    assert FusionScore(dense, sparse, alpha) == p + q;
  }

  lemma Scale(a: real, x: real)
    requires 0.0 <= a && 0.0 <= x <= 1.0
    ensures 0.0 <= a * x <= a
  {
  }

  lemma MulNonneg(a: real, b: real)
    requires 0.0 <= a && 0.0 <= b
    ensures 0.0 <= a * b
  {
  }

  /** The fused score never falls when either score rises. */
  lemma FusionMonotone(d1: real, s1: real, d2: real, s2: real, alpha: real)
    requires 0.0 <= alpha <= 1.0 && d1 <= d2 && s1 <= s2
    ensures FusionScore(d1, s1, alpha) <= FusionScore(d2, s2, alpha)
  {
    MulNonneg(alpha, d2 - d1);
    MulNonneg(1.0 - alpha, s2 - s1);
    var p := alpha * (d2 - d1);
    var q := (1.0 - alpha) * (s2 - s1);
    assert p == alpha * d2 - alpha * d1;
    assert q == (1.0 - alpha) * s2 - (1.0 - alpha) * s1;
  }

  /** With the default weight a perfect dense match outranks a perfect sparse one. */
  lemma DenseOutweighsSparse()
    ensures FusionScore(1.0, 0.0, Alpha) > FusionScore(0.0, 1.0, Alpha)
  {
  }

  function MinScore(m: seq<(string, real)>): (r: real)
    requires m != []
    ensures forall i :: 0 <= i < |m| ==> r <= m[i].1
  {
    if |m| == 1 then m[0].1
    else
      var rest := MinScore(m[1..]);
      if m[0].1 <= rest then m[0].1 else rest
  }

  function MaxScore(m: seq<(string, real)>): (r: real)
    requires m != []
    ensures forall i :: 0 <= i < |m| ==> m[i].1 <= r
  {
    if |m| == 1 then m[0].1
    else
      var rest := MaxScore(m[1..]);
      if rest <= m[0].1 then m[0].1 else rest
  }

  /** Below this spread the scores count as all equal. */
  const Flat: real := 0.000000000001

  /** `_norm_map`: min-max normalisation into [0, 1]; a flat map becomes all 1.0. */
  function NormMap(m: seq<(string, real)>): (r: seq<(string, real)>)
    ensures |r| == |m| && forall i :: 0 <= i < |m| ==> r[i].0 == m[i].0
    ensures m != [] && MaxScore(m) - MinScore(m) < Flat ==> forall i :: 0 <= i < |r| ==> r[i].1 == 1.0
    ensures m != [] && MaxScore(m) - MinScore(m) >= Flat ==> forall i :: 0 <= i < |r| ==>
      r[i].1 == Ratio(m[i].1 - MinScore(m), MaxScore(m) - MinScore(m))
    ensures forall i :: 0 <= i < |r| ==> 0.0 <= r[i].1 <= 1.0
  {
    if m == [] then []
    else
      var lo := MinScore(m);
      var hi := MaxScore(m);
      if hi - lo < Flat then seq(|m|, i requires 0 <= i < |m| => (m[i].0, 1.0))
      else Scaled(m, lo, hi - lo)
  }

  function Scaled(m: seq<(string, real)>, lo: real, d: real): (r: seq<(string, real)>)
    requires d > 0.0 && forall i :: 0 <= i < |m| ==> lo <= m[i].1 <= lo + d
    ensures |r| == |m|
    ensures forall i :: 0 <= i < |m| ==> r[i] == (m[i].0, Ratio(m[i].1 - lo, d))
  {
    if m == [] then []
    else [(m[0].0, Ratio(m[0].1 - lo, d))] + Scaled(m[1..], lo, d)
  }

  /** The share `x` is of `y`. */
  function Ratio(x: real, y: real): (r: real)
    requires 0.0 <= x <= y && y > 0.0
    ensures 0.0 <= r <= 1.0
  {
    x / y
  }

  lemma RatioMonotone(x: real, x2: real, y: real)
    requires 0.0 <= x <= x2 <= y && y > 0.0
    ensures Ratio(x, y) <= Ratio(x2, y)
  {
  }

  /** Normalisation keeps the scores' order. */
  lemma NormMapOrder(m: seq<(string, real)>, i: nat, j: nat)
    requires i < |m| && j < |m| && m[i].1 <= m[j].1
    ensures NormMap(m)[i].1 <= NormMap(m)[j].1
  {
    var lo := MinScore(m);
    var hi := MaxScore(m);
    if hi - lo >= Flat {
      var d := hi - lo;
      var xi := m[i].1 - lo;
      var xj := m[j].1 - lo;
      assert 0.0 <= xi <= xj <= d;
      assert NormMap(m)[i].1 == Ratio(xi, d) && NormMap(m)[j].1 == Ratio(xj, d);
      RatioMonotone(xi, xj, d);
    }
  }
}
