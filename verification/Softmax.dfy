/** Masked, shifted softmax over one row of scores. */
module Softmax {
  import opened Vectors

  /** A score, or the minus infinity that masks it. */
  datatype Score = NegInf | Fin(r: real)

  /** All the proofs need of `np.exp`: it is positive and turns sums into products. */
  ghost predicate Exponential(E: real -> real) {
    (forall x :: E(x) > 0.0) && (forall x, y :: E(x + y) == E(x) * E(y))
  }

  lemma ExpPositive(E: real -> real, x: real)
    requires Exponential(E)
    ensures E(x) > 0.0
  {
  }

  lemma ExpSum(E: real -> real, x: real, y: real)
    requires Exponential(E)
    ensures E(x + y) == E(x) * E(y)
  {
  }

  function Larger(x: Score, y: Score): Score {
    match (x, y)
    case (NegInf, _) => y
    case (_, NegInf) => x
    case (Fin(a), Fin(b)) => if a >= b then x else y
  }

  /** `np.max(scores, axis=-1)`. */
  function MaxOf(xs: seq<Score>): Score {
    if xs == [] then NegInf else Larger(xs[0], MaxOf(xs[1..]))
  }

  /** `np.exp(score - max)`; the exponential of minus infinity is zero. */
  function Raw(E: real -> real, x: Score, m: Score): real {
    match (x, m)
    case (Fin(r), Fin(top)) => E(r - top)
    case _ => 0.0
  }

  function RawAll(E: real -> real, xs: seq<Score>, m: Score): (r: Vec)
    ensures |r| == |xs|
    ensures forall i | 0 <= i < |xs| :: r[i] == Raw(E, xs[i], m)
  {
    seq(|xs|, i requires 0 <= i < |xs| => Raw(E, xs[i], m))
  }

  /** `p = np.exp(scores - max); p /= p.sum()`. A row without any allowed score has no weights. */
  function Weights(E: real -> real, xs: seq<Score>): (r: Vec)
    ensures |r| == |xs|
  {
    var raw := RawAll(E, xs, MaxOf(xs));
    var sum := Total(raw);
    seq(|xs|, i requires 0 <= i < |xs| => if sum == 0.0 then 0.0 else raw[i] / sum)
  }

  predicate SomeFinite(xs: seq<Score>) {
    exists i | 0 <= i < |xs| :: xs[i].Fin?
  }

  lemma {:induction false} MaxIsLargest(xs: seq<Score>)
    ensures MaxOf(xs).NegInf? <==> !SomeFinite(xs)
    ensures MaxOf(xs).Fin? ==> MaxOf(xs) in xs && forall i | 0 <= i < |xs| && xs[i].Fin? :: xs[i].r <= MaxOf(xs).r
  {
    if xs != [] {
      MaxIsLargest(xs[1..]);
      assert xs == [xs[0]] + xs[1..];
      if i :| 0 <= i < |xs| && xs[i].Fin? {
        assert i > 0 ==> xs[1..][i - 1].Fin?;
      }
    }
  }

  /** A raw weight is positive on an allowed score and zero on a masked one. */
  lemma RawSign(E: real -> real, xs: seq<Score>, i: nat)
    requires Exponential(E) && i < |xs|
    ensures xs[i].Fin? ==> Raw(E, xs[i], MaxOf(xs)) > 0.0
    ensures xs[i].NegInf? ==> Raw(E, xs[i], MaxOf(xs)) == 0.0
  {
    hide Exponential;
    MaxIsLargest(xs);
    if xs[i].Fin? {
      ExpPositive(E, xs[i].r - MaxOf(xs).r);
    }
  }

  /** The normaliser is positive as soon as one score is allowed. */
  lemma RawTotalPositive(E: real -> real, xs: seq<Score>)
    requires Exponential(E) && SomeFinite(xs)
    ensures Total(RawAll(E, xs, MaxOf(xs))) > 0.0
  {
    hide Exponential, Raw, MaxOf;
    var raw := RawAll(E, xs, MaxOf(xs));
    forall i | 0 <= i < |xs|
      ensures raw[i] >= 0.0
    {
      RawSign(E, xs, i);
    }
    TotalNonNegative(raw);
    var i :| 0 <= i < |xs| && xs[i].Fin?;
    RawSign(E, xs, i);
    assert raw[i] > 0.0;
  }

  lemma WeightEntry(raw: real, sum: real, w: real)
    requires sum > 0.0 && raw >= 0.0 && w == raw / sum
    ensures w >= 0.0 && raw == sum * w
    ensures raw > 0.0 ==> w > 0.0
    ensures raw == 0.0 ==> w == 0.0
  {
  }

  /** One weight: nonnegative, zero exactly on a masked score, and its share of the raw total. */
  lemma WeightAt(E: real -> real, xs: seq<Score>, i: nat)
    requires Exponential(E) && SomeFinite(xs) && i < |xs|
    ensures Weights(E, xs)[i] >= 0.0 && (Weights(E, xs)[i] == 0.0 <==> xs[i].NegInf?)
    ensures RawAll(E, xs, MaxOf(xs))[i] == Total(RawAll(E, xs, MaxOf(xs))) * Weights(E, xs)[i]
  {
    hide Exponential, Raw, MaxOf, SomeFinite, Total;
    RawTotalPositive(E, xs);
    RawSign(E, xs, i);
    WeightEntry(Raw(E, xs[i], MaxOf(xs)), Total(RawAll(E, xs, MaxOf(xs))), Weights(E, xs)[i]);
  }

  /** Weights are a probability distribution on the allowed scores. */
  lemma WeightsDistribution(E: real -> real, xs: seq<Score>)
    requires Exponential(E) && SomeFinite(xs)
    ensures Total(Weights(E, xs)) == 1.0
    ensures forall i | 0 <= i < |xs| :: Weights(E, xs)[i] >= 0.0
    ensures forall i | 0 <= i < |xs| :: Weights(E, xs)[i] == 0.0 <==> xs[i].NegInf?
  {
    hide Exponential, Raw, MaxOf, Total, SomeFinite;
    var raw, w := RawAll(E, xs, MaxOf(xs)), Weights(E, xs);
    hide Weights, RawAll;
    var sum := Total(raw);
    RawTotalPositive(E, xs);
    forall i | 0 <= i < |xs|
      ensures w[i] >= 0.0 && (w[i] == 0.0 <==> xs[i].NegInf?) && raw[i] == Scale(sum, w)[i]
    {
      WeightAt(E, xs, i);
    }
    assert raw == Scale(sum, w);
    TotalScale(sum, w);
    OneFromScaled(sum, Total(w), Total(Scale(sum, w)));
  }

  lemma OneFromScaled(sum: real, t: real, scaled: real)
    requires sum > 0.0 && scaled == sum * t && scaled == sum
    ensures t == 1.0
  {
    assert sum * (t - 1.0) == 0.0;
  }

  /** Exponentials of the allowed scores themselves, without subtracting the maximum. */
  function Plain(E: real -> real, xs: seq<Score>): (r: Vec)
    ensures |r| == |xs|
    ensures forall i | 0 <= i < |xs| :: r[i] == if xs[i].Fin? then E(xs[i].r) else 0.0
  {
    seq(|xs|, i requires 0 <= i < |xs| => if xs[i].Fin? then E(xs[i].r) else 0.0)
  }

  /** Subtracting the row maximum does not change the weights. */
  lemma ShiftInvariance(E: real -> real, xs: seq<Score>)
    requires Exponential(E) && SomeFinite(xs)
    ensures Total(Plain(E, xs)) > 0.0
    ensures forall i | 0 <= i < |xs| :: Weights(E, xs)[i] == Plain(E, xs)[i] / Total(Plain(E, xs))
  {
    hide Exponential, Total, Plain, MaxOf;
    MaxIsLargest(xs);
    RawTotalPositive(E, xs);
    var top := MaxOf(xs).r;
    var raw, plain := RawAll(E, xs, MaxOf(xs)), Plain(E, xs);
    var c := E(top);
    ExpPositive(E, top);
    forall i | 0 <= i < |xs|
      ensures plain[i] == Scale(c, raw)[i]
    {
      if xs[i].Fin? {
        ExpSum(E, top, xs[i].r - top);
        assert top + (xs[i].r - top) == xs[i].r;
      }
    }
    assert plain == Scale(c, raw);
    TotalScale(c, raw);
    Positive(c, Total(raw));
    forall i | 0 <= i < |xs|
      ensures Weights(E, xs)[i] == plain[i] / Total(plain)
    {
      CancelFactor(c, raw[i], Total(raw), plain[i], Total(plain));
    }
  }

  lemma Positive(x: real, y: real)
    requires x > 0.0 && y > 0.0
    ensures x * y > 0.0
  {
  }

  lemma CancelFactor(c: real, x: real, y: real, cx: real, cy: real)
    requires c > 0.0 && y > 0.0 && cx == c * x && cy == c * y && cy > 0.0
    ensures x / y == cx / cy
  {
    var q := x / y;
    assert q * y == x;
    assert q * cy == c * (q * y) == cx;
  }

  /** Scores masked at the end neither move the maximum nor take weight. */
  lemma {:induction false} MaxIgnoresMask(xs: seq<Score>, n: nat)
    ensures MaxOf(xs + seq(n, i => NegInf)) == MaxOf(xs)
  {
    var masked := seq(n, i => NegInf);
    if xs == [] {
      assert xs + masked == masked;
      MaxIsLargest(masked);
    } else {
      assert (xs + masked)[1..] == xs[1..] + masked;
      MaxIgnoresMask(xs[1..], n);
    }
  }

  lemma WeightsIgnoreMask(E: real -> real, xs: seq<Score>, n: nat)
    ensures Weights(E, xs + seq(n, i => NegInf)) == Weights(E, xs) + Zeros(n)
  {
    var masked := seq(n, i => NegInf);
    var all := xs + masked;
    MaxIgnoresMask(xs, n);
    var m := MaxOf(xs);
    assert RawAll(E, all, m) == RawAll(E, xs, m) + Zeros(n);
    TotalAppend(RawAll(E, xs, m), Zeros(n));
    TotalZeros(n);
    var sum := Total(RawAll(E, xs, m));
    forall i | 0 <= i < |all|
      ensures Weights(E, all)[i] == (Weights(E, xs) + Zeros(n))[i]
    {
      if i >= |xs| {
        assert RawAll(E, all, m)[i] == 0.0;
        assert sum != 0.0 ==> 0.0 / sum == 0.0;
      }
    }
  }

  // ---------------------------------------------------------------- weighted averages

  /** A weighted average of values lies between any bounds of the values that carry weight. */
  lemma AverageBounds(w: Vec, x: Vec, lo: real, hi: real)
    requires |w| == |x| && Total(w) == 1.0
    requires forall i | 0 <= i < |w| :: w[i] >= 0.0 && (w[i] == 0.0 || lo <= x[i] <= hi)
    ensures lo <= Dot(w, x) <= hi
  {
    hide Total;
    var product, low, high := Times(w, x), Scale(lo, w), Scale(hi, w);
    forall i | 0 <= i < |w|
      ensures low[i] <= product[i] <= high[i]
    {
      Between(w[i], x[i], lo, hi, low[i], product[i], high[i]);
    }
    TotalLe(low, product);
    TotalLe(product, high);
    TotalScale(lo, w);
    TotalScale(hi, w);
  }

  lemma Between(w: real, x: real, lo: real, hi: real, low: real, product: real, high: real)
    requires w >= 0.0 && (w == 0.0 || lo <= x <= hi)
    requires low == lo * w && product == w * x && high == hi * w
    ensures low <= product <= high
  {
    if w == 0.0 {
      assert low == product == high == 0.0;
    } else {
      ProductNonNegative(x - lo, w);
      assert (x - lo) * w == product - low;
      ProductNonNegative(hi - x, w);
      assert (hi - x) * w == high - product;
    }
  }

  lemma ProductNonNegative(x: real, y: real)
    requires x >= 0.0 && y >= 0.0
    ensures x * y >= 0.0
  {
  }

  lemma {:induction false} TotalLe(a: Vec, b: Vec)
    requires |a| == |b| && forall i | 0 <= i < |a| :: a[i] <= b[i]
    ensures Total(a) <= Total(b)
  {
    if |a| > 0 {
      TotalLe(a[1..], b[1..]);
    }
  }
}
