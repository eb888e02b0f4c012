/** Two runs of the recurrence from different states, fed the same tokens. */
module GdnStability {
  import opened Vectors
  import opened GdnRow

  function Minus(a: Vec, b: Vec): (r: Vec)
    requires |a| == |b|
    ensures |r| == |a|
  {
    Plus(a, Scale(-1.0, b))
  }

  function Dist2(a: Vec, b: Vec): real
    requires |a| == |b|
  {
    Norm2(Minus(a, b))
  }

  /** On an active step the gate does not amplify and the rank-one correction does not overshoot. */
  ghost predicate Stable(x: Token) {
    x.mask ==> -1.0 <= x.g <= 1.0 && 0.0 <= x.beta * Norm2(x.k) <= 2.0
  }

  /** Energy identity of an active step: the state difference shrinks by exactly the gate and the
      component along the key. */
  lemma StepEnergy(s: Vec, u: Vec, x: Token)
    requires |s| == |u| == |x.k| && x.mask
    ensures var e := Minus(s, u);
            Dist2(Next(s, x), Next(u, x)) == x.g * (x.g * (Norm2(e) - EnergyLoss(x, e)))
  {
    hide Dot, Norm2, Next, EnergyLoss, Overshoot, Plus, Scale, Minus;
    var e := Minus(s, u);
    DifferenceStep(s, u, x);
    ScaledEnergy(x, e);
  }

  lemma ScaledEnergy(x: Token, e: Vec)
    requires |e| == |x.k|
    ensures Norm2(Scale(x.g, Plus(e, Scale(Overshoot(x, e), x.k)))) == x.g * (x.g * (Norm2(e) - EnergyLoss(x, e)))
  {
    hide Dot, Plus, Scale, Overshoot, EnergyLoss;
    var c := Overshoot(x, e);
    var f := Plus(e, Scale(c, x.k));
    DotScale(x.g, f, Scale(x.g, f));
    DotScale(x.g, f, f);
    CorrectedEnergy(x, e);
    MulEqual(x.g, Norm2(f), Norm2(e) - EnergyLoss(x, e));
    MulEqual(x.g, Dot(f, Scale(x.g, f)), x.g * (Norm2(e) - EnergyLoss(x, e)));
  }

  lemma CorrectedEnergy(x: Token, e: Vec)
    requires |e| == |x.k|
    ensures Norm2(Plus(e, Scale(Overshoot(x, e), x.k))) == Norm2(e) - EnergyLoss(x, e)
  {
    hide Dot, Plus, Scale;
    var c := Overshoot(x, e);
    var f := Plus(e, Scale(c, x.k));
    DotAxpy(e, c, x.k, f);
    DotAxpy(e, c, x.k, e);
    DotAxpy(e, c, x.k, x.k);
    DotComm(x.k, e);
    DotComm(x.k, f);
    DotComm(e, f);
    EnergyScalars(x.beta, Dot(e, x.k), Dot(x.k, e), c, Norm2(e), Norm2(x.k), Norm2(f), Dot(e, f), Dot(x.k, f));
  }

  /** What one active step removes from the squared distance, before the gate is applied. */
  function EnergyLoss(x: Token, e: Vec): real
    requires |e| == |x.k|
  {
    (x.beta * (2.0 - x.beta * Norm2(x.k))) * (Dot(e, x.k) * Dot(e, x.k))
  }

  /** Coefficient of the rank-one correction the delta rule applies to a state difference. */
  function Overshoot(x: Token, e: Vec): real
    requires |e| == |x.k|
  {
    -(x.beta * Dot(e, x.k))
  }

  /** The difference of two states evolves without the value input. */
  lemma DifferenceStep(s: Vec, u: Vec, x: Token)
    requires |s| == |u| == |x.k| && x.mask
    ensures var e := Minus(s, u);
            Minus(Next(s, x), Next(u, x)) == Scale(x.g, Plus(e, Scale(Overshoot(x, e), x.k)))
  {
    hide Dot, Delta, Overshoot;
    var e := Minus(s, u);
    var f := Plus(e, Scale(Overshoot(x, e), x.k));
    DeltaDifference(s, u, x);
    forall i | 0 <= i < |s|
      ensures Minus(Next(s, x), Next(u, x))[i] == Scale(x.g, f)[i]
    {
      DifferenceEntry(x.g, s[i], u[i], x.k[i], Delta(s, x), Delta(u, x), Overshoot(x, e));
    }
  }

  lemma DeltaDifference(s: Vec, u: Vec, x: Token)
    requires |s| == |u| == |x.k|
    ensures Delta(s, x) - Delta(u, x) == x.g * Overshoot(x, Minus(s, u))
  {
    hide Dot;
    DotScale(x.g, s, x.k);
    DotScale(x.g, u, x.k);
    DotAxpy(s, -1.0, u, x.k);
    DeltaScalars(x.g, x.beta, x.v, Dot(s, x.k), Dot(u, x.k));
  }

  lemma DeltaScalars(g: real, beta: real, v: real, sk: real, uk: real)
    ensures beta * (v - g * sk) - beta * (v - g * uk) == g * -(beta * (sk + -1.0 * uk))
  {
  }

  lemma DifferenceEntry(g: real, si: real, ui: real, ki: real, ds: real, du: real, c: real)
    requires ds - du == g * c
    ensures (g * si + ds * ki) + -1.0 * (g * ui + du * ki) == g * ((si + -1.0 * ui) + c * ki)
  {
    assert ds * ki - du * ki == (ds - du) * ki == (g * c) * ki;
  }

  lemma EnergyScalars(beta: real, ek: real, ke: real, c: real, ee: real, kk: real, ff: real, ef: real, kf: real)
    requires c == -(beta * ek) && ke == ek
    requires ff == ef + c * kf
    requires ef == ee + c * ke
    requires kf == ek + c * kk
    ensures ff == ee - (beta * (2.0 - beta * kk)) * (ek * ek)
  {
    assert c * kf == c * ek + c * (c * kk);
    assert c * ek == -(beta * (ek * ek));
    assert c * c == (beta * beta) * (ek * ek);
    assert c * (c * kk) == (beta * beta * kk) * (ek * ek);
  }

  lemma EnergyLossNonNegative(x: Token, e: Vec)
    requires |e| == |x.k| && x.mask && Stable(x)
    ensures EnergyLoss(x, e) >= 0.0
  {
    hide Dot;
    var c, n := Dot(e, x.k), Norm2(x.k);
    Norm2NonNegative(x.k);
    Norm2Zero(x.k, e);
    DotComm(e, x.k);
    SquarePositive(c, c * c);
    if n > 0.0 {
      BetaNonNegative(x.beta, n);
      ProductNonNegative(x.beta, 2.0 - x.beta * n);
      ProductNonNegative(x.beta * (2.0 - x.beta * n), c * c);
    }
  }

  lemma BetaNonNegative(beta: real, n: real)
    requires n > 0.0
    ensures beta >= 0.0 || beta * n < 0.0
  {
  }

  lemma ProductNonNegative(a: real, b: real)
    requires a >= 0.0 && b >= 0.0
    ensures a * b >= 0.0
  {
  }

  lemma SquareShrinks(g: real, g2: real, n: real, loss: real)
    requires -1.0 <= g <= 1.0 && 0.0 <= loss && 0.0 <= n && g2 == g * g
    ensures g * (g * (n - loss)) <= g2 * n
    ensures g2 * n <= n
    ensures 0.0 <= g2
  {
    SquarePositive(g, g2);
    ProductNonNegative(1.0 - g, 1.0 + g);
    assert (1.0 - g) * (1.0 + g) == 1.0 - g2;
    ProductNonNegative(1.0 - g2, n);
    ProductNonNegative(g2, loss);
    assert g * (g * (n - loss)) == g2 * n - g2 * loss;
  }

  /** Squared factor by which an active step is guaranteed to contract. */
  function Rate(x: Token): real {
    if x.mask then x.g * x.g else 1.0
  }

  lemma StepStable(s: Vec, u: Vec, x: Token)
    requires |s| == |u| == |x.k| && Stable(x)
    ensures Dist2(Next(s, x), Next(u, x)) <= Rate(x) * Dist2(s, u) <= Dist2(s, u)
    ensures 0.0 <= Rate(x)
  {
    hide EnergyLoss, Norm2, Minus, Updated;
    if x.mask {
      var e := Minus(s, u);
      StepEnergy(s, u, x);
      EnergyLossNonNegative(x, e);
      Norm2NonNegative(e);
      SquareShrinks(x.g, Rate(x), Norm2(e), EnergyLoss(x, e));
    }
  }

  /** Product of the squared gates of the active steps. */
  function Contraction(xs: seq<Token>): real {
    if xs == [] then 1.0 else Contraction(xs[1..]) * Rate(xs[0])
  }

  /** Two runs fed the same tokens never drift apart, and contract by at least the squared gates. */
  lemma {:induction false} RowStable(s: Vec, u: Vec, xs: seq<Token>)
    requires |s| == |u| && Fits(|s|, xs)
    requires forall t | 0 <= t < |xs| :: Stable(xs[t])
    ensures Dist2(Run(s, xs), Run(u, xs)) <= Contraction(xs) * Dist2(s, u)
    ensures Dist2(Run(s, xs), Run(u, xs)) <= Dist2(s, u)
    ensures 0.0 <= Contraction(xs)
    decreases |xs|
  {
    hide Dist2, Next, Rate, Stable;
    if xs != [] {
      var s1, u1 := Next(s, xs[0]), Next(u, xs[0]);
      StepStable(s, u, xs[0]);
      RowStable(s1, u1, xs[1..]);
      Compose(Contraction(xs[1..]), Rate(xs[0]), Dist2(s, u), Dist2(s1, u1), Dist2(Run(s1, xs[1..]), Run(u1, xs[1..])));
    }
  }

  lemma Compose(rest: real, rate: real, before: real, middle: real, after: real)
    requires 0.0 <= rest && 0.0 <= rate
    requires middle <= rate * before && after <= rest * middle
    ensures after <= (rest * rate) * before
    ensures 0.0 <= rest * rate
  {
    ProductNonNegative(rest, rate * before - middle);
    assert rest * (rate * before - middle) == (rest * rate) * before - rest * middle;
    ProductNonNegative(rest, rate);
  }
}
