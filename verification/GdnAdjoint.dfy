/** The reverse loop of one row is the transpose of the derivative of its forward recurrence.

    The derivative is not taken from the reverse pass: it is what the forward recurrence yields
    when it is run on dual numbers. */
module GdnAdjoint {
  import opened Vectors
  import opened GdnRow

  // ---------------------------------------------------------------- the same recurrence on dual numbers

  /** `re + du * eps` with `eps * eps == 0`. */
  datatype Dual = Dual(re: real, du: real) {
    function Add(y: Dual): Dual { Dual(re + y.re, du + y.du) }
    function Sub(y: Dual): Dual { Dual(re - y.re, du - y.du) }
    function Mul(y: Dual): Dual { Dual(re * y.re, re * y.du + du * y.re) }
  }

  type DVec = seq<Dual>

  datatype DToken = DToken(q: DVec, k: DVec, v: Dual, g: Dual, beta: Dual, mask: bool)

  function DTotal(a: DVec): Dual {
    if |a| == 0 then Dual(0.0, 0.0) else a[0].Add(DTotal(a[1..]))
  }

  function DTimes(a: DVec, b: DVec): (r: DVec)
    requires |a| == |b|
    ensures |r| == |a|
    ensures forall i | 0 <= i < |a| :: r[i] == a[i].Mul(b[i])
  {
    seq(|a|, i requires 0 <= i < |a| => a[i].Mul(b[i]))
  }

  function DDot(a: DVec, b: DVec): Dual
    requires |a| == |b|
  {
    DTotal(DTimes(a, b))
  }

  function DPlus(a: DVec, b: DVec): (r: DVec)
    requires |a| == |b|
    ensures |r| == |a|
    ensures forall i | 0 <= i < |a| :: r[i] == a[i].Add(b[i])
  {
    seq(|a|, i requires 0 <= i < |a| => a[i].Add(b[i]))
  }

  function DScale(c: Dual, a: DVec): (r: DVec)
    ensures |r| == |a|
    ensures forall i | 0 <= i < |a| :: r[i] == c.Mul(a[i])
  {
    seq(|a|, i requires 0 <= i < |a| => c.Mul(a[i]))
  }

  function DDelta(s: DVec, x: DToken): Dual
    requires |x.k| == |s|
  {
    x.beta.Mul(x.v.Sub(DDot(DScale(x.g, s), x.k)))
  }

  function DUpdated(s: DVec, x: DToken): (r: DVec)
    requires |x.k| == |s|
    ensures |r| == |s|
  {
    DPlus(DScale(x.g, s), DScale(DDelta(s, x), x.k))
  }

  function DNext(s: DVec, x: DToken): (r: DVec)
    requires |x.k| == |s|
    ensures |r| == |s|
  {
    if x.mask then DUpdated(s, x) else s
  }

  function DOut(s: DVec, x: DToken): Dual
    requires |x.k| == |x.q| == |s|
  {
    if x.mask then DDot(DUpdated(s, x), x.q) else Dual(0.0, 0.0)
  }

  ghost predicate DFits(n: nat, xs: seq<DToken>) {
    forall t | 0 <= t < |xs| :: |xs[t].q| == n && |xs[t].k| == n
  }

  function DRun(s: DVec, xs: seq<DToken>): (r: DVec)
    requires DFits(|s|, xs)
    ensures |r| == |s|
    decreases |xs|
  {
    if xs == [] then s else DRun(DNext(s, xs[0]), xs[1..])
  }

  function DOuts(s: DVec, xs: seq<DToken>): (r: seq<Dual>)
    requires DFits(|s|, xs)
    ensures |r| == |xs|
    decreases |xs|
  {
    if xs == [] then [] else [DOut(s, xs[0])] + DOuts(DNext(s, xs[0]), xs[1..])
  }

  function Re(a: seq<Dual>): (r: Vec)
    ensures |r| == |a|
  {
    seq(|a|, i requires 0 <= i < |a| => a[i].re)
  }

  function Du(a: seq<Dual>): (r: Vec)
    ensures |r| == |a|
  {
    seq(|a|, i requires 0 <= i < |a| => a[i].du)
  }

  /** Attach the tangent `d` to the primal vector `a`. */
  function Lift(a: Vec, d: Vec): (r: DVec)
    requires |a| == |d|
    ensures |r| == |a|
  {
    seq(|a|, i requires 0 <= i < |a| => Dual(a[i], d[i]))
  }

  function LiftToken(x: Token, d: Direction): (r: DToken)
    requires |x.q| == |d.q| && |x.k| == |d.k|
    ensures |r.q| == |x.q| && |r.k| == |x.k|
  {
    DToken(Lift(x.q, d.q), Lift(x.k, d.k), Dual(x.v, d.v), Dual(x.g, d.g), Dual(x.beta, d.beta), x.mask)
  }

  function LiftAll(n: nat, xs: seq<Token>, ds: seq<Direction>): (r: seq<DToken>)
    requires |xs| == |ds| && Fits(n, xs) && FitsDirections(n, ds)
    ensures |r| == |xs| && DFits(n, r)
    ensures forall t | 0 <= t < |xs| :: r[t] == LiftToken(xs[t], ds[t])
  {
    seq(|xs|, t requires 0 <= t < |xs| => LiftToken(xs[t], ds[t]))
  }

  // ---------------------------------------------------------------- dual numbers carry primal and tangent

  lemma {:induction false} DTotalParts(a: DVec)
    ensures DTotal(a) == Dual(Total(Re(a)), Total(Du(a)))
  {
    if |a| > 0 {
      assert Re(a)[1..] == Re(a[1..]) && Du(a)[1..] == Du(a[1..]);
      DTotalParts(a[1..]);
    }
  }

  lemma DDotParts(a: DVec, b: DVec)
    requires |a| == |b|
    ensures DDot(a, b).re == Dot(Re(a), Re(b))
    ensures DDot(a, b).du == Dot(Re(a), Du(b)) + Dot(Du(a), Re(b))
  {
    var p := DTimes(a, b);
    var x, y := Times(Re(a), Du(b)), Times(Du(a), Re(b));
    forall i | 0 <= i < |a|
      ensures Re(p)[i] == Times(Re(a), Re(b))[i] && Du(p)[i] == Plus(x, y)[i]
    {
      assert p[i] == a[i].Mul(b[i]);
      assert Re(a)[i] == a[i].re && Du(a)[i] == a[i].du && Re(b)[i] == b[i].re && Du(b)[i] == b[i].du;
    }
    assert Re(p) == Times(Re(a), Re(b)) && Du(p) == Plus(x, y);
    DTotalParts(p);
    TotalPlus(x, y);
  }

  lemma LiftParts(a: Vec, d: Vec)
    requires |a| == |d|
    ensures Re(Lift(a, d)) == a && Du(Lift(a, d)) == d
  {
  }

  lemma DPlusParts(a: DVec, b: DVec)
    requires |a| == |b|
    ensures Re(DPlus(a, b)) == Plus(Re(a), Re(b))
    ensures Du(DPlus(a, b)) == Plus(Du(a), Du(b))
  {
  }

  lemma DScaleParts(c: Dual, a: DVec)
    ensures Re(DScale(c, a)) == Scale(c.re, Re(a))
    ensures Du(DScale(c, a)) == Plus(Scale(c.re, Du(a)), Scale(c.du, Re(a)))
  {
    forall i | 0 <= i < |a|
      ensures Re(DScale(c, a))[i] == Scale(c.re, Re(a))[i]
      ensures Du(DScale(c, a))[i] == Plus(Scale(c.re, Du(a)), Scale(c.du, Re(a)))[i]
    {
      assert DScale(c, a)[i] == c.Mul(a[i]);
      assert Re(a)[i] == a[i].re && Du(a)[i] == a[i].du;
    }
  }

  /** Tangent of the decayed state. */
  function DecayedDot(s: DVec, x: Token, d: Direction): (r: Vec)
    ensures |r| == |s|
  {
    Plus(Scale(x.g, Du(s)), Scale(d.g, Re(s)))
  }

  lemma DDeltaParts(s: DVec, x: Token, d: Direction)
    requires |x.q| == |x.k| == |d.q| == |d.k| == |s|
    ensures var dl := DDelta(s, LiftToken(x, d));
            && dl.re == Delta(Re(s), x)
            && dl.du == x.beta * (d.v - (Dot(Decayed(Re(s), x), d.k) + Dot(DecayedDot(s, x, d), x.k)))
                        + d.beta * Residual(Re(s), x)
  {
    hide Dot, DDot, Plus, Scale, DScale;
    var y := LiftToken(x, d);
    DScaleParts(y.g, s);
    DDotParts(DScale(y.g, s), y.k);
    LiftParts(x.k, d.k);
  }

  /** Primal and tangent of the state after one active step. */
  lemma DUpdatedParts(s: DVec, x: Token, d: Direction)
    requires |x.q| == |x.k| == |d.q| == |d.k| == |s|
    ensures var dl := DDelta(s, LiftToken(x, d));
            && Re(DUpdated(s, LiftToken(x, d))) == Updated(Re(s), x)
            && Du(DUpdated(s, LiftToken(x, d)))
               == Plus(DecayedDot(s, x, d), Plus(Scale(dl.re, d.k), Scale(dl.du, x.k)))
  {
    hide Dot, DDot, Plus, Scale, DScale, DPlus;
    var y := LiftToken(x, d);
    DDeltaParts(s, x, d);
    DScaleParts(y.g, s);
    DScaleParts(DDelta(s, y), y.k);
    DPlusParts(DScale(y.g, s), DScale(DDelta(s, y), y.k));
    LiftParts(x.k, d.k);
  }

  lemma DStepPrimal(s: DVec, x: Token, d: Direction)
    requires |x.q| == |x.k| == |d.q| == |d.k| == |s|
    ensures Re(DNext(s, LiftToken(x, d))) == Next(Re(s), x)
    ensures DOut(s, LiftToken(x, d)).re == Out(Re(s), x)
  {
    hide Dot, DDot, DUpdated;
    DUpdatedParts(s, x, d);
    LiftParts(x.q, d.q);
    DDotParts(DUpdated(s, LiftToken(x, d)), LiftToken(x, d).q);
  }

  /** Running the recurrence on dual numbers computes the ordinary recurrence in the real parts. */
  lemma {:induction false} DualPrimal(s: DVec, xs: seq<Token>, ds: seq<Direction>)
    requires |xs| == |ds| && Fits(|s|, xs) && FitsDirections(|s|, ds)
    ensures Re(DRun(s, LiftAll(|s|, xs, ds))) == Run(Re(s), xs)
    ensures Re(DOuts(s, LiftAll(|s|, xs, ds))) == Outs(Re(s), xs)
    decreases |xs|
  {
    if xs != [] {
      DStepPrimal(s, xs[0], ds[0]);
      assert LiftAll(|s|, xs, ds)[1..] == LiftAll(|s|, xs[1..], ds[1..]);
      DualPrimal(DNext(s, LiftToken(xs[0], ds[0])), xs[1..], ds[1..]);
    }
  }

  // ---------------------------------------------------------------- adjoint identity

  /** The pairing of the updated state splits along the inputs the update reads. */
  lemma StepAdjointVector(s: DVec, x: Token, d: Direction, dy: real, c: Vec)
    requires |x.q| == |x.k| == |d.q| == |d.k| == |s| == |c|
    requires x.mask
    ensures var gr := StepGrad(Re(s), x, dy, c);
            Dot(DuOf(x, dy, c), Du(DUpdated(s, LiftToken(x, d))))
            == PairUpdate(gr, d) + Dot(StepCarry(x, dy, c), Du(s))
  {
    hide Dot, DDot, Plus, Scale, DUpdated, DDelta, Delta, Residual, DuOf, DrOf;
    var du, dp, dr := DuOf(x, dy, c), DpOf(x, dy, c), DrOf(x, dy, c);
    var p := DecayedDot(s, x, d);
    var dl := DDelta(s, LiftToken(x, d));
    var dec := Decayed(Re(s), x);
    DDeltaParts(s, x, d);
    DUpdatedParts(s, x, d);
    DotPlus(p, Plus(Scale(dl.re, d.k), Scale(dl.du, x.k)), du);
    DotAxpy(Scale(dl.re, d.k), dl.du, x.k, du);
    DotScale(dl.re, du, d.k);
    DotAxpy(Scale(dl.re, du), dr, dec, d.k);
    DotAxpy(du, dr, x.k, p);
    DotComm(x.k, p);
    DotAxpy(Scale(x.g, Du(s)), d.g, Re(s), dp);
    DotScale(x.g, dp, Du(s));
    DrNegatesDv(x, dy, c);
    StepAdjointScalars(x.beta, DdOf(x, dy, c), DvOf(x, dy, c), dr, DbOf(Re(s), x, dy, c), Residual(Re(s), x),
                       dl.re, dl.du, d.v, d.beta,
                       Dot(dec, d.k), Dot(p, x.k), Dot(x.k, p), Dot(du, p), Dot(du, d.k), Dot(dp, p));
  }

  lemma DrNegatesDv(x: Token, dy: real, c: Vec)
    requires |x.q| == |x.k| == |c|
    ensures DrOf(x, dy, c) == -DvOf(x, dy, c)
  {
  }

  lemma StepAdjointScalars(beta: real, dd: real, dv: real, dr: real, db: real, r: real, delta: real, deltaDot: real,
                           vDot: real, betaDot: real,
                           decK: real, pK: real, kP: real, duP: real, duK: real, dpP: real)
    requires deltaDot == beta * (vDot - (decK + pK)) + betaDot * r
    requires kP == pK
    requires dv == dd * beta && dr == -dv && db == dd * r
    requires dpP == duP + dr * kP
    ensures duP + (delta * duK + deltaDot * dd)
            == (delta * duK + dr * decK) + dv * vDot + dpP + db * betaDot
  {
    assert deltaDot * dd == dv * (vDot - (decK + pK)) + db * betaDot;
    assert dr * kP == -(dv * pK);
    assert dr * decK == -(dv * decK);
  }

  /** One step: the reverse step is the transpose of the derivative of the forward step. */
  lemma StepAdjoint(s: DVec, x: Token, d: Direction, dy: real, c: Vec)
    requires |x.q| == |x.k| == |d.q| == |d.k| == |s| == |c|
    ensures dy * DOut(s, LiftToken(x, d)).du + Dot(c, Du(DNext(s, LiftToken(x, d))))
            == Pair(StepGrad(Re(s), x, dy, c), d) + Dot(StepCarry(x, dy, c), Du(s))
  {
    if x.mask {
      ActiveStepAdjoint(s, x, d, dy, c);
    } else {
      MaskedStepGrad(Re(s), x, dy, c);
      DotZeros(|s|, d.q);
      DotZeros(|s|, d.k);
    }
  }

  lemma ActiveStepAdjoint(s: DVec, x: Token, d: Direction, dy: real, c: Vec)
    requires |x.q| == |x.k| == |d.q| == |d.k| == |s| == |c|
    requires x.mask
    ensures dy * DOut(s, LiftToken(x, d)).du + Dot(c, Du(DNext(s, LiftToken(x, d))))
            == Pair(StepGrad(Re(s), x, dy, c), d) + Dot(StepCarry(x, dy, c), Du(s))
  {
    hide Dot, DUpdated, Updated, StepCarry, StepGrad, PairUpdate, DuOf, DNext, DOut, LiftToken, Re, Du;
    var y := LiftToken(x, d);
    var u := DUpdated(s, y);
    var gr := StepGrad(Re(s), x, dy, c);
    ActiveOutput(s, x, d);
    ActiveDu(x, dy, c, Du(u));
    ActiveQueryGrad(Re(s), x, d, dy, c);
    StepAdjointVector(s, x, d, dy, c);
    Assemble(dy, DOut(s, y).du, Dot(Updated(Re(s), x), d.q), Dot(Du(u), x.q), Dot(c, Du(u)),
             Dot(DuOf(x, dy, c), Du(u)), Dot(gr.q, d.q), PairUpdate(gr, d), Dot(StepCarry(x, dy, c), Du(s)));
  }

  lemma Assemble(dy: real, out: real, uQdot: real, uDotQ: real, cU: real, duU: real, gq: real, rest: real, carry: real)
    requires out == uQdot + uDotQ && gq == dy * uQdot
    requires duU == cU + dy * uDotQ && duU == rest + carry
    ensures dy * out + cU == gq + rest + carry
  {
  }

  lemma ActiveDu(x: Token, dy: real, c: Vec, u: Vec)
    requires |x.q| == |c| == |u| && x.mask
    ensures Dot(DuOf(x, dy, c), u) == Dot(c, u) + dy * Dot(u, x.q)
  {
    hide Dot, Plus, Scale;
    DotAxpy(c, dy, x.q, u);
    DotComm(x.q, u);
  }

  lemma ActiveOutput(s: DVec, x: Token, d: Direction)
    requires |x.q| == |x.k| == |d.q| == |d.k| == |s| && x.mask
    ensures DNext(s, LiftToken(x, d)) == DUpdated(s, LiftToken(x, d))
    ensures DOut(s, LiftToken(x, d)).du
            == Dot(Updated(Re(s), x), d.q) + Dot(Du(DUpdated(s, LiftToken(x, d))), x.q)
  {
    hide Dot, DDot, DUpdated, Updated;
    DUpdatedParts(s, x, d);
    LiftParts(x.q, d.q);
    DDotParts(DUpdated(s, LiftToken(x, d)), LiftToken(x, d).q);
  }

  lemma ActiveQueryGrad(s: Vec, x: Token, d: Direction, dy: real, c: Vec)
    requires |x.q| == |x.k| == |d.q| == |d.k| == |s| == |c| && x.mask
    ensures Dot(StepGrad(s, x, dy, c).q, d.q) == dy * Dot(Updated(s, x), d.q)
  {
    hide Dot, Updated, Scale, Plus;
    DotScale(dy, Updated(s, x), d.q);
  }

  /** A masked step contributes nothing to any token cotangent. */
  lemma MaskedStepGrad(s: Vec, x: Token, dy: real, c: Vec)
    requires |x.q| == |x.k| == |s| == |c|
    requires !x.mask
    ensures StepGrad(s, x, dy, c) == Direction(Zeros(|s|), Zeros(|s|), 0.0, 0.0, 0.0)
  {
    var z := Zeros(|s|);
    var du := DuOf(x, dy, c);
    assert du == z;
    DotZeros(|s|, x.k);
    assert DvOf(x, dy, c) == 0.0 && DrOf(x, dy, c) == 0.0 && DbOf(s, x, dy, c) == 0.0;
    ScaleZero(Updated(s, x));
    ScaleZero(Decayed(s, x));
    ScaleZero(x.k);
    ScaleZeros(Delta(s, x), |s|);
    assert Plus(z, z) == z;
    DotZeros(|s|, s);
  }

  /** Whole run of one row: output and final-state cotangents paired with the dual-number tangents
      equal the returned gradients paired with the input tangents. */
  lemma {:induction false} RowAdjoint(s: DVec, xs: seq<Token>, ds: seq<Direction>, dys: seq<real>, c: Vec)
    requires |xs| == |ds| == |dys| && Fits(|s|, xs) && FitsDirections(|s|, ds) && |c| == |s|
    ensures var back := Reverse(Re(s), xs, dys, c);
            var run := LiftAll(|s|, xs, ds);
            Dot(dys, Du(DOuts(s, run))) + Dot(c, Du(DRun(s, run)))
            == PairAll(|s|, back.grads, ds) + Dot(back.carry, Du(s))
    decreases |xs|
  {
    hide DOut, DNext, StepGrad, StepCarry, Pair, LiftToken, Dot;
    var run := LiftAll(|s|, xs, ds);
    if xs == [] {
      assert dys == Zeros(0);
      DotZeros(0, Du(DOuts(s, run)));
    } else {
      var s1 := DNext(s, run[0]);
      var later := Reverse(Re(s1), xs[1..], dys[1..], c);
      DStepPrimal(s, xs[0], ds[0]);
      assert run[1..] == LiftAll(|s|, xs[1..], ds[1..]);
      RowAdjoint(s1, xs[1..], ds[1..], dys[1..], c);
      StepAdjoint(s, xs[0], ds[0], dys[0], later.carry);
      DotFirst(dys, Du(DOuts(s, run)));
      MulEqual(dys[0], Du(DOuts(s, run))[0], DOut(s, run[0]).du);
      assert Du(DOuts(s, run))[1..] == Du(DOuts(s1, run[1..]));
      assert Reverse(Re(s), xs, dys, c).grads[1..] == later.grads;
    }
  }
}
