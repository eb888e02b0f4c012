/** The adjoint identity of `gdn_vjp` over whole tensors. */
module GdnTheorems {
  import opened IntDiv
  import opened Vectors
  import opened Sums
  import opened Tensors
  import opened GdnRow
  import opened GdnAdjoint
  import opened Gdn
  import opened GdnVjp

  // ---------------------------------------------------------------- inner products of tensors

  function Pair4Fibers(x: Tensor4, y: Tensor4, i: int, j: int): real
    requires x.n3 == y.n3
  {
    Sum(x.n2, k => Dot(Fiber4(x, i, j, k), Fiber4(y, i, j, k)))
  }

  function Pair4Batch(x: Tensor4, y: Tensor4, i: int): real
    requires x.n3 == y.n3
  {
    Sum(x.n1, j => Pair4Fibers(x, y, i, j))
  }

  /** The sum of all products of equal entries. */
  function Pair4(x: Tensor4, y: Tensor4): real
    requires x.n3 == y.n3
  {
    Sum(x.n0, i => Pair4Batch(x, y, i))
  }

  function Pair3Batch(x: Tensor3, y: Tensor3, i: int): real
    requires x.n2 == y.n2
  {
    Sum(x.n1, j => Dot(Fiber3(x, i, j), Fiber3(y, i, j)))
  }

  function Pair3(x: Tensor3, y: Tensor3): real
    requires x.n2 == y.n2
  {
    Sum(x.n0, i => Pair3Batch(x, y, i))
  }

  // ---------------------------------------------------------------- tangents by dual numbers

  function RowDirection(a: Args, dx: Inputs, b: int, h: int, d: int, t: int): (r: Direction)
    requires WellFormed(a) && Shaped(a, dx)
    ensures |r.q| == |r.k| == a.Dk()
  {
    Grouping(a);
    Direction(Fiber4(dx.q, b, t, h / a.R()), Fiber4(dx.k, b, t, h / a.R()),
              dx.v.at(b, t, h, d), dx.g.at(b, t, h), dx.beta.at(b, t, h))
  }

  function RowDirections(a: Args, dx: Inputs, b: int, h: int, d: int): (r: seq<Direction>)
    requires WellFormed(a) && Shaped(a, dx)
    ensures |r| == a.T() && FitsDirections(a.Dk(), r)
    ensures forall t | 0 <= t < a.T() :: r[t] == RowDirection(a, dx, b, h, d, t)
  {
    seq(a.T(), t requires 0 <= t < a.T() => RowDirection(a, dx, b, h, d, t))
  }

  /** The inputs of row (b, h, d) as dual numbers: primal `a`, tangent `dx`. */
  function DualTokens(a: Args, dx: Inputs, b: int, h: int, d: int): (r: seq<DToken>)
    requires WellFormed(a) && Shaped(a, dx)
    ensures |r| == a.T() && DFits(a.Dk(), r)
  {
    LiftAll(a.Dk(), RowTokens(a, b, h, d), RowDirections(a, dx, b, h, d))
  }

  function DualState(a: Args, dx: Inputs, b: int, h: int, d: int): (r: DVec)
    requires WellFormed(a) && Shaped(a, dx)
    ensures |r| == a.Dk()
  {
    Lift(RowState(a, b, h, d), Fiber4(dx.state, b, h, d))
  }

  ghost function DualOuts(a: Args, dx: Inputs, b: int, h: int, d: int): (r: seq<Dual>)
    requires WellFormed(a) && Shaped(a, dx)
    ensures |r| == a.T()
  {
    DOuts(DualState(a, dx, b, h, d), DualTokens(a, dx, b, h, d))
  }

  ghost function DualFinal(a: Args, dx: Inputs, b: int, h: int, d: int): (r: DVec)
    requires WellFormed(a) && Shaped(a, dx)
    ensures |r| == a.Dk()
  {
    DRun(DualState(a, dx, b, h, d), DualTokens(a, dx, b, h, d))
  }

  /** Tangent of the outputs when the inputs move along `dx`. */
  ghost function TangentY(a: Args, dx: Inputs): (r: Tensor4)
    requires WellFormed(a) && Shaped(a, dx)
    ensures r.n3 == a.Dv()
  {
    var n := a.T();
    Tensor4(a.B(), n, a.Hv(), a.Dv(), (b, t, h, d) => if 0 <= t < n then DualOuts(a, dx, b, h, d)[t].du else 0.0)
  }

  /** Tangent of the final state. */
  ghost function TangentState(a: Args, dx: Inputs): (r: Tensor4)
    requires WellFormed(a) && Shaped(a, dx)
    ensures r.n3 == a.Dk()
  {
    var n := a.Dk();
    Tensor4(a.B(), a.Hv(), a.Dv(), n, (b, h, d, i) => if 0 <= i < n then DualFinal(a, dx, b, h, d)[i].du else 0.0)
  }

  /** The dual-number run is a run of the oracle: its real parts are the outputs and final state. */
  lemma DualRunsTheOracle(a: Args, dx: Inputs, b: int, h: int, d: int)
    requires WellFormed(a) && Shaped(a, dx)
    ensures Re(DualOuts(a, dx, b, h, d)) == Outs(RowState(a, b, h, d), RowTokens(a, b, h, d))
    ensures Re(DualFinal(a, dx, b, h, d)) == Run(RowState(a, b, h, d), RowTokens(a, b, h, d))
  {
    LiftParts(RowState(a, b, h, d), Fiber4(dx.state, b, h, d));
    DualPrimal(DualState(a, dx, b, h, d), RowTokens(a, b, h, d), RowDirections(a, dx, b, h, d));
  }

  // ---------------------------------------------------------------- one row

  ghost function RowOutputPairing(a: Args, dx: Inputs, dy: Tensor4, b: int, h: int, d: int): real
    requires WellFormed(a) && Shaped(a, dx) && dy.n1 == a.T()
  {
    Dot(RowDy(dy, b, h, d), Du(DualOuts(a, dx, b, h, d)))
  }

  /** Contribution of row (b, h, d) at time t to the pairing of gradients with tangents. */
  ghost function TokenPairing(a: Args, dx: Inputs, dy: Tensor4, ds: Tensor4, b: int, h: int, d: int, t: int): real
    requires WellFormed(a) && Shaped(a, dx) && Cotangents(a, dy, ds)
  {
    if 0 <= t < a.T() then Pair(GradAt(a, dy, ds, b, h, d, t), RowDirection(a, dx, b, h, d, t)) else 0.0
  }

  lemma {:induction false} PairAllSum(n: nat, cs: seq<Direction>, ds: seq<Direction>, f: int -> real)
    requires |cs| == |ds| && FitsDirections(n, cs) && FitsDirections(n, ds)
    requires forall t | 0 <= t < |cs| :: f(t) == Pair(cs[t], ds[t])
    ensures PairAll(n, cs, ds) == Sum(|cs|, f)
    decreases |cs|
  {
    hide Pair;
    if cs == [] {
      SumZero(0, f);
    } else {
      PairAllSum(n, cs[1..], ds[1..], t => f(t + 1));
      SumSplit(1, |cs| - 1, f);
      SumEqual(|cs| - 1, t => f(1 + t), t => f(t + 1));
      SumLast(1, f);
      SumZero(0, f);
    }
  }

  lemma RowIdentity(a: Args, dx: Inputs, dy: Tensor4, ds: Tensor4, b: int, h: int, d: int)
    requires WellFormed(a) && Shaped(a, dx) && Cotangents(a, dy, ds)
    ensures RowOutputPairing(a, dx, dy, b, h, d) + Dot(Fiber4(ds, b, h, d), Fiber4(TangentState(a, dx), b, h, d))
            == Sum(a.T(), t => TokenPairing(a, dx, dy, ds, b, h, d, t))
               + Dot(Fiber4(Gradients(a, dy, ds).state, b, h, d), Fiber4(dx.state, b, h, d))
  {
    hide Dot, Pair, Sum, PairAll, Run, DRun, DOuts, Reverse;
    var s, xs, dirs := DualState(a, dx, b, h, d), RowTokens(a, b, h, d), RowDirections(a, dx, b, h, d);
    LiftParts(RowState(a, b, h, d), Fiber4(dx.state, b, h, d));
    RowAdjoint(s, xs, dirs, RowDy(dy, b, h, d), Fiber4(ds, b, h, d));
    PairAllSum(a.Dk(), RowBack(a, dy, ds, b, h, d).grads, dirs, t => TokenPairing(a, dx, dy, ds, b, h, d, t));
    assert Fiber4(TangentState(a, dx), b, h, d) == Du(DualFinal(a, dx, b, h, d));
    CarryAtStart(a, dy, ds, b, h, d);
    assert Fiber4(Gradients(a, dy, ds).state, b, h, d) == CarryAt(a, dy, ds, b, h, d, 0);
  }

  lemma CarryAtStart(a: Args, dy: Tensor4, ds: Tensor4, b: int, h: int, d: int)
    requires WellFormed(a) && Cotangents(a, dy, ds)
    ensures CarryAt(a, dy, ds, b, h, d, 0) == RowBack(a, dy, ds, b, h, d).carry
  {
    assert RowTokens(a, b, h, d)[0..] == RowTokens(a, b, h, d);
    assert RowDy(dy, b, h, d)[0..] == RowDy(dy, b, h, d);
  }

  // ---------------------------------------------------------------- rows of a head, heads of a group

  /** Pairing of one value head at time t, with the rows already summed. */
  ghost function HeadPairing(a: Args, dx: Inputs, dy: Tensor4, ds: Tensor4, b: int, t: int, h: int): real
    requires WellFormed(a) && Shaped(a, dx) && Cotangents(a, dy, ds) && 0 <= t < a.T()
  {
    var x := RowDirection(a, dx, b, h, 0, t);
    Dot(HeadQ(a, dy, ds, b, t, h), x.q) + Dot(HeadK(a, dy, ds, b, t, h), x.k)
    + Dot(Fiber4(Gradients(a, dy, ds).v, b, t, h), Fiber4(dx.v, b, t, h))
    + HeadG(a, dy, ds, b, t, h) * x.g + HeadBeta(a, dy, ds, b, t, h) * x.beta
  }

  lemma RowsOfHead(a: Args, dx: Inputs, dy: Tensor4, ds: Tensor4, b: int, t: int, h: int)
    requires WellFormed(a) && Shaped(a, dx) && Cotangents(a, dy, ds) && 0 <= t < a.T()
    ensures Sum(a.Dv(), d => TokenPairing(a, dx, dy, ds, b, h, d, t)) == HeadPairing(a, dx, dy, ds, b, t, h)
  {
    hide Dot, Sum, VecSum, GradAt, Gradients, TokenPairing, RowDirection, Shaped, WellFormed, Cotangents;
    var x := RowDirection(a, dx, b, h, 0, t);
    var gq, gk := d => GradAt(a, dy, ds, b, h, d, t).q, d => GradAt(a, dy, ds, b, h, d, t).k;
    var gg, gb := d => GradAt(a, dy, ds, b, h, d, t).g, d => GradAt(a, dy, ds, b, h, d, t).beta;
    var fq, fk := d => Dot(gq(d), x.q), d => Dot(gk(d), x.k);
    var fv := d => GradAt(a, dy, ds, b, h, d, t).v * dx.v.at(b, t, h, d);
    var fg, fb := d => x.g * gg(d), d => x.beta * gb(d);
    var whole := d => TokenPairing(a, dx, dy, ds, b, h, d, t);
    forall d | 0 <= d < a.Dv()
      ensures whole(d) == fq(d) + fk(d) + fv(d) + fg(d) + fb(d)
    {
      TokenTerms(a, dx, dy, ds, b, t, h, d);
    }
    SumFive(a.Dv(), fq, fk, fv, fg, fb, whole);
    DotVecSum(a.Dv(), gq, x.q, fq);
    DotVecSum(a.Dv(), gk, x.k, fk);
    SumScale(a.Dv(), x.g, gg, fg);
    SumScale(a.Dv(), x.beta, gb, fb);
    ValueFiber(a, dx, dy, ds, b, t, h, fv);
  }

  lemma TokenTerms(a: Args, dx: Inputs, dy: Tensor4, ds: Tensor4, b: int, t: int, h: int, d: int)
    requires WellFormed(a) && Shaped(a, dx) && Cotangents(a, dy, ds) && 0 <= t < a.T()
    ensures var (g, x) := (GradAt(a, dy, ds, b, h, d, t), RowDirection(a, dx, b, h, 0, t));
            TokenPairing(a, dx, dy, ds, b, h, d, t)
            == Dot(g.q, x.q) + Dot(g.k, x.k) + g.v * dx.v.at(b, t, h, d) + x.g * g.g + x.beta * g.beta
  {
    hide Dot, GradAt;
  }

  lemma ValueFiber(a: Args, dx: Inputs, dy: Tensor4, ds: Tensor4, b: int, t: int, h: int, f: int -> real)
    requires WellFormed(a) && Shaped(a, dx) && Cotangents(a, dy, ds) && 0 <= t < a.T()
    requires forall d | 0 <= d < a.Dv() :: f(d) == GradAt(a, dy, ds, b, h, d, t).v * dx.v.at(b, t, h, d)
    ensures Sum(a.Dv(), f) == Dot(Fiber4(Gradients(a, dy, ds).v, b, t, h), Fiber4(dx.v, b, t, h))
  {
    hide GradAt, Dot, Sum;
    var u, w := Fiber4(Gradients(a, dy, ds).v, b, t, h), Fiber4(dx.v, b, t, h);
    forall d | 0 <= d < a.Dv()
      ensures f(d) == u[d] * w[d]
    {
      MulSwap(GradAt(a, dy, ds, b, h, d, t).v, dx.v.at(b, t, h, d), u[d], w[d]);
    }
    SumDot(u, w, f);
  }

  /** The members of one group, paired with the vector they share. */
  lemma GroupDot(hk: int, r: nat, f: int -> real, members: int -> Vec, x: Vec)
    requires forall j | 0 <= j < r :: |members(j)| == |x| && f(hk * r + j) == Dot(members(j), x)
    ensures Sum(r, j => f(hk * r + j)) == Dot(VecSum(r, |x|, members), x)
  {
    hide Dot, Sum;
    DotVecSum(r, members, x, j => f(hk * r + j));
  }

  /** Summing over value heads is summing over key heads once each group has been summed. */
  lemma SumByGroups(n: nat, r: nat, f: int -> real, fibers: int -> real)
    requires forall hk | 0 <= hk < n :: Sum(r, j => f(hk * r + j)) == fibers(hk)
    ensures Sum(n * r, f) == Sum(n, fibers)
  {
    hide Sum;
    SumGroups(n, r, f);
    SumEqual(n, i => Sum(r, j => f(i * r + j)), fibers);
  }

  /** Queries and keys: the value heads of a group share them, and their gradients are group sums. */
  lemma HeadsOfGroups(a: Args, dx: Inputs, dy: Tensor4, ds: Tensor4, b: int, t: int)
    requires WellFormed(a) && Shaped(a, dx) && Cotangents(a, dy, ds) && 0 <= t < a.T()
    ensures Sum(a.Hv(), h => Dot(HeadQ(a, dy, ds, b, t, h), RowDirection(a, dx, b, h, 0, t).q))
            == Pair4Fibers(Gradients(a, dy, ds).q, dx.q, b, t)
    ensures Sum(a.Hv(), h => Dot(HeadK(a, dy, ds, b, t, h), RowDirection(a, dx, b, h, 0, t).k))
            == Pair4Fibers(Gradients(a, dy, ds).k, dx.k, b, t)
  {
    hide Dot, Sum, HeadQ, HeadK;
    Grouping(a);
    var (r, g) := (a.R(), Gradients(a, dy, ds));
    var fq := h => Dot(HeadQ(a, dy, ds, b, t, h), RowDirection(a, dx, b, h, 0, t).q);
    var fk := h => Dot(HeadK(a, dy, ds, b, t, h), RowDirection(a, dx, b, h, 0, t).k);
    var fibersQ := hk => Dot(Fiber4(g.q, b, t, hk), Fiber4(dx.q, b, t, hk));
    var fibersK := hk => Dot(Fiber4(g.k, b, t, hk), Fiber4(dx.k, b, t, hk));
    forall hk | 0 <= hk < a.Hk()
      ensures Sum(r, j => fq(hk * r + j)) == fibersQ(hk) && Sum(r, j => fk(hk * r + j)) == fibersK(hk)
    {
      forall j | 0 <= j < r
        ensures fq(hk * r + j) == Dot(MemberQ(a, dy, ds, b, t, hk, j), Fiber4(dx.q, b, t, hk))
        ensures fk(hk * r + j) == Dot(MemberK(a, dy, ds, b, t, hk, j), Fiber4(dx.k, b, t, hk))
      {
        Flatten(hk, r, j);
      }
      GroupDot(hk, r, fq, j => MemberQ(a, dy, ds, b, t, hk, j), Fiber4(dx.q, b, t, hk));
      GroupDot(hk, r, fk, j => MemberK(a, dy, ds, b, t, hk, j), Fiber4(dx.k, b, t, hk));
      assert Fiber4(g.q, b, t, hk) == GroupQ(a, dy, ds, b, t, hk) && Fiber4(g.k, b, t, hk) == GroupK(a, dy, ds, b, t, hk);
    }
    SumByGroups(a.Hk(), r, fq, fibersQ);
    SumByGroups(a.Hk(), r, fk, fibersK);
  }

  // ---------------------------------------------------------------- one batch entry

  lemma HeadsAtTime(a: Args, dx: Inputs, dy: Tensor4, ds: Tensor4, b: int, t: int)
    requires WellFormed(a) && Shaped(a, dx) && Cotangents(a, dy, ds) && 0 <= t < a.T()
    ensures var g := Gradients(a, dy, ds);
            Sum(a.Hv(), h => HeadPairing(a, dx, dy, ds, b, t, h))
            == Pair4Fibers(g.q, dx.q, b, t) + Pair4Fibers(g.k, dx.k, b, t) + Pair4Fibers(g.v, dx.v, b, t)
               + Dot(Fiber3(g.g, b, t), Fiber3(dx.g, b, t)) + Dot(Fiber3(g.beta, b, t), Fiber3(dx.beta, b, t))
  {
    hide Dot, Sum, HeadQ, HeadK, HeadG, HeadBeta, GradAt, GroupQ, GroupK, CarryAt;
    var g := Gradients(a, dy, ds);
    var fq := h => Dot(HeadQ(a, dy, ds, b, t, h), RowDirection(a, dx, b, h, 0, t).q);
    var fk := h => Dot(HeadK(a, dy, ds, b, t, h), RowDirection(a, dx, b, h, 0, t).k);
    var fv := h => Dot(Fiber4(g.v, b, t, h), Fiber4(dx.v, b, t, h));
    var fg := h => HeadG(a, dy, ds, b, t, h) * dx.g.at(b, t, h);
    var fb := h => HeadBeta(a, dy, ds, b, t, h) * dx.beta.at(b, t, h);
    SumFive(a.Hv(), fq, fk, fv, fg, fb, h => HeadPairing(a, dx, dy, ds, b, t, h));
    HeadsOfGroups(a, dx, dy, ds, b, t);
    SumEqual(a.Hv(), fv, k => Dot(Fiber4(g.v, b, t, k), Fiber4(dx.v, b, t, k)));
    var ug, ub := Fiber3(g.g, b, t), Fiber3(g.beta, b, t);
    var wg, wb := Fiber3(dx.g, b, t), Fiber3(dx.beta, b, t);
    forall h | 0 <= h < a.Hv()
      ensures fg(h) == ug[h] * wg[h] && fb(h) == ub[h] * wb[h]
    {
      MulSwap(HeadG(a, dy, ds, b, t, h), dx.g.at(b, t, h), ug[h], wg[h]);
      MulSwap(HeadBeta(a, dy, ds, b, t, h), dx.beta.at(b, t, h), ub[h], wb[h]);
    }
    SumDot(ug, wg, fg);
    SumDot(ub, wb, fb);
  }

  ghost function TokenSums(a: Args, dx: Inputs, dy: Tensor4, ds: Tensor4, b: int, h: int, d: int): real
    requires WellFormed(a) && Shaped(a, dx) && Cotangents(a, dy, ds)
  {
    Sum(a.T(), t => TokenPairing(a, dx, dy, ds, b, h, d, t))
  }

  /** The input side of one batch entry, gathered tensor by tensor. */
  lemma GatherInputs(a: Args, dx: Inputs, dy: Tensor4, ds: Tensor4, b: int)
    requires WellFormed(a) && Shaped(a, dx) && Cotangents(a, dy, ds)
    ensures var g := Gradients(a, dy, ds);
            Sum(a.Hv(), h => Sum(a.Dv(), d => TokenSums(a, dx, dy, ds, b, h, d)))
            == Pair4Batch(g.q, dx.q, b) + Pair4Batch(g.k, dx.k, b) + Pair4Batch(g.v, dx.v, b)
               + Pair3Batch(g.g, dx.g, b) + Pair3Batch(g.beta, dx.beta, b)
  {
    hide Dot, Sum, Gradients, TokenPairing, HeadPairing, Pair4Fibers;
    var g := Gradients(a, dy, ds);
    var f := (t, h, d) => TokenPairing(a, dx, dy, ds, b, h, d, t);
    SumRotate(a.T(), a.Hv(), a.Dv(), f);
    var byTime := t => Sum(a.Hv(), h => Sum(a.Dv(), d => f(t, h, d)));
    var byRow := h => Sum(a.Dv(), d => Sum(a.T(), t => f(t, h, d)));
    forall h | 0 <= h < a.Hv()
      ensures byRow(h) == Sum(a.Dv(), d => TokenSums(a, dx, dy, ds, b, h, d))
    {
      var left, right := d => Sum(a.T(), t => f(t, h, d)), d => TokenSums(a, dx, dy, ds, b, h, d);
      forall d | 0 <= d < a.Dv()
        ensures left(d) == right(d)
      {
        SumEqual(a.T(), t => f(t, h, d), t => TokenPairing(a, dx, dy, ds, b, h, d, t));
      }
      SumEqual(a.Dv(), left, right);
    }
    SumEqual(a.Hv(), byRow, h => Sum(a.Dv(), d => TokenSums(a, dx, dy, ds, b, h, d)));
    var fq, fk := t => Pair4Fibers(g.q, dx.q, b, t), t => Pair4Fibers(g.k, dx.k, b, t);
    var fv := t => Pair4Fibers(g.v, dx.v, b, t);
    var fg := t => Dot(Fiber3(g.g, b, t), Fiber3(dx.g, b, t));
    var fb := t => Dot(Fiber3(g.beta, b, t), Fiber3(dx.beta, b, t));
    forall t | 0 <= t < a.T()
      ensures byTime(t) == fq(t) + fk(t) + fv(t) + fg(t) + fb(t)
    {
      var left, right := h => Sum(a.Dv(), d => f(t, h, d)), h => HeadPairing(a, dx, dy, ds, b, t, h);
      forall h | 0 <= h < a.Hv()
        ensures left(h) == right(h)
      {
        SumEqual(a.Dv(), d => f(t, h, d), d => TokenPairing(a, dx, dy, ds, b, h, d, t));
        RowsOfHead(a, dx, dy, ds, b, t, h);
      }
      SumEqual(a.Hv(), left, right);
      HeadsAtTime(a, dx, dy, ds, b, t);
    }
    SumFive(a.T(), fq, fk, fv, fg, fb, byTime);
  }

  /** The output side of one batch entry, regrouped row by row. */
  lemma GatherOutputs(a: Args, dx: Inputs, dy: Tensor4, b: int)
    requires WellFormed(a) && Shaped(a, dx)
    requires dy.n1 == a.T() && dy.n2 == a.Hv() && dy.n3 == a.Dv()
    ensures Pair4Batch(dy, TangentY(a, dx), b)
            == Sum(a.Hv(), h => Sum(a.Dv(), d => RowOutputPairing(a, dx, dy, b, h, d)))
  {
    hide Dot, Sum, DualOuts;
    var y := TangentY(a, dx);
    var f := (t, h, d) => dy.at(b, t, h, d) * y.at(b, t, h, d);
    SumRotate(a.T(), a.Hv(), a.Dv(), f);
    var byTime := t => Sum(a.Hv(), h => Sum(a.Dv(), d => f(t, h, d)));
    forall t | 0 <= t < a.T()
      ensures byTime(t) == Pair4Fibers(dy, y, b, t)
    {
      var left, right := h => Sum(a.Dv(), d => f(t, h, d)), h => Dot(Fiber4(dy, b, t, h), Fiber4(y, b, t, h));
      forall h | 0 <= h < a.Hv()
        ensures left(h) == right(h)
      {
        SumDot(Fiber4(dy, b, t, h), Fiber4(y, b, t, h), d => f(t, h, d));
      }
      SumEqual(a.Hv(), left, right);
    }
    SumEqual(a.T(), byTime, t => Pair4Fibers(dy, y, b, t));
    var byRow := h => Sum(a.Dv(), d => Sum(a.T(), t => f(t, h, d)));
    var rows := h => Sum(a.Dv(), d => RowOutputPairing(a, dx, dy, b, h, d));
    forall h | 0 <= h < a.Hv()
      ensures byRow(h) == rows(h)
    {
      var left, right := d => Sum(a.T(), t => f(t, h, d)), d => RowOutputPairing(a, dx, dy, b, h, d);
      forall d | 0 <= d < a.Dv()
        ensures left(d) == right(d)
      {
        var u, w := RowDy(dy, b, h, d), Du(DualOuts(a, dx, b, h, d));
        forall t | 0 <= t < a.T()
          ensures f(t, h, d) == u[t] * w[t]
        {
          MulSwap(dy.at(b, t, h, d), y.at(b, t, h, d), u[t], w[t]);
        }
        SumDot(u, w, t => f(t, h, d));
      }
      SumEqual(a.Dv(), left, right);
    }
    SumEqual(a.Hv(), byRow, rows);
  }

  lemma BatchIdentity(a: Args, dx: Inputs, dy: Tensor4, ds: Tensor4, b: int)
    requires WellFormed(a) && Shaped(a, dx) && Cotangents(a, dy, ds)
    ensures var g := Gradients(a, dy, ds);
            Pair4Batch(dy, TangentY(a, dx), b) + Pair4Batch(ds, TangentState(a, dx), b)
            == Pair4Batch(g.q, dx.q, b) + Pair4Batch(g.k, dx.k, b) + Pair4Batch(g.v, dx.v, b)
               + Pair3Batch(g.g, dx.g, b) + Pair3Batch(g.beta, dx.beta, b) + Pair4Batch(g.state, dx.state, b)
  {
    hide Dot, Sum, Gradients, TokenSums, RowOutputPairing, TangentState, TangentY, Pair3Batch;
    var g, s := Gradients(a, dy, ds), TangentState(a, dx);
    var outs := h => Sum(a.Dv(), d => RowOutputPairing(a, dx, dy, b, h, d));
    var tokens := h => Sum(a.Dv(), d => TokenSums(a, dx, dy, ds, b, h, d));
    var finals := h => Pair4Fibers(ds, s, b, h);
    var initials := h => Pair4Fibers(g.state, dx.state, b, h);
    forall h | 0 <= h < a.Hv()
      ensures outs(h) + finals(h) == tokens(h) + initials(h)
    {
      forall d | 0 <= d < a.Dv()
        ensures RowOutputPairing(a, dx, dy, b, h, d) + Dot(Fiber4(ds, b, h, d), Fiber4(s, b, h, d))
                == TokenSums(a, dx, dy, ds, b, h, d) + Dot(Fiber4(g.state, b, h, d), Fiber4(dx.state, b, h, d))
      {
        RowSums(a, dx, dy, ds, b, h, d);
      }
      SumBalance(a.Dv(), d => RowOutputPairing(a, dx, dy, b, h, d), d => Dot(Fiber4(ds, b, h, d), Fiber4(s, b, h, d)),
                 d => TokenSums(a, dx, dy, ds, b, h, d), d => Dot(Fiber4(g.state, b, h, d), Fiber4(dx.state, b, h, d)));
      SumEqual(a.Dv(), d => Dot(Fiber4(ds, b, h, d), Fiber4(s, b, h, d)), k => Dot(Fiber4(ds, b, h, k), Fiber4(s, b, h, k)));
    }
    SumBalance(a.Hv(), outs, finals, tokens, initials);
    GatherOutputs(a, dx, dy, b);
    GatherInputs(a, dx, dy, ds, b);
  }

  lemma RowSums(a: Args, dx: Inputs, dy: Tensor4, ds: Tensor4, b: int, h: int, d: int)
    requires WellFormed(a) && Shaped(a, dx) && Cotangents(a, dy, ds)
    ensures RowOutputPairing(a, dx, dy, b, h, d) + Dot(Fiber4(ds, b, h, d), Fiber4(TangentState(a, dx), b, h, d))
            == TokenSums(a, dx, dy, ds, b, h, d)
               + Dot(Fiber4(Gradients(a, dy, ds).state, b, h, d), Fiber4(dx.state, b, h, d))
  {
    hide Dot, Sum, Gradients, TangentState, TokenPairing, RowOutputPairing;
    RowIdentity(a, dx, dy, ds, b, h, d);
  }

  // ---------------------------------------------------------------- the whole identity

  /** For every shape, mask, input, tangent and cotangent: pairing the output cotangents with the
      dual-number tangents of the outputs equals pairing the returned gradients with the input
      tangents. The reverse pass is the exact transpose of the derivative of the forward pass. */
  lemma AdjointIdentity(a: Args, dx: Inputs, dy: Tensor4, ds: Tensor4)
    requires WellFormed(a) && Shaped(a, dx) && Cotangents(a, dy, ds)
    ensures var g := Gradients(a, dy, ds);
            Pair4(dy, TangentY(a, dx)) + Pair4(ds, TangentState(a, dx))
            == Pair4(g.q, dx.q) + Pair4(g.k, dx.k) + Pair4(g.v, dx.v)
               + Pair3(g.g, dx.g) + Pair3(g.beta, dx.beta) + Pair4(g.state, dx.state)
  {
    hide Sum, Gradients, TangentState, TangentY, Pair3Batch, Pair4Batch;
    var g, y, s := Gradients(a, dy, ds), TangentY(a, dx), TangentState(a, dx);
    var fq, fk, fv := b => Pair4Batch(g.q, dx.q, b), b => Pair4Batch(g.k, dx.k, b), b => Pair4Batch(g.v, dx.v, b);
    var fg, fb := b => Pair3Batch(g.g, dx.g, b), b => Pair3Batch(g.beta, dx.beta, b);
    var fs := b => Pair4Batch(g.state, dx.state, b);
    var outs, finals := b => Pair4Batch(dy, y, b), b => Pair4Batch(ds, s, b);
    var five := b => fq(b) + fk(b) + fv(b) + fg(b) + fb(b);
    forall b | 0 <= b < a.B()
      ensures outs(b) + finals(b) == five(b) + fs(b)
    {
      BatchIdentity(a, dx, dy, ds, b);
    }
    SumBalance(a.B(), outs, finals, five, fs);
    SumFive(a.B(), fq, fk, fv, fg, fb, five);
  }

  // ---------------------------------------------------------------- masked steps

  /** A masked step of a batch entry outputs zero, keeps the state, gets zero gradients in all five
      time-indexed inputs, and passes the state cotangent through unchanged. */
  lemma MaskedStep(a: Args, dy: Tensor4, ds: Tensor4, b: int, t: nat)
    requires WellFormed(a) && Cotangents(a, dy, ds) && t < a.T() && !a.mask.at(b, t)
    ensures forall h, d :: OutAt(a, b, h, d, t) == 0.0 && StateAt(a, b, h, d, t + 1) == StateAt(a, b, h, d, t)
    ensures forall h, d :: CarryAt(a, dy, ds, b, h, d, t) == CarryAt(a, dy, ds, b, h, d, t + 1)
    ensures var g := Gradients(a, dy, ds);
            && (forall h, i | 0 <= i < a.Dk() :: g.q.at(b, t, h, i) == 0.0 && g.k.at(b, t, h, i) == 0.0)
            && (forall h, d :: g.v.at(b, t, h, d) == 0.0)
            && (forall h :: g.g.at(b, t, h) == 0.0 && g.beta.at(b, t, h) == 0.0)
  {
    hide Gradients, StepGrad, Dot;
    forall h, d
      ensures OutAt(a, b, h, d, t) == 0.0 && StateAt(a, b, h, d, t + 1) == StateAt(a, b, h, d, t)
      ensures CarryAt(a, dy, ds, b, h, d, t) == CarryAt(a, dy, ds, b, h, d, t + 1)
      ensures GradAt(a, dy, ds, b, h, d, t) == Direction(Zeros(a.Dk()), Zeros(a.Dk()), 0.0, 0.0, 0.0)
    {
      StateAtNext(a, b, h, d, t);
      CarryAtNext(a, dy, ds, b, h, d, t);
      MaskedStepGrad(StateAt(a, b, h, d, t), RowToken(a, b, h, d, t), dy.at(b, t, h, d), CarryAt(a, dy, ds, b, h, d, t + 1));
    }
    ZeroGradients(a, dy, ds, b, t);
  }

  lemma ZeroGradients(a: Args, dy: Tensor4, ds: Tensor4, b: int, t: nat)
    requires WellFormed(a) && Cotangents(a, dy, ds) && t < a.T()
    requires forall h, d :: GradAt(a, dy, ds, b, h, d, t) == Direction(Zeros(a.Dk()), Zeros(a.Dk()), 0.0, 0.0, 0.0)
    ensures var g := Gradients(a, dy, ds);
            && (forall h, i | 0 <= i < a.Dk() :: g.q.at(b, t, h, i) == 0.0 && g.k.at(b, t, h, i) == 0.0)
            && (forall h, d :: g.v.at(b, t, h, d) == 0.0)
            && (forall h :: g.g.at(b, t, h) == 0.0 && g.beta.at(b, t, h) == 0.0)
  {
    hide GradAt;
    forall h
      ensures HeadQ(a, dy, ds, b, t, h) == Zeros(a.Dk()) && HeadK(a, dy, ds, b, t, h) == Zeros(a.Dk())
      ensures HeadG(a, dy, ds, b, t, h) == 0.0 && HeadBeta(a, dy, ds, b, t, h) == 0.0
    {
      VecSumZero(a.Dv(), a.Dk(), d => GradAt(a, dy, ds, b, h, d, t).q);
      VecSumZero(a.Dv(), a.Dk(), d => GradAt(a, dy, ds, b, h, d, t).k);
      SumZero(a.Dv(), d => GradAt(a, dy, ds, b, h, d, t).g);
      SumZero(a.Dv(), d => GradAt(a, dy, ds, b, h, d, t).beta);
    }
    forall hk
      ensures GroupQ(a, dy, ds, b, t, hk) == Zeros(a.Dk()) && GroupK(a, dy, ds, b, t, hk) == Zeros(a.Dk())
    {
      VecSumZero(a.R(), a.Dk(), j => MemberQ(a, dy, ds, b, t, hk, j));
      VecSumZero(a.R(), a.Dk(), j => MemberK(a, dy, ds, b, t, hk, j));
    }
  }
}
