/** The hand-written reverse-time loop of the oracle, against the row-level reverse pass. */
module GdnVjp {
  import opened IntDiv
  import opened Vectors
  import opened Sums
  import opened Tensors
  import opened GdnRow
  import opened Gdn

  /** Cotangents the caller supplies have the shapes of the outputs. */
  predicate Cotangents(a: Args, dy: Tensor4, ds: Tensor4) {
    && dy.n0 == a.B() && dy.n1 == a.T() && dy.n2 == a.Hv() && dy.n3 == a.Dv()
    && SameShape4(ds, a.state)
  }

  // ---------------------------------------------------------------- what the reverse loop must return

  ghost function RowBack(a: Args, dy: Tensor4, ds: Tensor4, b: int, h: int, d: int): (r: Back)
    requires WellFormed(a) && Cotangents(a, dy, ds)
    ensures |r.grads| == a.T() && |r.carry| == a.Dk() && FitsDirections(a.Dk(), r.grads)
  {
    Reverse(RowState(a, b, h, d), RowTokens(a, b, h, d), RowDy(dy, b, h, d), Fiber4(ds, b, h, d))
  }

  ghost function GradAt(a: Args, dy: Tensor4, ds: Tensor4, b: int, h: int, d: int, t: int): (r: Direction)
    requires WellFormed(a) && Cotangents(a, dy, ds) && 0 <= t < a.T()
    ensures |r.q| == |r.k| == a.Dk()
  {
    RowBack(a, dy, ds, b, h, d).grads[t]
  }

  /** Cotangent of the state of row (b, h, d) before step t. */
  ghost function CarryAt(a: Args, dy: Tensor4, ds: Tensor4, b: int, h: int, d: int, t: nat): (r: Vec)
    requires WellFormed(a) && Cotangents(a, dy, ds) && t <= a.T()
    ensures |r| == a.Dk()
  {
    Reverse(StateAt(a, b, h, d, t), RowTokens(a, b, h, d)[t..], RowDy(dy, b, h, d)[t..], Fiber4(ds, b, h, d)).carry
  }

  /** Query cotangent of one value head: the rows of the head share its query. */
  ghost function HeadQ(a: Args, dy: Tensor4, ds: Tensor4, b: int, t: int, h: int): (r: Vec)
    requires WellFormed(a) && Cotangents(a, dy, ds) && 0 <= t < a.T()
    ensures |r| == a.Dk()
  {
    VecSum(a.Dv(), a.Dk(), d => GradAt(a, dy, ds, b, h, d, t).q)
  }

  ghost function HeadK(a: Args, dy: Tensor4, ds: Tensor4, b: int, t: int, h: int): (r: Vec)
    requires WellFormed(a) && Cotangents(a, dy, ds) && 0 <= t < a.T()
    ensures |r| == a.Dk()
  {
    VecSum(a.Dv(), a.Dk(), d => GradAt(a, dy, ds, b, h, d, t).k)
  }

  ghost function HeadG(a: Args, dy: Tensor4, ds: Tensor4, b: int, t: int, h: int): real
    requires WellFormed(a) && Cotangents(a, dy, ds) && 0 <= t < a.T()
  {
    Sum(a.Dv(), d => GradAt(a, dy, ds, b, h, d, t).g)
  }

  ghost function HeadBeta(a: Args, dy: Tensor4, ds: Tensor4, b: int, t: int, h: int): real
    requires WellFormed(a) && Cotangents(a, dy, ds) && 0 <= t < a.T()
  {
    Sum(a.Dv(), d => GradAt(a, dy, ds, b, h, d, t).beta)
  }

  /** Cotangent of the j-th value head of key head hk. */
  ghost function MemberQ(a: Args, dy: Tensor4, ds: Tensor4, b: int, t: int, hk: int, j: int): (r: Vec)
    requires WellFormed(a) && Cotangents(a, dy, ds) && 0 <= t < a.T()
    ensures |r| == a.Dk()
  {
    HeadQ(a, dy, ds, b, t, hk * a.R() + j)
  }

  /** Cotangent of the j-th value head of key head hk. */
  ghost function MemberK(a: Args, dy: Tensor4, ds: Tensor4, b: int, t: int, hk: int, j: int): (r: Vec)
    requires WellFormed(a) && Cotangents(a, dy, ds) && 0 <= t < a.T()
    ensures |r| == a.Dk()
  {
    HeadK(a, dy, ds, b, t, hk * a.R() + j)
  }

  /** Cotangent of a key head's query: the sum over the value heads that share it. */
  ghost function GroupQ(a: Args, dy: Tensor4, ds: Tensor4, b: int, t: int, hk: int): (r: Vec)
    requires WellFormed(a) && Cotangents(a, dy, ds) && 0 <= t < a.T()
    ensures |r| == a.Dk()
  {
    VecSum(a.R(), a.Dk(), j => MemberQ(a, dy, ds, b, t, hk, j))
  }

  /** Cotangent of a key head's key: the sum over the value heads that share it. */
  ghost function GroupK(a: Args, dy: Tensor4, ds: Tensor4, b: int, t: int, hk: int): (r: Vec)
    requires WellFormed(a) && Cotangents(a, dy, ds) && 0 <= t < a.T()
    ensures |r| == a.Dk()
  {
    VecSum(a.R(), a.Dk(), j => MemberK(a, dy, ds, b, t, hk, j))
  }

  /** A direction in the space of differentiable inputs; also the type of the returned gradients. */
  datatype Inputs = Inputs(q: Tensor4, k: Tensor4, v: Tensor4, g: Tensor3, beta: Tensor3, state: Tensor4)

  predicate Shaped(a: Args, x: Inputs) {
    && SameShape4(x.q, a.q) && SameShape4(x.k, a.k) && SameShape4(x.v, a.v)
    && SameShape3(x.g, a.g) && SameShape3(x.beta, a.beta) && SameShape4(x.state, a.state)
  }

  ghost function Gradients(a: Args, dy: Tensor4, ds: Tensor4): (r: Inputs)
    requires WellFormed(a) && Cotangents(a, dy, ds)
    ensures Shaped(a, r)
  {
    var (T, Dk) := (a.T(), a.Dk());
    Inputs(
      Tensor4(a.B(), T, a.Hk(), Dk, (b, t, h, i) => if 0 <= t < T && 0 <= i < Dk then GroupQ(a, dy, ds, b, t, h)[i] else 0.0),
      Tensor4(a.B(), T, a.Hk(), Dk, (b, t, h, i) => if 0 <= t < T && 0 <= i < Dk then GroupK(a, dy, ds, b, t, h)[i] else 0.0),
      Tensor4(a.B(), T, a.Hv(), a.Dv(), (b, t, h, d) => if 0 <= t < T then GradAt(a, dy, ds, b, h, d, t).v else 0.0),
      Tensor3(a.B(), T, a.Hv(), (b, t, h) => if 0 <= t < T then HeadG(a, dy, ds, b, t, h) else 0.0),
      Tensor3(a.B(), T, a.Hv(), (b, t, h) => if 0 <= t < T then HeadBeta(a, dy, ds, b, t, h) else 0.0),
      Tensor4(a.B(), a.Hv(), a.Dv(), Dk, (b, h, d, i) => if 0 <= i < Dk then CarryAt(a, dy, ds, b, h, d, 0)[i] else 0.0))
  }

  // ---------------------------------------------------------------- one iteration of the reverse loop

  lemma CarryAtNext(a: Args, dy: Tensor4, ds: Tensor4, b: int, h: int, d: int, t: nat)
    requires WellFormed(a) && Cotangents(a, dy, ds) && t < a.T()
    ensures CarryAt(a, dy, ds, b, h, d, t)
            == StepCarry(RowToken(a, b, h, d, t), dy.at(b, t, h, d), CarryAt(a, dy, ds, b, h, d, t + 1))
    ensures GradAt(a, dy, ds, b, h, d, t)
            == StepGrad(StateAt(a, b, h, d, t), RowToken(a, b, h, d, t), dy.at(b, t, h, d), CarryAt(a, dy, ds, b, h, d, t + 1))
  {
    hide StepCarry, StepGrad, Next;
    var s, xs, dys, c := RowState(a, b, h, d), RowTokens(a, b, h, d), RowDy(dy, b, h, d), Fiber4(ds, b, h, d);
    StateAtNext(a, b, h, d, t);
    assert xs == xs[..t] + xs[t..] && dys == dys[..t] + dys[t..];
    ReverseChunks(s, xs[..t], xs[t..], dys[..t], dys[t..], c);
    assert xs[t..][1..] == xs[t + 1..] && dys[t..][1..] == dys[t + 1..];
    assert xs[t..][0] == RowToken(a, b, h, d, t) && dys[t..][0] == dy.at(b, t, h, d);
  }

  /** Temporaries of one reverse iteration. */
  datatype Rev = Rev(yt: Tensor3, du: Tensor4, dd: Tensor3, dv: Tensor3, dr: Tensor3, dp: Tensor4)

  /** The array expressions of one iteration of the reverse loop. */
  function ReverseStep(a: Args, qr: Tensor4, kr: Tensor4, dy: Tensor4, carry: Tensor4, t: int): (rv: Rev)
    requires WellFormed(a) && qr.n3 == kr.n3 == a.Dk()
    ensures rv.du.n3 == rv.dp.n3 == a.Dk()
  {
    var (B, Hv, Dv, Dk) := (a.B(), a.Hv(), a.Dv(), a.Dk());
    var yt := Tensor3(B, Hv, Dv, (b, h, d) => if a.mask.at(b, t) then dy.at(b, t, h, d) else 0.0);
    var du := Tensor4(B, Hv, Dv, Dk,
                      (b, h, d, i) => (if a.mask.at(b, t) then carry.at(b, h, d, i) else 0.0) + yt.at(b, h, d) * qr.at(b, t, h, i));
    var dd := Tensor3(B, Hv, Dv, (b, h, d) => Dot(Fiber4(du, b, h, d), Fiber4(kr, b, t, h)));
    var dv := Tensor3(B, Hv, Dv, (b, h, d) => dd.at(b, h, d) * a.beta.at(b, t, h));
    var dr := Tensor3(B, Hv, Dv, (b, h, d) => -dv.at(b, h, d));
    var dp := Tensor4(B, Hv, Dv, Dk, (b, h, d, i) => du.at(b, h, d, i) + dr.at(b, h, d) * kr.at(b, t, h, i));
    Rev(yt, du, dd, dv, dr, dp)
  }

  ghost predicate RevMatches(rv: Rev, x: Token, dy: real, c: Vec, b: int, h: int, d: int)
    requires |x.q| == |x.k| == |c|
  {
    && rv.yt.at(b, h, d) == (if x.mask then dy else 0.0)
    && Fiber4(rv.du, b, h, d) == DuOf(x, dy, c)
    && rv.dd.at(b, h, d) == DdOf(x, dy, c)
    && rv.dv.at(b, h, d) == DvOf(x, dy, c)
    && rv.dr.at(b, h, d) == DrOf(x, dy, c)
    && Fiber4(rv.dp, b, h, d) == DpOf(x, dy, c)
  }

  lemma ReverseStepRow(a: Args, qr: Tensor4, kr: Tensor4, dy: Tensor4, carry: Tensor4, t: int, b: int, h: int, d: int)
    requires WellFormed(a) && qr.n3 == kr.n3 == carry.n3 == a.Dk()
    requires Fiber4(qr, b, t, h) == RowToken(a, b, h, d, t).q && Fiber4(kr, b, t, h) == RowToken(a, b, h, d, t).k
    ensures RevMatches(ReverseStep(a, qr, kr, dy, carry, t), RowToken(a, b, h, d, t), dy.at(b, t, h, d),
                       Fiber4(carry, b, h, d), b, h, d)
  {
    hide Dot;
    var rv, x, c := ReverseStep(a, qr, kr, dy, carry, t), RowToken(a, b, h, d, t), Fiber4(carry, b, h, d);
    var y := dy.at(b, t, h, d);
    forall i | 0 <= i < a.Dk()
      ensures Fiber4(rv.du, b, h, d)[i] == DuOf(x, y, c)[i]
    {
      assert Fiber4(qr, b, t, h)[i] == qr.at(b, t, h, i);
      assert Fiber4(rv.du, b, h, d)[i] == rv.du.at(b, h, d, i);
    }
    assert Fiber4(rv.du, b, h, d) == DuOf(x, y, c);
    forall i | 0 <= i < a.Dk()
      ensures Fiber4(rv.dp, b, h, d)[i] == DpOf(x, y, c)[i]
    {
      assert Fiber4(kr, b, t, h)[i] == kr.at(b, t, h, i);
      assert Fiber4(rv.du, b, h, d)[i] == rv.du.at(b, h, d, i);
    }
  }

  /** `carry = np.where(active, dp * g, carry)`. */
  function Retreat(a: Args, carry: Tensor4, dp: Tensor4, t: int): (r: Tensor4)
    requires WellFormed(a)
    ensures SameShape4(r, a.state)
  {
    Tensor4(a.B(), a.Hv(), a.Dv(), a.Dk(),
            (b, h, d, i) => if a.mask.at(b, t) then dp.at(b, h, d, i) * a.g.at(b, t, h) else carry.at(b, h, d, i))
  }

  lemma RetreatRow(a: Args, carry: Tensor4, rv: Rev, dy: real, t: int, b: int, h: int, d: int)
    requires WellFormed(a) && carry.n3 == rv.dp.n3 == a.Dk()
    requires RevMatches(rv, RowToken(a, b, h, d, t), dy, Fiber4(carry, b, h, d), b, h, d)
    ensures Fiber4(Retreat(a, carry, rv.dp, t), b, h, d) == StepCarry(RowToken(a, b, h, d, t), dy, Fiber4(carry, b, h, d))
  {
    hide DpOf;
    var x, c := RowToken(a, b, h, d, t), Fiber4(carry, b, h, d);
    var r := Fiber4(Retreat(a, carry, rv.dp, t), b, h, d);
    forall i | 0 <= i < a.Dk()
      ensures r[i] == StepCarry(x, dy, c)[i]
    {
      assert DpOf(x, dy, c)[i] == rv.dp.at(b, h, d, i);
      assert c[i] == carry.at(b, h, d, i);
    }
  }

  // ---------------------------------------------------------------- sums over the rows of a head

  /** `einsum('bhvk,bhv->bhk', m, w)` at one entry. */
  function Mix(m: Tensor4, w: Tensor3, b: int, h: int, i: int): real {
    Sum(w.n2, d => m.at(b, h, d, i) * w.at(b, h, d))
  }

  lemma MixQ(a: Args, dy: Tensor4, ds: Tensor4, st: Step, rv: Rev, b: int, h: int, t: nat, i: nat)
    requires WellFormed(a) && Cotangents(a, dy, ds) && t < a.T() && i < a.Dk()
    requires st.updated.n3 == a.Dk() && rv.yt.n2 == a.Dv()
    requires forall d | 0 <= d < a.Dv() :: RowStep(a, dy, ds, st, rv, b, h, d, t)
    ensures Mix(st.updated, rv.yt, b, h, i) == HeadQ(a, dy, ds, b, t, h)[i]
  {
    hide CarryAt, StateAt, Updated, DuOf, DdOf, DvOf, DrOf, DpOf, Delta, Residual, Decayed, Dot, GradAt;
    var f := d => GradAt(a, dy, ds, b, h, d, t).q;
    var e := d => st.updated.at(b, h, d, i) * rv.yt.at(b, h, d);
    forall d | 0 <= d < a.Dv()
      ensures e(d) == f(d)[i]
    {
      assert RowStep(a, dy, ds, st, rv, b, h, d, t);
      CarryAtNext(a, dy, ds, b, h, d, t);
      MulSwap(st.updated.at(b, h, d, i), rv.yt.at(b, h, d),
              Updated(StateAt(a, b, h, d, t), RowToken(a, b, h, d, t))[i],
              if a.mask.at(b, t) then dy.at(b, t, h, d) else 0.0);
    }
    VecSumEntry(a.Dv(), a.Dk(), f, i, e);
  }

  lemma MulSwap(x: real, y: real, x': real, y': real)
    requires x == x' && y == y'
    ensures x * y == y' * x'
    ensures x * y == x' * y'
  {
  }

  /** The step record and the reverse temporaries of step t agree with the row at (b, h, d). */
  ghost predicate RowStep(a: Args, dy: Tensor4, ds: Tensor4, st: Step, rv: Rev, b: int, h: int, d: int, t: nat)
    requires WellFormed(a) && Cotangents(a, dy, ds) && t < a.T()
  {
    && StepMatches(st, StateAt(a, b, h, d, t), RowToken(a, b, h, d, t), b, h, d)
    && RevMatches(rv, RowToken(a, b, h, d, t), dy.at(b, t, h, d), CarryAt(a, dy, ds, b, h, d, t + 1), b, h, d)
  }

  lemma MixK(a: Args, dy: Tensor4, ds: Tensor4, st: Step, rv: Rev, b: int, h: int, t: nat, i: nat)
    requires WellFormed(a) && Cotangents(a, dy, ds) && t < a.T() && i < a.Dk()
    requires st.decayed.n3 == rv.du.n3 == a.Dk() && st.delta.n2 == rv.dr.n2 == a.Dv()
    requires forall d | 0 <= d < a.Dv() :: RowStep(a, dy, ds, st, rv, b, h, d, t)
    ensures Mix(rv.du, st.delta, b, h, i) + Mix(st.decayed, rv.dr, b, h, i) == HeadK(a, dy, ds, b, t, h)[i]
  {
    hide CarryAt, StateAt, Updated, DuOf, DdOf, DvOf, DrOf, DpOf, Delta, Residual, Decayed, Dot, GradAt;
    var f := d => GradAt(a, dy, ds, b, h, d, t).k;
    var e0 := d => rv.du.at(b, h, d, i) * st.delta.at(b, h, d);
    var e1 := d => st.decayed.at(b, h, d, i) * rv.dr.at(b, h, d);
    var e := d => e0(d) + e1(d);
    forall d | 0 <= d < a.Dv()
      ensures e(d) == f(d)[i]
    {
      assert RowStep(a, dy, ds, st, rv, b, h, d, t);
      CarryAtNext(a, dy, ds, b, h, d, t);
      var s, x := StateAt(a, b, h, d, t), RowToken(a, b, h, d, t);
      var y, c := dy.at(b, t, h, d), CarryAt(a, dy, ds, b, h, d, t + 1);
      MulSwap(rv.du.at(b, h, d, i), st.delta.at(b, h, d), DuOf(x, y, c)[i], Delta(s, x));
      MulSwap(st.decayed.at(b, h, d, i), rv.dr.at(b, h, d), Decayed(s, x)[i], DrOf(x, y, c));
    }
    SumPlus(a.Dv(), e0, e1, e);
    VecSumEntry(a.Dv(), a.Dk(), f, i, e);
  }

  /** `np.sum(dd * residual, axis=-1)` and `np.sum(dp * prev, axis=(-2, -1))` at one (b, h). */
  function RowTotal(x: Tensor3, y: Tensor3, b: int, h: int): real {
    Sum(x.n2, d => x.at(b, h, d) * y.at(b, h, d))
  }

  function BlockTotal(n: nat, x: Tensor4, y: Tensor4, b: int, h: int): real
    requires x.n3 == y.n3
  {
    Sum(n, d => Dot(Fiber4(x, b, h, d), Fiber4(y, b, h, d)))
  }

  lemma TotalsGBeta(a: Args, dy: Tensor4, ds: Tensor4, st: Step, rv: Rev, b: int, h: int, t: nat)
    requires WellFormed(a) && Cotangents(a, dy, ds) && t < a.T()
    requires st.prev.n3 == rv.dp.n3 == a.Dk() && rv.dd.n2 == a.Dv()
    requires forall d | 0 <= d < a.Dv() :: RowStep(a, dy, ds, st, rv, b, h, d, t)
    ensures RowTotal(rv.dd, st.residual, b, h) == HeadBeta(a, dy, ds, b, t, h)
    ensures BlockTotal(a.Dv(), rv.dp, st.prev, b, h) == HeadG(a, dy, ds, b, t, h)
  {
    hide CarryAt, StateAt, Updated, DuOf, DdOf, DvOf, DrOf, DpOf, Delta, Residual, Decayed, Dot, GradAt;
    forall d | 0 <= d < a.Dv()
      ensures rv.dd.at(b, h, d) * st.residual.at(b, h, d) == GradAt(a, dy, ds, b, h, d, t).beta
      ensures Dot(Fiber4(rv.dp, b, h, d), Fiber4(st.prev, b, h, d)) == GradAt(a, dy, ds, b, h, d, t).g
    {
      assert RowStep(a, dy, ds, st, rv, b, h, d, t);
      CarryAtNext(a, dy, ds, b, h, d, t);
      var s, x := StateAt(a, b, h, d, t), RowToken(a, b, h, d, t);
      var y, c := dy.at(b, t, h, d), CarryAt(a, dy, ds, b, h, d, t + 1);
      MulSwap(rv.dd.at(b, h, d), st.residual.at(b, h, d), DdOf(x, y, c), Residual(s, x));
    }
    SumEqual(a.Dv(), d => rv.dd.at(b, h, d) * st.residual.at(b, h, d), d => GradAt(a, dy, ds, b, h, d, t).beta);
    SumEqual(a.Dv(), d => Dot(Fiber4(rv.dp, b, h, d), Fiber4(st.prev, b, h, d)), d => GradAt(a, dy, ds, b, h, d, t).g);
  }

  // ---------------------------------------------------------------- slice assignments

  /** `x[:, t] = f`. */
  method Fill4(x: array4<real>, t: nat, f: (int, int, int) -> real)
    requires t < x.Length1
    modifies x
    ensures forall b, h, i | 0 <= b < x.Length0 && 0 <= h < x.Length2 && 0 <= i < x.Length3 :: x[b, t, h, i] == f(b, h, i)
    ensures forall b, t', h, i | 0 <= b < x.Length0 && 0 <= t' < x.Length1 && 0 <= h < x.Length2 && 0 <= i < x.Length3 && t' != t ::
        x[b, t', h, i] == old(x[b, t', h, i])
  {
    forall b, h, i | 0 <= b < x.Length0 && 0 <= h < x.Length2 && 0 <= i < x.Length3 {
      x[b, t, h, i] := f(b, h, i);
    }
  }

  /** `x[:, t] += f`. */
  method Add4(x: array4<real>, t: nat, f: (int, int, int) -> real)
    requires t < x.Length1
    modifies x
    ensures forall b, h, i | 0 <= b < x.Length0 && 0 <= h < x.Length2 && 0 <= i < x.Length3 ::
        x[b, t, h, i] == old(x[b, t, h, i]) + f(b, h, i)
    ensures forall b, t', h, i | 0 <= b < x.Length0 && 0 <= t' < x.Length1 && 0 <= h < x.Length2 && 0 <= i < x.Length3 && t' != t ::
        x[b, t', h, i] == old(x[b, t', h, i])
  {
    forall b, h, i | 0 <= b < x.Length0 && 0 <= h < x.Length2 && 0 <= i < x.Length3 {
      x[b, t, h, i] := x[b, t, h, i] + f(b, h, i);
    }
  }

  method Fill3(x: array3<real>, t: nat, f: (int, int) -> real)
    requires t < x.Length1
    modifies x
    ensures forall b, h | 0 <= b < x.Length0 && 0 <= h < x.Length2 :: x[b, t, h] == f(b, h)
    ensures forall b, t', h | 0 <= b < x.Length0 && 0 <= t' < x.Length1 && 0 <= h < x.Length2 && t' != t ::
        x[b, t', h] == old(x[b, t', h])
  {
    forall b, h | 0 <= b < x.Length0 && 0 <= h < x.Length2 {
      x[b, t, h] := f(b, h);
    }
  }

  // ---------------------------------------------------------------- the reverse loop

  /** Per-head gradient buffers hold the row-level sums for every time step from `t` on. */
  ghost predicate KeysDone(a: Args, dy: Tensor4, ds: Tensor4, t: nat, dqr: array4<real>, dkr: array4<real>)
    requires WellFormed(a) && Cotangents(a, dy, ds)
    reads dqr, dkr
  {
    && dqr.Length0 == a.B() && dqr.Length1 == a.T() && dqr.Length2 == a.Hv() && dqr.Length3 == a.Dk()
    && dkr.Length0 == a.B() && dkr.Length1 == a.T() && dkr.Length2 == a.Hv() && dkr.Length3 == a.Dk()
    && (forall b, t', h, i | 0 <= b < a.B() && t <= t' < a.T() && 0 <= h < a.Hv() && 0 <= i < a.Dk() ::
          dqr[b, t', h, i] == HeadQ(a, dy, ds, b, t', h)[i])
    && (forall b, t', h, i | 0 <= b < a.B() && t <= t' < a.T() && 0 <= h < a.Hv() && 0 <= i < a.Dk() ::
          dkr[b, t', h, i] == HeadK(a, dy, ds, b, t', h)[i])
  }

  ghost predicate GatesDone(a: Args, dy: Tensor4, ds: Tensor4, t: nat,
                            dv: array4<real>, dg: array3<real>, db: array3<real>)
    requires WellFormed(a) && Cotangents(a, dy, ds)
    reads dv, dg, db
  {
    && dv.Length0 == a.B() && dv.Length1 == a.T() && dv.Length2 == a.Hv() && dv.Length3 == a.Dv()
    && dg.Length0 == a.B() && dg.Length1 == a.T() && dg.Length2 == a.Hv()
    && db.Length0 == a.B() && db.Length1 == a.T() && db.Length2 == a.Hv()
    && (forall b, t', h, d | InHeads(a, b, h, d) && t <= t' < a.T() ::
          dv[b, t', h, d] == GradAt(a, dy, ds, b, h, d, t').v)
    && (forall b, t', h | 0 <= b < a.B() && t <= t' < a.T() && 0 <= h < a.Hv() ::
          dg[b, t', h] == HeadG(a, dy, ds, b, t', h) && db[b, t', h] == HeadBeta(a, dy, ds, b, t', h))
  }

  /** Everything one reverse iteration computes agrees with the rows. */
  ghost predicate AllRows(a: Args, dy: Tensor4, ds: Tensor4, st: Step, rv: Rev, t: nat)
    requires WellFormed(a) && Cotangents(a, dy, ds) && t < a.T()
  {
    && st.prev.n3 == st.updated.n3 == st.decayed.n3 == rv.du.n3 == rv.dp.n3 == a.Dk()
    && rv.yt.n2 == rv.dr.n2 == rv.dd.n2 == st.delta.n2 == a.Dv()
    && (forall b, h, d | InHeads(a, b, h, d) :: RowStep(a, dy, ds, st, rv, b, h, d, t))
  }

  method StoreKeys(a: Args, dy: Tensor4, ds: Tensor4, st: Step, rv: Rev, t: nat, dqr: array4<real>, dkr: array4<real>)
    requires WellFormed(a) && Cotangents(a, dy, ds) && t < a.T() && dqr != dkr
    requires AllRows(a, dy, ds, st, rv, t) && KeysDone(a, dy, ds, t + 1, dqr, dkr)
    modifies dqr, dkr
    ensures KeysDone(a, dy, ds, t, dqr, dkr)
  {
    hide HeadQ, HeadK, RowStep, Mix, WellFormed, Cotangents;
    Fill4(dqr, t, (b, h, i) => Mix(st.updated, rv.yt, b, h, i));
    Fill4(dkr, t, (b, h, i) => Mix(rv.du, st.delta, b, h, i));
    Add4(dkr, t, (b, h, i) => Mix(st.decayed, rv.dr, b, h, i));
    forall b, h, i | 0 <= b < a.B() && 0 <= h < a.Hv() && 0 <= i < a.Dk()
      ensures Mix(st.updated, rv.yt, b, h, i) == HeadQ(a, dy, ds, b, t, h)[i]
      ensures Mix(rv.du, st.delta, b, h, i) + Mix(st.decayed, rv.dr, b, h, i) == HeadK(a, dy, ds, b, t, h)[i]
    {
      MixQ(a, dy, ds, st, rv, b, h, t, i);
      MixK(a, dy, ds, st, rv, b, h, t, i);
    }
  }

  method StoreGates(a: Args, dy: Tensor4, ds: Tensor4, st: Step, rv: Rev, t: nat,
                    dv: array4<real>, dg: array3<real>, db: array3<real>)
    requires WellFormed(a) && Cotangents(a, dy, ds) && t < a.T() && dg != db
    requires AllRows(a, dy, ds, st, rv, t) && GatesDone(a, dy, ds, t + 1, dv, dg, db)
    modifies dv, dg, db
    ensures GatesDone(a, dy, ds, t, dv, dg, db)
  {
    hide HeadG, HeadBeta, RowTotal, BlockTotal, WellFormed, Cotangents, GradAt, StateAt, CarryAt, StepMatches, DuOf,
         DdOf, DvOf, DrOf, DpOf, Updated, Decayed, Residual, Delta;
    Fill3(db, t, (b, h) => RowTotal(rv.dd, st.residual, b, h));
    Fill4(dv, t, (b, h, d) => rv.dv.at(b, h, d));
    Fill3(dg, t, (b, h) => BlockTotal(a.Dv(), rv.dp, st.prev, b, h));
    forall b, h | 0 <= b < a.B() && 0 <= h < a.Hv()
      ensures RowTotal(rv.dd, st.residual, b, h) == HeadBeta(a, dy, ds, b, t, h)
      ensures BlockTotal(a.Dv(), rv.dp, st.prev, b, h) == HeadG(a, dy, ds, b, t, h)
    {
      TotalsGBeta(a, dy, ds, st, rv, b, h, t);
    }
    forall b, h, d | InHeads(a, b, h, d)
      ensures rv.dv.at(b, h, d) == GradAt(a, dy, ds, b, h, d, t).v
    {
      assert RowStep(a, dy, ds, st, rv, b, h, d, t);
      CarryAtNext(a, dy, ds, b, h, d, t);
    }
  }

  /** The sum over the heads that `x.reshape(B, T, n, r, D)` groups under key head `hk`. */
  function GroupTotal(x: array4<real>, b: nat, t: nat, hk: nat, n: nat, r: nat, i: nat): real
    requires b < x.Length0 && t < x.Length1 && hk < n && n * r == x.Length2 && i < x.Length3
    reads x
  {
    GroupFits(hk, r, n);
    Total(seq(r, j requires 0 <= j < r reads x => x[b, t, hk * r + j, i]))
  }

  ghost predicate Grouped(x: array4<real>, y: array4<real>, n: nat, r: nat)
    requires n * r == x.Length2
    reads x, y
  {
    && y.Length0 == x.Length0 && y.Length1 == x.Length1 && y.Length2 == n && y.Length3 == x.Length3
    && (forall b, t, hk, i | 0 <= b < x.Length0 && 0 <= t < x.Length1 && 0 <= hk < n && 0 <= i < x.Length3 ::
          y[b, t, hk, i] == GroupTotal(x, b, t, hk, n, r, i))
  }

  /** `x.reshape(B, T, n, r, D).sum(axis=3)`. */
  method SumGroupAxis(x: array4<real>, n: nat, r: nat) returns (y: array4<real>)
    requires n * r == x.Length2
    ensures fresh(y) && Grouped(x, y, n, r)
  {
    y := new real[x.Length0, x.Length1, n, x.Length3];
    forall b, t, hk, i | 0 <= b < x.Length0 && 0 <= t < x.Length1 && 0 <= hk < n && 0 <= i < x.Length3 {
      y[b, t, hk, i] := GroupTotal(x, b, t, hk, n, r, i);
    }
  }

  /** An entry of a summed group, when the buffer holds the entries of the group's members. */
  lemma GroupedEntry(x: array4<real>, b: nat, t: nat, hk: nat, n: nat, r: nat, i: nat, len: nat, members: int -> Vec)
    requires b < x.Length0 && t < x.Length1 && hk < n && n * r == x.Length2 && i < x.Length3 && i < len
    requires forall j | 0 <= j < r :: |members(j)| == len && 0 <= hk * r + j < n * r && x[b, t, hk * r + j, i] == members(j)[i]
    ensures GroupTotal(x, b, t, hk, n, r, i) == VecSum(r, len, members)[i]
  {
    var e := j => if |members(j)| == len then members(j)[i] else 0.0;
    VecSumEntry(r, len, members, i, e);
    assert seq(r, j requires 0 <= j < r reads x => x[b, t, hk * r + j, i]) == seq(r, j requires 0 <= j < r => e(j));
  }

  lemma GroupedKeys(a: Args, dy: Tensor4, ds: Tensor4, dqr: array4<real>, dkr: array4<real>,
                    b: nat, t: nat, hk: nat, i: nat)
    requires WellFormed(a) && Cotangents(a, dy, ds) && KeysDone(a, dy, ds, 0, dqr, dkr)
    requires b < a.B() && t < a.T() && hk < a.Hk() && i < a.Dk() && a.Hk() * a.R() == a.Hv()
    ensures GroupTotal(dqr, b, t, hk, a.Hk(), a.R(), i) == GroupQ(a, dy, ds, b, t, hk)[i]
    ensures GroupTotal(dkr, b, t, hk, a.Hk(), a.R(), i) == GroupK(a, dy, ds, b, t, hk)[i]
  {
    hide HeadQ, HeadK, GroupTotal;
    GroupFits(hk, a.R(), a.Hk());
    GroupedEntry(dqr, b, t, hk, a.Hk(), a.R(), i, a.Dk(), j => MemberQ(a, dy, ds, b, t, hk, j));
    GroupedEntry(dkr, b, t, hk, a.Hk(), a.R(), i, a.Dk(), j => MemberK(a, dy, ds, b, t, hk, j));
  }

  /** The dictionary of cotangents the reverse pass returns. */
  datatype GradArrays = GradArrays(q: array4<real>, k: array4<real>, v: array4<real>,
                                   g: array3<real>, beta: array3<real>, state: Tensor4)

  ghost predicate Holds4(x: array4<real>, y: Tensor4)
    reads x
  {
    && x.Length0 == y.n0 && x.Length1 == y.n1 && x.Length2 == y.n2 && x.Length3 == y.n3
    && (forall i, j, k, l | 0 <= i < y.n0 && 0 <= j < y.n1 && 0 <= k < y.n2 && 0 <= l < y.n3 ::
          x[i, j, k, l] == y.at(i, j, k, l))
  }

  ghost predicate Holds3(x: array3<real>, y: Tensor3)
    reads x
  {
    && x.Length0 == y.n0 && x.Length1 == y.n1 && x.Length2 == y.n2
    && (forall i, j, k | 0 <= i < y.n0 && 0 <= j < y.n1 && 0 <= k < y.n2 :: x[i, j, k] == y.at(i, j, k))
  }

  ghost predicate Returns(r: GradArrays, g: Inputs)
    reads r.q, r.k, r.v, r.g, r.beta
  {
    && Holds4(r.q, g.q) && Holds4(r.k, g.k) && Holds4(r.v, g.v) && Holds3(r.g, g.g) && Holds3(r.beta, g.beta)
    && SameShape4(r.state, g.state)
    && (forall b, h, d | 0 <= b < g.state.n0 && 0 <= h < g.state.n1 && 0 <= d < g.state.n2 ::
          Fiber4(r.state, b, h, d) == Fiber4(g.state, b, h, d))
  }

  /** The reverse loop: from the last step to the first, carrying the state cotangent. */
  method ReverseLoop(a: Args, dy: Tensor4, ds: Tensor4, trace: seq<Step>)
    returns (dqr: array4<real>, dkr: array4<real>, dv: array4<real>, dg: array3<real>, db: array3<real>, carry: Tensor4)
    requires WellFormed(a) && Cotangents(a, dy, ds) && TraceOk(a, trace, a.T())
    ensures fresh({dqr, dkr, dv}) && fresh({dg, db})
    ensures KeysDone(a, dy, ds, 0, dqr, dkr) && GatesDone(a, dy, ds, 0, dv, dg, db)
    ensures dqr.Length2 == dkr.Length2 == a.Hv()
    ensures SameShape4(carry, a.state)
    ensures forall b, h, d | InHeads(a, b, h, d) :: Fiber4(carry, b, h, d) == CarryAt(a, dy, ds, b, h, d, 0)
  {
    hide CarryAt, HeadQ, HeadK, HeadG, HeadBeta, GradAt, StateAt, Fiber4, StepMatches, RevMatches, ReverseStep, Retreat;
    Grouping(a);
    var qr, kr := Repeat(a.q, a.R()), Repeat(a.k, a.R());
    dqr := new real[a.B(), a.T(), a.Hv(), a.Dk()]((b, t, h, i) => 0.0);
    dkr := new real[a.B(), a.T(), a.Hv(), a.Dk()]((b, t, h, i) => 0.0);
    dv := new real[a.B(), a.T(), a.Hv(), a.Dv()]((b, t, h, d) => 0.0);
    dg := new real[a.B(), a.T(), a.Hv()]((b, t, h) => 0.0);
    db := new real[a.B(), a.T(), a.Hv()]((b, t, h) => 0.0);
    carry := ds;
    CarryAtEnd(a, dy, ds);
    for t := a.T() downto 0
      invariant SameShape4(carry, a.state)
      invariant forall b, h, d | InHeads(a, b, h, d) :: Fiber4(carry, b, h, d) == CarryAt(a, dy, ds, b, h, d, t)
      invariant KeysDone(a, dy, ds, t, dqr, dkr) && GatesDone(a, dy, ds, t, dv, dg, db)
    {
      var st := trace[t];
      var rv := ReverseStep(a, qr, kr, dy, carry, t);
      ReverseRows(a, dy, ds, st, qr, kr, carry, t);
      StoreKeys(a, dy, ds, st, rv, t, dqr, dkr);
      StoreGates(a, dy, ds, st, rv, t, dv, dg, db);
      carry := Retreat(a, carry, rv.dp, t);
    }
  }

  lemma CarryAtEnd(a: Args, dy: Tensor4, ds: Tensor4)
    requires WellFormed(a) && Cotangents(a, dy, ds)
    ensures forall b, h, d | InHeads(a, b, h, d) :: CarryAt(a, dy, ds, b, h, d, a.T()) == Fiber4(ds, b, h, d)
  {
  }

  /** One reverse iteration, for every row at once. */
  lemma ReverseRows(a: Args, dy: Tensor4, ds: Tensor4, st: Step, qr: Tensor4, kr: Tensor4, carry: Tensor4, t: nat)
    requires WellFormed(a) && Cotangents(a, dy, ds) && t < a.T() && SameShape4(carry, a.state)
    requires qr == Repeat(a.q, a.R()) && kr == Repeat(a.k, a.R())
    requires st.prev.n3 == st.updated.n3 == st.decayed.n3 == a.Dk() && st.delta.n2 == a.Dv()
    requires forall b, h, d | InHeads(a, b, h, d) ::
        StepMatches(st, StateAt(a, b, h, d, t), RowToken(a, b, h, d, t), b, h, d)
    requires forall b, h, d | InHeads(a, b, h, d) :: Fiber4(carry, b, h, d) == CarryAt(a, dy, ds, b, h, d, t + 1)
    ensures var rv := ReverseStep(a, qr, kr, dy, carry, t);
            AllRows(a, dy, ds, st, rv, t)
            && (forall b, h, d | InHeads(a, b, h, d) ::
                  Fiber4(Retreat(a, carry, rv.dp, t), b, h, d) == CarryAt(a, dy, ds, b, h, d, t))
  {
    hide CarryAt, StateAt, Fiber4, StepMatches, RevMatches, Retreat, StepCarry, StepGrad, GradAt;
    var rv := ReverseStep(a, qr, kr, dy, carry, t);
    forall b, h, d | InHeads(a, b, h, d)
      ensures RowStep(a, dy, ds, st, rv, b, h, d, t)
      ensures Fiber4(Retreat(a, carry, rv.dp, t), b, h, d) == CarryAt(a, dy, ds, b, h, d, t)
    {
      ReverseStepRow(a, qr, kr, dy, carry, t, b, h, d);
      RetreatRow(a, carry, rv, dy.at(b, t, h, d), t, b, h, d);
      CarryAtNext(a, dy, ds, b, h, d, t);
    }
  }

  /** `gdn_vjp` on validated arguments. */
  method Vjp(a: Args, dy: Tensor4, ds: Tensor4) returns (r: GradArrays)
    requires WellFormed(a) && Cotangents(a, dy, ds)
    ensures Returns(r, Gradients(a, dy, ds))
  {
    hide CarryAt, KeysDone, GatesDone, Grouped, GroupTotal, Holds4, Holds3, Gradients;
    var y, s, trace := Forward(a, true);
    var dqr, dkr, dv, dg, db, carry := ReverseLoop(a, dy, ds, trace);
    Grouping(a);
    var dq := SumGroupAxis(dqr, a.Hk(), a.R());
    var dk := SumGroupAxis(dkr, a.Hk(), a.R());
    r := GradArrays(dq, dk, dv, dg, db, carry);
    GatheredKeys(a, dy, ds, dqr, dkr, dq, dk);
    GatheredGates(a, dy, ds, r);
  }

  lemma GatheredKeys(a: Args, dy: Tensor4, ds: Tensor4, dqr: array4<real>, dkr: array4<real>,
                     dq: array4<real>, dk: array4<real>)
    requires WellFormed(a) && Cotangents(a, dy, ds) && KeysDone(a, dy, ds, 0, dqr, dkr)
    requires a.Hk() * a.R() == a.Hv()
    requires Grouped(dqr, dq, a.Hk(), a.R()) && Grouped(dkr, dk, a.Hk(), a.R())
    ensures Holds4(dq, Gradients(a, dy, ds).q) && Holds4(dk, Gradients(a, dy, ds).k)
  {
    hide GroupQ, GroupK, HeadQ, HeadK, GroupTotal, HeadG, HeadBeta, GradAt, CarryAt;
    var g := Gradients(a, dy, ds);
    forall b, t, hk, i | 0 <= b < a.B() && 0 <= t < a.T() && 0 <= hk < a.Hk() && 0 <= i < a.Dk()
      ensures dq[b, t, hk, i] == g.q.at(b, t, hk, i)
      ensures dk[b, t, hk, i] == g.k.at(b, t, hk, i)
    {
      GroupedKeys(a, dy, ds, dqr, dkr, b, t, hk, i);
    }
  }

  lemma GatheredGates(a: Args, dy: Tensor4, ds: Tensor4, r: GradArrays)
    requires WellFormed(a) && Cotangents(a, dy, ds)
    requires GatesDone(a, dy, ds, 0, r.v, r.g, r.beta)
    requires SameShape4(r.state, a.state)
    requires forall b, h, d | InHeads(a, b, h, d) :: Fiber4(r.state, b, h, d) == CarryAt(a, dy, ds, b, h, d, 0)
    ensures var g := Gradients(a, dy, ds);
            && Holds4(r.v, g.v) && Holds3(r.g, g.g) && Holds3(r.beta, g.beta)
            && (forall b, h, d | InHeads(a, b, h, d) :: Fiber4(r.state, b, h, d) == Fiber4(g.state, b, h, d))
  {
    hide CarryAt, HeadG, HeadBeta, GradAt;
  }

  /** Shape checks of the public entry point: the forward checks, then both cotangents. */
  predicate VjpAccepts(v: Result<Args>, dy: Tensor4, ds: Option<Tensor4>) {
    v.Success? && Cotangents(v.value, dy, if ds.Some? then ds.value else v.value.state)
  }

  /** `gdn_vjp`; an absent final-state cotangent is zero. */
  method GdnVjp(q: Tensor4, k: Tensor4, v: Tensor4, g: Tensor3, beta: Tensor3, state: Option<Tensor4>,
                dy: Tensor4, ds: Option<Tensor4>, mask: Option<Mask>) returns (r: Result<GradArrays>)
    ensures r.Success? <==>
        && Validate(q, k, v, g, beta, state, mask).Success?
        && dy.n0 == q.n0 && dy.n1 == q.n1 && dy.n2 == v.n2 && dy.n3 == v.n3
        && (ds.Some? ==> ds.value.n0 == q.n0 && ds.value.n1 == v.n2 && ds.value.n2 == v.n3 && ds.value.n3 == q.n3)
    ensures r.Success? ==>
        var a := Validate(q, k, v, g, beta, state, mask).value;
        Returns(r.value, Gradients(a, dy, if ds.Some? then ds.value else Zeros4(a.B(), a.Hv(), a.Dv(), a.Dk())))
  {
    var checked := Validate(q, k, v, g, beta, state, mask);
    if !VjpAccepts(checked, dy, ds) {
      return ContractError;
    }
    var a := checked.value;
    var carry := if ds.Some? then ds.value else Zeros4(a.B(), a.Hv(), a.Dv(), a.Dk());
    var grads := Vjp(a, dy, carry);
    r := Success(grads);
  }
}
