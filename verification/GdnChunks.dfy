/** Cutting a sequence in two, and comparing two initial states, at the tensor level. */
module GdnChunks {
  import opened Vectors
  import opened Sums
  import opened Tensors
  import opened GdnRow
  import opened GdnStability
  import opened Gdn
  import opened GdnVjp

  /** `x[:, lo:hi]`. */
  function Slice4(x: Tensor4, lo: nat, hi: nat): Tensor4
    requires lo <= hi
  {
    Tensor4(x.n0, hi - lo, x.n2, x.n3, (b, t, h, i) => x.at(b, t + lo, h, i))
  }

  function Slice3(x: Tensor3, lo: nat, hi: nat): Tensor3
    requires lo <= hi
  {
    Tensor3(x.n0, hi - lo, x.n2, (b, t, h) => x.at(b, t + lo, h))
  }

  /** The arguments of a call on steps `lo..hi`, started from `state`. */
  function Chunk(a: Args, lo: nat, hi: nat, state: Tensor4): (r: Args)
    requires WellFormed(a) && lo <= hi <= a.T() && SameShape4(state, a.state)
    ensures WellFormed(r) && r.T() == hi - lo
    ensures r.B() == a.B() && r.Hk() == a.Hk() && r.Dk() == a.Dk() && r.Hv() == a.Hv() && r.Dv() == a.Dv()
  {
    Args(Slice4(a.q, lo, hi), Slice4(a.k, lo, hi), Slice4(a.v, lo, hi), Slice3(a.g, lo, hi), Slice3(a.beta, lo, hi),
         state, Mask(a.mask.n0, hi - lo, (b, t) => a.mask.at(b, t + lo)))
  }

  /** The final state `gdn_forward` returns, as a tensor. */
  ghost function FinalState(a: Args): (r: Tensor4)
    requires WellFormed(a)
    ensures SameShape4(r, a.state)
    ensures forall b, h, d :: Fiber4(r, b, h, d) == Run(RowState(a, b, h, d), RowTokens(a, b, h, d))
  {
    var n := a.Dk();
    var r := Tensor4(a.B(), a.Hv(), a.Dv(), n,
                     (b, h, d, i) => if 0 <= i < n then Run(RowState(a, b, h, d), RowTokens(a, b, h, d))[i] else 0.0);
    assert forall b, h, d :: Fiber4(r, b, h, d) == Run(RowState(a, b, h, d), RowTokens(a, b, h, d)) by {
      forall b, h, d
        ensures Fiber4(r, b, h, d) == Run(RowState(a, b, h, d), RowTokens(a, b, h, d))
      {
        assert |Fiber4(r, b, h, d)| == n;
      }
    }
    r
  }

  lemma ChunkTokens(a: Args, lo: nat, hi: nat, state: Tensor4, b: int, h: int, d: int)
    requires WellFormed(a) && lo <= hi <= a.T() && SameShape4(state, a.state)
    ensures RowTokens(Chunk(a, lo, hi, state), b, h, d) == RowTokens(a, b, h, d)[lo..hi]
  {
    var c := Chunk(a, lo, hi, state);
    Grouping(a);
    forall t | 0 <= t < hi - lo
      ensures RowTokens(c, b, h, d)[t] == RowTokens(a, b, h, d)[lo..hi][t]
    {
      assert Fiber4(c.q, b, t, h / a.R()) == Fiber4(a.q, b, t + lo, h / a.R());
      assert Fiber4(c.k, b, t, h / a.R()) == Fiber4(a.k, b, t + lo, h / a.R());
    }
  }

  /** First and second chunk of `a` split before step `m`; the second starts where the first ends. */
  ghost function First(a: Args, m: nat): (r: Args)
    requires WellFormed(a) && m <= a.T()
    ensures WellFormed(r) && r.T() == m && SameShape4(FinalState(r), a.state)
  {
    Chunk(a, 0, m, a.state)
  }

  ghost function Second(a: Args, m: nat): (r: Args)
    requires WellFormed(a) && m <= a.T()
    ensures WellFormed(r) && r.T() == a.T() - m
  {
    Chunk(a, m, a.T(), FinalState(First(a, m)))
  }

  lemma SplitRow(a: Args, m: nat, b: int, h: int, d: int)
    requires WellFormed(a) && m <= a.T()
    ensures RowTokens(a, b, h, d) == RowTokens(First(a, m), b, h, d) + RowTokens(Second(a, m), b, h, d)
    ensures RowState(First(a, m), b, h, d) == RowState(a, b, h, d)
    ensures RowState(Second(a, m), b, h, d) == Run(RowState(a, b, h, d), RowTokens(First(a, m), b, h, d))
  {
    hide Run;
    ChunkTokens(a, 0, m, a.state, b, h, d);
    ChunkTokens(a, m, a.T(), FinalState(First(a, m)), b, h, d);
    assert RowTokens(a, b, h, d) == RowTokens(a, b, h, d)[0..m] + RowTokens(a, b, h, d)[m..a.T()];
  }

  /** Two `gdn_forward` calls joined by the carried state compute the whole sequence. */
  lemma ForwardChunks(a: Args, m: nat, b: int, h: int, d: int)
    requires WellFormed(a) && m <= a.T() && InHeads(a, b, h, d)
    ensures Fiber4(FinalState(a), b, h, d) == Fiber4(FinalState(Second(a, m)), b, h, d)
    ensures forall t | 0 <= t < a.T() ::
        OutAt(a, b, h, d, t) == if t < m then OutAt(First(a, m), b, h, d, t) else OutAt(Second(a, m), b, h, d, t - m)
  {
    hide Run, Outs, RowTokens;
    SplitRow(a, m, b, h, d);
    RunChunks(RowState(a, b, h, d), RowTokens(First(a, m), b, h, d), RowTokens(Second(a, m), b, h, d));
  }

  // ---------------------------------------------------------------- backpropagation across the boundary

  /** Backward on the second chunk, then on the first with the second's state cotangent. */
  ghost function SecondGradients(a: Args, m: nat, dy: Tensor4, ds: Tensor4): Inputs
    requires WellFormed(a) && Cotangents(a, dy, ds) && m <= a.T()
  {
    Gradients(Second(a, m), Slice4(dy, m, a.T()), ds)
  }

  ghost function FirstGradients(a: Args, m: nat, dy: Tensor4, ds: Tensor4): Inputs
    requires WellFormed(a) && Cotangents(a, dy, ds) && m <= a.T()
  {
    Gradients(First(a, m), Slice4(dy, 0, m), SecondGradients(a, m, dy, ds).state)
  }

  lemma SplitBack(a: Args, m: nat, dy: Tensor4, ds: Tensor4, b: int, h: int, d: int)
    requires WellFormed(a) && Cotangents(a, dy, ds) && m <= a.T()
    ensures var second := RowBack(Second(a, m), Slice4(dy, m, a.T()), ds, b, h, d);
            var first := RowBack(First(a, m), Slice4(dy, 0, m), SecondGradients(a, m, dy, ds).state, b, h, d);
            RowBack(a, dy, ds, b, h, d) == Back(first.grads + second.grads, first.carry)
  {
    hide Run, Reverse, RowTokens;
    var dy1, dy2 := RowDy(Slice4(dy, 0, m), b, h, d), RowDy(Slice4(dy, m, a.T()), b, h, d);
    SplitRow(a, m, b, h, d);
    assert RowDy(dy, b, h, d) == dy1 + dy2;
    StateCotangent(Second(a, m), Slice4(dy, m, a.T()), ds, b, h, d);
    ReverseChunks(RowState(a, b, h, d), RowTokens(First(a, m), b, h, d), RowTokens(Second(a, m), b, h, d),
                  dy1, dy2, Fiber4(ds, b, h, d));
  }

  lemma StateCotangent(a: Args, dy: Tensor4, ds: Tensor4, b: int, h: int, d: int)
    requires WellFormed(a) && Cotangents(a, dy, ds)
    ensures Fiber4(Gradients(a, dy, ds).state, b, h, d) == RowBack(a, dy, ds, b, h, d).carry
  {
    hide Reverse;
    var carry := CarryAt(a, dy, ds, b, h, d, 0);
    assert RowTokens(a, b, h, d)[0..] == RowTokens(a, b, h, d);
    assert RowDy(dy, b, h, d)[0..] == RowDy(dy, b, h, d);
    assert Fiber4(Gradients(a, dy, ds).state, b, h, d) == carry;
  }

  /** Every token gradient of the whole is the one its chunk returns. */
  lemma SplitGrad(a: Args, m: nat, dy: Tensor4, ds: Tensor4, b: int, h: int, d: int, t: nat)
    requires WellFormed(a) && Cotangents(a, dy, ds) && m <= a.T() && t < a.T()
    ensures GradAt(a, dy, ds, b, h, d, t)
            == if t < m then GradAt(First(a, m), Slice4(dy, 0, m), SecondGradients(a, m, dy, ds).state, b, h, d, t)
               else GradAt(Second(a, m), Slice4(dy, m, a.T()), ds, b, h, d, t - m)
  {
    hide Reverse, RowBack;
    SplitBack(a, m, dy, ds, b, h, d);
  }

  /** Entry (b, lo + u) of gradients `g` is entry (b, u) of gradients `c`, in all five time-indexed tensors. */
  ghost predicate SameAt(a: Args, g: Inputs, c: Inputs, b: int, lo: int, u: int) {
    && (forall h, i | 0 <= i < a.Dk() :: g.q.at(b, lo + u, h, i) == c.q.at(b, u, h, i))
    && (forall h, i | 0 <= i < a.Dk() :: g.k.at(b, lo + u, h, i) == c.k.at(b, u, h, i))
    && (forall h, d :: g.v.at(b, lo + u, h, d) == c.v.at(b, u, h, d))
    && (forall h :: g.g.at(b, lo + u, h) == c.g.at(b, u, h) && g.beta.at(b, lo + u, h) == c.beta.at(b, u, h))
  }

  /** A chunk call whose row gradients at local time `u` are those of the whole at time `t` returns
      the same gradients there. */
  lemma SameGradients(a: Args, dy: Tensor4, ds: Tensor4, c: Args, dyc: Tensor4, dsc: Tensor4, b: int, t: nat, u: nat)
    requires WellFormed(a) && Cotangents(a, dy, ds) && WellFormed(c) && Cotangents(c, dyc, dsc)
    requires t < a.T() && u < c.T() && c.Dk() == a.Dk() && c.Dv() == a.Dv() && c.Hk() == a.Hk() && c.Hv() == a.Hv()
    requires forall h, d :: GradAt(a, dy, ds, b, h, d, t) == GradAt(c, dyc, dsc, b, h, d, u)
    ensures SameAt(a, Gradients(a, dy, ds), Gradients(c, dyc, dsc), b, t - u, u)
  {
    hide GradAt;
    forall h
      ensures HeadQ(a, dy, ds, b, t, h) == HeadQ(c, dyc, dsc, b, u, h)
      ensures HeadK(a, dy, ds, b, t, h) == HeadK(c, dyc, dsc, b, u, h)
      ensures HeadG(a, dy, ds, b, t, h) == HeadG(c, dyc, dsc, b, u, h)
      ensures HeadBeta(a, dy, ds, b, t, h) == HeadBeta(c, dyc, dsc, b, u, h)
    {
      VecSumEqual(a.Dv(), a.Dk(), d => GradAt(a, dy, ds, b, h, d, t).q, d => GradAt(c, dyc, dsc, b, h, d, u).q);
      VecSumEqual(a.Dv(), a.Dk(), d => GradAt(a, dy, ds, b, h, d, t).k, d => GradAt(c, dyc, dsc, b, h, d, u).k);
      SumEqual(a.Dv(), d => GradAt(a, dy, ds, b, h, d, t).g, d => GradAt(c, dyc, dsc, b, h, d, u).g);
      SumEqual(a.Dv(), d => GradAt(a, dy, ds, b, h, d, t).beta, d => GradAt(c, dyc, dsc, b, h, d, u).beta);
    }
    SameGroups(a, dy, ds, c, dyc, dsc, b, t, u);
  }

  lemma SameGroups(a: Args, dy: Tensor4, ds: Tensor4, c: Args, dyc: Tensor4, dsc: Tensor4, b: int, t: nat, u: nat)
    requires WellFormed(a) && Cotangents(a, dy, ds) && WellFormed(c) && Cotangents(c, dyc, dsc)
    requires t < a.T() && u < c.T() && c.Dk() == a.Dk() && c.Hk() == a.Hk() && c.Hv() == a.Hv()
    requires forall h :: HeadQ(a, dy, ds, b, t, h) == HeadQ(c, dyc, dsc, b, u, h)
    requires forall h :: HeadK(a, dy, ds, b, t, h) == HeadK(c, dyc, dsc, b, u, h)
    ensures forall hk :: GroupQ(a, dy, ds, b, t, hk) == GroupQ(c, dyc, dsc, b, u, hk)
    ensures forall hk :: GroupK(a, dy, ds, b, t, hk) == GroupK(c, dyc, dsc, b, u, hk)
  {
    hide HeadQ, HeadK;
    forall hk
      ensures GroupQ(a, dy, ds, b, t, hk) == GroupQ(c, dyc, dsc, b, u, hk)
      ensures GroupK(a, dy, ds, b, t, hk) == GroupK(c, dyc, dsc, b, u, hk)
    {
      VecSumEqual(a.R(), a.Dk(), j => MemberQ(a, dy, ds, b, t, hk, j), j => MemberQ(c, dyc, dsc, b, u, hk, j));
      VecSumEqual(a.R(), a.Dk(), j => MemberK(a, dy, ds, b, t, hk, j), j => MemberK(c, dyc, dsc, b, u, hk, j));
    }
  }

  /** Backpropagation through a chunk boundary loses nothing: the two chunk calls return exactly the
      gradients of the whole-sequence call. */
  lemma BackwardChunks(a: Args, m: nat, dy: Tensor4, ds: Tensor4)
    requires WellFormed(a) && Cotangents(a, dy, ds) && m <= a.T()
    ensures var (g, g1, g2) := (Gradients(a, dy, ds), FirstGradients(a, m, dy, ds), SecondGradients(a, m, dy, ds));
            && (forall b, u | 0 <= u < m :: SameAt(a, g, g1, b, 0, u))
            && (forall b, u | 0 <= u < a.T() - m :: SameAt(a, g, g2, b, m, u))
            && (forall b, h, d :: Fiber4(g.state, b, h, d) == Fiber4(g1.state, b, h, d))
  {
    hide GradAt, RowBack, Gradients, SameAt;
    var (c1, c2) := (First(a, m), Second(a, m));
    var (dy1, dy2) := (Slice4(dy, 0, m), Slice4(dy, m, a.T()));
    var ds1 := SecondGradients(a, m, dy, ds).state;
    forall b, u | 0 <= u < m
      ensures SameAt(a, Gradients(a, dy, ds), Gradients(c1, dy1, ds1), b, 0, u)
    {
      forall h, d
        ensures GradAt(a, dy, ds, b, h, d, u) == GradAt(c1, dy1, ds1, b, h, d, u)
      {
        SplitGrad(a, m, dy, ds, b, h, d, u);
      }
      SameGradients(a, dy, ds, c1, dy1, ds1, b, u, u);
    }
    forall b, u | 0 <= u < a.T() - m
      ensures SameAt(a, Gradients(a, dy, ds), Gradients(c2, dy2, ds), b, m, u)
    {
      var t := m + u;
      forall h, d
        ensures GradAt(a, dy, ds, b, h, d, t) == GradAt(c2, dy2, ds, b, h, d, u)
      {
        SplitGrad(a, m, dy, ds, b, h, d, t);
      }
      SameGradients(a, dy, ds, c2, dy2, ds, b, t, u);
    }
    forall b, h, d
      ensures Fiber4(Gradients(a, dy, ds).state, b, h, d) == Fiber4(Gradients(c1, dy1, ds1).state, b, h, d)
    {
      SplitBack(a, m, dy, ds, b, h, d);
      StateCotangent(a, dy, ds, b, h, d);
      StateCotangent(c1, dy1, ds1, b, h, d);
    }
  }

  // ---------------------------------------------------------------- stability of the whole state

  /** Squared Frobenius distance of two state tensors. */
  function Frobenius2(x: Tensor4, y: Tensor4): real
    requires x.n3 == y.n3
  {
    Sum(x.n0, b => Sum(x.n1, h => Sum(x.n2, d => Dist2(Fiber4(x, b, h, d), Fiber4(y, b, h, d)))))
  }

  /** Gates do not amplify and `beta * |k|^2` stays within two, on every active step. */
  ghost predicate StableInputs(a: Args)
    requires WellFormed(a)
  {
    forall b, t, h | 0 <= b < a.B() && 0 <= t < a.T() && 0 <= h < a.Hv() && a.mask.at(b, t) ::
      && -1.0 <= a.g.at(b, t, h) <= 1.0
      && 0.0 <= a.beta.at(b, t, h) * Norm2(Fiber4(a.k, b, t, h / a.R())) <= 2.0
  }

  /** Two whole runs on the same inputs from different states never drift apart. */
  lemma StateStability(a: Args, other: Tensor4)
    requires WellFormed(a) && SameShape4(other, a.state) && StableInputs(a)
    ensures var a' := a.(state := other);
            WellFormed(a') && Frobenius2(FinalState(a), FinalState(a')) <= Frobenius2(a.state, other)
  {
    hide Sum, Dist2, Run, RowTokens;
    var a' := a.(state := other);
    var s, s' := FinalState(a), FinalState(a');
    var f := b => Sum(s.n1, h => Sum(s.n2, d => Dist2(Fiber4(s, b, h, d), Fiber4(s', b, h, d))));
    var g := b => Sum(s.n1, h => Sum(s.n2, d => Dist2(Fiber4(a.state, b, h, d), Fiber4(other, b, h, d))));
    forall b | 0 <= b < a.B()
      ensures f(b) <= g(b)
    {
      var fh := h => Sum(s.n2, d => Dist2(Fiber4(s, b, h, d), Fiber4(s', b, h, d)));
      var gh := h => Sum(s.n2, d => Dist2(Fiber4(a.state, b, h, d), Fiber4(other, b, h, d)));
      forall h | 0 <= h < a.Hv()
        ensures fh(h) <= gh(h)
      {
        forall d | 0 <= d < a.Dv()
          ensures Dist2(Fiber4(s, b, h, d), Fiber4(s', b, h, d)) <= Dist2(Fiber4(a.state, b, h, d), Fiber4(other, b, h, d))
        {
          StableRow(a, other, b, h, d);
        }
        SumLe(s.n2, d => Dist2(Fiber4(s, b, h, d), Fiber4(s', b, h, d)),
              d => Dist2(Fiber4(a.state, b, h, d), Fiber4(other, b, h, d)));
      }
      SumLe(s.n1, fh, gh);
    }
    SumLe(s.n0, f, g);
  }

  lemma StableRow(a: Args, other: Tensor4, b: int, h: int, d: int)
    requires WellFormed(a) && SameShape4(other, a.state) && StableInputs(a) && InHeads(a, b, h, d)
    ensures var a' := a.(state := other);
            WellFormed(a') && Dist2(Fiber4(FinalState(a), b, h, d), Fiber4(FinalState(a'), b, h, d))
                              <= Dist2(Fiber4(a.state, b, h, d), Fiber4(other, b, h, d))
  {
    hide Dist2, Run;
    var a' := a.(state := other);
    assert RowTokens(a', b, h, d) == RowTokens(a, b, h, d);
    RowStable(RowState(a, b, h, d), RowState(a', b, h, d), RowTokens(a, b, h, d));
  }
}
