/** The tensor level of the gated DeltaNet oracle: validation, the forward loop, the reverse loop. */
module Gdn {
  import opened Vectors
  import opened Tensors
  import opened GdnRow

  /** Validated arguments. */
  datatype Args = Args(q: Tensor4, k: Tensor4, v: Tensor4, g: Tensor3, beta: Tensor3, state: Tensor4, mask: Mask) {
    function B(): nat { q.n0 }
    function T(): nat { q.n1 }
    function Hk(): nat { q.n2 }
    function Dk(): nat { q.n3 }
    function Hv(): nat { v.n2 }
    function Dv(): nat { v.n3 }

    /** Value heads per key head. */
    function R(): nat
      requires Hk() > 0
    {
      Hv() / Hk()
    }
  }

  predicate WellFormed(a: Args) {
    && SameShape4(a.q, a.k)
    && a.v.n0 == a.B() && a.v.n1 == a.T()
    && a.B() > 0 && a.Hk() > 0 && a.Dk() > 0 && a.Hv() > 0 && a.Dv() > 0
    && a.Hv() % a.Hk() == 0
    && a.g.n0 == a.B() && a.g.n1 == a.T() && a.g.n2 == a.Hv()
    && SameShape3(a.g, a.beta)
    && a.state.n0 == a.B() && a.state.n1 == a.Hv() && a.state.n2 == a.Dv() && a.state.n3 == a.Dk()
    && a.mask.n0 == a.B() && a.mask.n1 == a.T()
  }

  /** The state and mask that stand in for absent ones. */
  function StateOr(state: Option<Tensor4>, q: Tensor4, v: Tensor4): Tensor4 {
    if state.Some? then state.value else Zeros4(q.n0, v.n2, v.n3, q.n3)
  }

  function MaskOr(mask: Option<Mask>, q: Tensor4): Mask {
    if mask.Some? then mask.value else Mask(q.n0, q.n1, (b, t) => true)
  }

  /** Shape checks in the order of the source: they accept exactly the shapes listed. An absent state is
      zero, an absent mask is true everywhere, and nothing the caller passes is changed. */
  function Validate(q: Tensor4, k: Tensor4, v: Tensor4, g: Tensor3, beta: Tensor3,
                    state: Option<Tensor4>, mask: Option<Mask>): (r: Result<Args>)
    ensures var a := Args(q, k, v, g, beta, StateOr(state, q, v), MaskOr(mask, q));
            r == if WellFormed(a) then Success(a) else ContractError
    ensures r.Success? <==>
        && k.n0 == q.n0 && k.n1 == q.n1 && k.n2 == q.n2 && k.n3 == q.n3
        && v.n0 == q.n0 && v.n1 == q.n1
        && q.n0 > 0 && q.n2 > 0 && q.n3 > 0 && v.n2 > 0 && v.n3 > 0 && v.n2 % q.n2 == 0
        && g.n0 == q.n0 && g.n1 == q.n1 && g.n2 == v.n2
        && beta.n0 == q.n0 && beta.n1 == q.n1 && beta.n2 == v.n2
        && (state.Some? ==> state.value.n0 == q.n0 && state.value.n1 == v.n2 && state.value.n2 == v.n3 && state.value.n3 == q.n3)
        && (mask.Some? ==> mask.value.n0 == q.n0 && mask.value.n1 == q.n1)
    ensures r.Success? ==>
        && r.value.q == q && r.value.k == k && r.value.v == v && r.value.g == g && r.value.beta == beta
        && (state.Some? ==> r.value.state == state.value)
        && (mask.Some? ==> r.value.mask == mask.value)
        && (state.None? ==> forall b, h, d, i :: r.value.state.at(b, h, d, i) == 0.0)
        && (mask.None? ==> forall b, t :: r.value.mask.at(b, t))
  {
    if !SameShape4(k, q) || v.n0 != q.n0 || v.n1 != q.n1 then ContractError
    else if q.n0 == 0 || q.n2 == 0 || q.n3 == 0 || v.n2 == 0 || v.n3 == 0 || v.n2 % q.n2 != 0 then ContractError
    else if g.n0 != q.n0 || g.n1 != q.n1 || g.n2 != v.n2 || !SameShape3(beta, g) then ContractError
    else
      var s, m := StateOr(state, q, v), MaskOr(mask, q);
      if s.n0 != q.n0 || s.n1 != v.n2 || s.n2 != v.n3 || s.n3 != q.n3 then ContractError
      else if m.n0 != q.n0 || m.n1 != q.n1 then ContractError
      else Success(Args(q, k, v, g, beta, s, m))
  }

  /** Head grouping: a value head lies in a key head, and every (key head, offset) is a value head. */
  lemma Grouping(a: Args)
    requires WellFormed(a)
    ensures a.R() > 0 && a.Hk() * a.R() == a.Hv()
  {
  }

  /** Leaving out the mask is passing one that is true everywhere, and leaving out the state is passing
      zeros: every row reads the same tokens from the same state, so outputs and final state agree. */
  lemma Defaults(q: Tensor4, k: Tensor4, v: Tensor4, g: Tensor3, beta: Tensor3,
                 state: Option<Tensor4>, mask: Option<Mask>, zeros: Tensor4, ones: Mask)
    requires state.None? ==> zeros.n0 == q.n0 && zeros.n1 == v.n2 && zeros.n2 == v.n3 && zeros.n3 == q.n3
                             && forall b, h, d, i :: zeros.at(b, h, d, i) == 0.0
    requires mask.None? ==> ones.n0 == q.n0 && ones.n1 == q.n1 && forall b, t :: ones.at(b, t)
    requires Validate(q, k, v, g, beta, state, mask).Success?
    ensures var explicit := Validate(q, k, v, g, beta, Some(if state.Some? then state.value else zeros),
                                     Some(if mask.Some? then mask.value else ones));
            && explicit.Success?
            && (forall b, h, d :: RowTokens(Validate(q, k, v, g, beta, state, mask).value, b, h, d) == RowTokens(explicit.value, b, h, d)
                                  && RowState(Validate(q, k, v, g, beta, state, mask).value, b, h, d) == RowState(explicit.value, b, h, d))
  {
  }

  predicate InHeads(a: Args, b: int, h: int, d: int) {
    0 <= b < a.B() && 0 <= h < a.Hv() && 0 <= d < a.Dv()
  }

  // ---------------------------------------------------------------- rows of the tensors

  /** What row (b, h, d) reads at time t: the keys of its key head, its own value, gate and beta. */
  function RowToken(a: Args, b: int, h: int, d: int, t: int): (x: Token)
    requires WellFormed(a)
    ensures |x.q| == |x.k| == a.Dk()
  {
    Grouping(a);
    Token(Fiber4(a.q, b, t, h / a.R()), Fiber4(a.k, b, t, h / a.R()),
          a.v.at(b, t, h, d), a.g.at(b, t, h), a.beta.at(b, t, h), a.mask.at(b, t))
  }

  function RowTokens(a: Args, b: int, h: int, d: int): (xs: seq<Token>)
    requires WellFormed(a)
    ensures |xs| == a.T() && Fits(a.Dk(), xs)
    ensures forall t | 0 <= t < a.T() :: xs[t] == RowToken(a, b, h, d, t)
  {
    seq(a.T(), t requires 0 <= t < a.T() => RowToken(a, b, h, d, t))
  }

  function RowState(a: Args, b: int, h: int, d: int): (s: Vec)
    requires WellFormed(a)
    ensures |s| == a.Dk()
  {
    Fiber4(a.state, b, h, d)
  }

  /** Output cotangents of one row, by time. */
  function RowDy(dy: Tensor4, b: int, h: int, d: int): (r: seq<real>)
    ensures |r| == dy.n1
  {
    seq(dy.n1, t requires 0 <= t < dy.n1 => dy.at(b, t, h, d))
  }

  // ---------------------------------------------------------------- forward loop

  /** The record the forward loop keeps for one time step. */
  datatype Step = Step(prev: Tensor4, decayed: Tensor4, residual: Tensor3, delta: Tensor3, updated: Tensor4)

  /** The row slice of a step record agrees with the row recurrence in state `s`. */
  ghost predicate StepMatches(st: Step, s: Vec, x: Token, b: int, h: int, d: int)
    requires |x.k| == |s|
  {
    && Fiber4(st.prev, b, h, d) == s
    && Fiber4(st.decayed, b, h, d) == Decayed(s, x)
    && st.residual.at(b, h, d) == Residual(s, x)
    && st.delta.at(b, h, d) == Delta(s, x)
    && Fiber4(st.updated, b, h, d) == Updated(s, x)
  }

  /** The array expressions of one iteration of the forward loop. */
  function ForwardStep(a: Args, kr: Tensor4, prev: Tensor4, t: int): (st: Step)
    requires WellFormed(a) && kr.n3 == a.Dk()
    ensures st.prev == prev
    ensures st.updated.n0 == a.B() && st.updated.n1 == a.Hv() && st.updated.n2 == a.Dv() && st.updated.n3 == a.Dk()
    ensures st.decayed.n3 == a.Dk() && st.delta.n2 == a.Dv()
  {
    var decayed := Tensor4(a.B(), a.Hv(), a.Dv(), a.Dk(), (b, h, d, i) => prev.at(b, h, d, i) * a.g.at(b, t, h));
    var residual := Tensor3(a.B(), a.Hv(), a.Dv(),
                            (b, h, d) => a.v.at(b, t, h, d) - Dot(Fiber4(decayed, b, h, d), Fiber4(kr, b, t, h)));
    var delta := Tensor3(a.B(), a.Hv(), a.Dv(), (b, h, d) => a.beta.at(b, t, h) * residual.at(b, h, d));
    var updated := Tensor4(a.B(), a.Hv(), a.Dv(), a.Dk(),
                           (b, h, d, i) => decayed.at(b, h, d, i) + delta.at(b, h, d) * kr.at(b, t, h, i));
    Step(prev, decayed, residual, delta, updated)
  }

  lemma ForwardStepRow(a: Args, kr: Tensor4, prev: Tensor4, t: int, b: int, h: int, d: int)
    requires WellFormed(a) && kr.n3 == a.Dk() && prev.n3 == a.Dk()
    requires Fiber4(kr, b, t, h) == RowToken(a, b, h, d, t).k
    ensures StepMatches(ForwardStep(a, kr, prev, t), Fiber4(prev, b, h, d), RowToken(a, b, h, d, t), b, h, d)
  {
    var st, s, x := ForwardStep(a, kr, prev, t), Fiber4(prev, b, h, d), RowToken(a, b, h, d, t);
    forall i | 0 <= i < a.Dk()
      ensures Fiber4(st.decayed, b, h, d)[i] == Decayed(s, x)[i]
    {
      assert Fiber4(st.decayed, b, h, d)[i] == prev.at(b, h, d, i) * x.g;
      assert s[i] == prev.at(b, h, d, i);
    }
    assert Fiber4(st.decayed, b, h, d) == Decayed(s, x);
    forall i | 0 <= i < a.Dk()
      ensures Fiber4(st.updated, b, h, d)[i] == Updated(s, x)[i]
    {
      assert Fiber4(kr, b, t, h)[i] == kr.at(b, t, h, i);
      assert Fiber4(st.decayed, b, h, d)[i] == st.decayed.at(b, h, d, i);
    }
  }

  /** `np.where(active, updated, prev)`. */
  function Advance(a: Args, st: Step, t: int): (s: Tensor4)
    requires WellFormed(a)
    ensures s.n0 == a.B() && s.n1 == a.Hv() && s.n2 == a.Dv() && s.n3 == a.Dk()
  {
    Tensor4(a.B(), a.Hv(), a.Dv(), a.Dk(),
            (b, h, d, i) => if a.mask.at(b, t) then st.updated.at(b, h, d, i) else st.prev.at(b, h, d, i))
  }

  lemma AdvanceRow(a: Args, st: Step, t: int, s: Vec, b: int, h: int, d: int)
    requires WellFormed(a) && |s| == a.Dk() && st.prev.n3 == st.updated.n3 == a.Dk()
    requires StepMatches(st, s, RowToken(a, b, h, d, t), b, h, d)
    ensures Fiber4(Advance(a, st, t), b, h, d) == Next(s, RowToken(a, b, h, d, t))
  {
    var x := RowToken(a, b, h, d, t);
    assert Fiber4(Advance(a, st, t), b, h, d) == if x.mask then Fiber4(st.updated, b, h, d) else Fiber4(st.prev, b, h, d);
  }

  /** The state of row (b, h, d) before step t. */
  ghost function StateAt(a: Args, b: int, h: int, d: int, t: nat): (s: Vec)
    requires WellFormed(a) && t <= a.T()
    ensures |s| == a.Dk()
  {
    Run(RowState(a, b, h, d), RowTokens(a, b, h, d)[..t])
  }

  /** The output of row (b, h, d) at step t. */
  ghost function OutAt(a: Args, b: int, h: int, d: int, t: int): real
    requires WellFormed(a) && 0 <= t < a.T()
  {
    Outs(RowState(a, b, h, d), RowTokens(a, b, h, d))[t]
  }

  lemma StateAtNext(a: Args, b: int, h: int, d: int, t: nat)
    requires WellFormed(a) && t < a.T()
    ensures StateAt(a, b, h, d, t + 1) == Next(StateAt(a, b, h, d, t), RowToken(a, b, h, d, t))
    ensures OutAt(a, b, h, d, t) == Out(StateAt(a, b, h, d, t), RowToken(a, b, h, d, t))
  {
    hide Next, Out;
    var s, xs := RowState(a, b, h, d), RowTokens(a, b, h, d);
    assert xs[..t + 1] == xs[..t] + [xs[t]];
    RunChunks(s, xs[..t], [xs[t]]);
    assert [xs[t]][1..] == [];
    assert xs == xs[..t] + xs[t..];
    RunChunks(s, xs[..t], xs[t..]);
    assert xs[t..][0] == xs[t];
  }

  /** Outputs and final state are those of the row recurrence, for every batch, head and value row. */
  ghost predicate ForwardOk(a: Args, y: array4<real>, s: Tensor4)
    requires WellFormed(a)
    reads y
  {
    && y.Length0 == a.B() && y.Length1 == a.T() && y.Length2 == a.Hv() && y.Length3 == a.Dv()
    && s.n0 == a.B() && s.n1 == a.Hv() && s.n2 == a.Dv() && s.n3 == a.Dk()
    && (forall b, h, d | InHeads(a, b, h, d) ::
          Fiber4(s, b, h, d) == Run(RowState(a, b, h, d), RowTokens(a, b, h, d)))
    && (forall b, h, d, t | InHeads(a, b, h, d) && 0 <= t < a.T() ::
          y[b, t, h, d] == OutAt(a, b, h, d, t))
  }

  ghost predicate TraceOk(a: Args, trace: seq<Step>, n: nat)
    requires WellFormed(a) && n <= a.T()
  {
    && |trace| == n
    && (forall t | 0 <= t < n :: trace[t].prev.n3 == trace[t].updated.n3 == trace[t].decayed.n3 == a.Dk()
                                 && trace[t].delta.n2 == a.Dv())
    && (forall t, b, h, d | 0 <= t < n && InHeads(a, b, h, d) ::
          StepMatches(trace[t], StateAt(a, b, h, d, t), RowToken(a, b, h, d, t), b, h, d))
  }

  /** `y[:, t] = np.where(mask, einsum(updated, qr), 0)`. */
  method WriteOutput(a: Args, y: array4<real>, st: Step, qr: Tensor4, t: nat)
    requires WellFormed(a) && t < a.T()
    requires y.Length0 == a.B() && y.Length1 == a.T() && y.Length2 == a.Hv() && y.Length3 == a.Dv()
    requires st.updated.n3 == qr.n3 == a.Dk()
    requires forall b, h | 0 <= b < a.B() && 0 <= h < a.Hv() :: Fiber4(qr, b, t, h) == RowToken(a, b, h, 0, t).q
    requires forall b, h, d | InHeads(a, b, h, d) ::
        StepMatches(st, StateAt(a, b, h, d, t), RowToken(a, b, h, d, t), b, h, d)
    modifies y
    ensures forall b, h, d | InHeads(a, b, h, d) :: y[b, t, h, d] == OutAt(a, b, h, d, t)
    ensures forall b, h, d, t' | InHeads(a, b, h, d) && 0 <= t' < a.T() && t' != t :: y[b, t', h, d] == old(y[b, t', h, d])
  {
    hide Dot, StateAt, OutAt, Updated, Decayed, Residual, Delta;
    forall b, h, d | 0 <= b < a.B() && 0 <= h < a.Hv() && 0 <= d < a.Dv() {
      y[b, t, h, d] := if a.mask.at(b, t) then Dot(Fiber4(st.updated, b, h, d), Fiber4(qr, b, t, h)) else 0.0;
    }
    forall b, h, d | InHeads(a, b, h, d)
      ensures y[b, t, h, d] == OutAt(a, b, h, d, t)
    {
      StateAtNext(a, b, h, d, t);
      assert RowToken(a, b, h, 0, t).q == RowToken(a, b, h, d, t).q;
    }
  }

  /** So a call that leaves them out has the results of the call that spells them out. */
  lemma DefaultCalls(q: Tensor4, k: Tensor4, v: Tensor4, g: Tensor3, beta: Tensor3,
                     state: Option<Tensor4>, mask: Option<Mask>, zeros: Tensor4, ones: Mask, y: array4<real>, s: Tensor4)
    requires state.None? ==> zeros.n0 == q.n0 && zeros.n1 == v.n2 && zeros.n2 == v.n3 && zeros.n3 == q.n3
                             && forall b, h, d, i :: zeros.at(b, h, d, i) == 0.0
    requires mask.None? ==> ones.n0 == q.n0 && ones.n1 == q.n1 && forall b, t :: ones.at(b, t)
    requires Validate(q, k, v, g, beta, state, mask).Success?
    ensures var explicit := Validate(q, k, v, g, beta, Some(if state.Some? then state.value else zeros),
                                     Some(if mask.Some? then mask.value else ones));
            explicit.Success?
            && (ForwardOk(Validate(q, k, v, g, beta, state, mask).value, y, s) <==> ForwardOk(explicit.value, y, s))
  {
    Defaults(q, k, v, g, beta, state, mask, zeros, ones);
    var a := Validate(q, k, v, g, beta, state, mask).value;
    var a' := Validate(q, k, v, g, beta, Some(if state.Some? then state.value else zeros),
                       Some(if mask.Some? then mask.value else ones)).value;
    forall b, h, d
      ensures RowTokens(a, b, h, d) == RowTokens(a', b, h, d) && RowState(a, b, h, d) == RowState(a', b, h, d)
    {
    }
    hide RowTokens, RowState, Validate, WellFormed;
  }

  method Forward(a: Args, record: bool) returns (y: array4<real>, s: Tensor4, trace: seq<Step>)
    requires WellFormed(a)
    ensures fresh(y) && ForwardOk(a, y, s)
    ensures TraceOk(a, trace, if record then a.T() else 0)
  {
    hide StateAt, OutAt, Next, StepMatches, Fiber4, ForwardStep, Advance, Run;
    Grouping(a);
    var qr, kr := Repeat(a.q, a.R()), Repeat(a.k, a.R());
    y := new real[a.B(), a.T(), a.Hv(), a.Dv()]((b, t, h, d) => 0.0);
    s, trace := a.state, [];
    StateAtStart(a);
    for t := 0 to a.T()
      invariant s.n0 == a.B() && s.n1 == a.Hv() && s.n2 == a.Dv() && s.n3 == a.Dk()
      invariant forall b, h, d | InHeads(a, b, h, d) :: Fiber4(s, b, h, d) == StateAt(a, b, h, d, t)
      invariant forall b, h, d, t' | InHeads(a, b, h, d) && 0 <= t' < t :: y[b, t', h, d] == OutAt(a, b, h, d, t')
      invariant TraceOk(a, trace, if record then t else 0)
    {
      var st := ForwardStep(a, kr, s, t);
      forall b, h, d | InHeads(a, b, h, d)
        ensures StepMatches(st, StateAt(a, b, h, d, t), RowToken(a, b, h, d, t), b, h, d)
      {
        ForwardStepRow(a, kr, s, t, b, h, d);
      }
      s := Advance(a, st, t);
      WriteOutput(a, y, st, qr, t);
      forall b, h, d | InHeads(a, b, h, d)
        ensures Fiber4(s, b, h, d) == StateAt(a, b, h, d, t + 1)
      {
        AdvanceRow(a, st, t, StateAt(a, b, h, d, t), b, h, d);
        StateAtNext(a, b, h, d, t);
      }
      if record {
        trace := trace + [st];
      }
    }
    StateAtEnd(a);
  }

  lemma StateAtStart(a: Args)
    requires WellFormed(a)
    ensures forall b, h, d | InHeads(a, b, h, d) :: StateAt(a, b, h, d, 0) == Fiber4(a.state, b, h, d)
  {
  }

  lemma StateAtEnd(a: Args)
    requires WellFormed(a)
    ensures forall b, h, d | InHeads(a, b, h, d) ::
        StateAt(a, b, h, d, a.T()) == Run(RowState(a, b, h, d), RowTokens(a, b, h, d))
  {
    forall b, h, d | InHeads(a, b, h, d)
      ensures StateAt(a, b, h, d, a.T()) == Run(RowState(a, b, h, d), RowTokens(a, b, h, d))
    {
      assert RowTokens(a, b, h, d)[..a.T()] == RowTokens(a, b, h, d);
    }
  }

  datatype Output = Output(y: array4<real>, s: Tensor4)

  /** `gdn_forward`: succeeds exactly on the shapes the oracle accepts. */
  method GdnForward(q: Tensor4, k: Tensor4, v: Tensor4, g: Tensor3, beta: Tensor3,
                    state: Option<Tensor4>, mask: Option<Mask>) returns (r: Result<Output>)
    ensures r.Success? <==> Validate(q, k, v, g, beta, state, mask).Success?
    ensures r.Success? ==> ForwardOk(Validate(q, k, v, g, beta, state, mask).value, r.value.y, r.value.s)
  {
    var checked := Validate(q, k, v, g, beta, state, mask);
    match checked {
      case ContractError =>
        r := ContractError;
      case Success(a) =>
        var y, s, _ := Forward(a, false);
        r := Success(Output(y, s));
    }
  }
}
