/** Launches exist: from every launch state some interleaving finishes, so chains of launches exist for
    every input, and what is proved about them is about something. */
module DecodeRuns {
  import opened IntDiv
  import opened Vectors
  import opened Tensors
  import opened GdnRow
  import opened Gdn
  import opened BlockMachine
  import opened DecodeKernel
  import opened DecodeLaunch
  import opened DecodeRefinement

  lemma {:induction false} GridAppend(s: Shape, u: Buffers, ms: seq<Machine>, cs: seq<GridChoice>, more: seq<GridChoice>)
    requires Launchable(s) && Allocated(s, u) && GridSized(s, ms) && GridFeasible(s, u, ms, cs)
    requires GridFeasible(s, u, GridExecute(s, u, ms, cs), more)
    ensures GridFeasible(s, u, ms, cs + more)
    ensures GridExecute(s, u, ms, cs + more) == GridExecute(s, u, GridExecute(s, u, ms, cs), more)
    decreases |cs|
  {
    hide GridApply, GridEnabled, Launchable, Allocated;
    if cs == [] {
      assert cs + more == more;
    } else {
      assert (cs + more)[1..] == cs[1..] + more && (cs + more)[0] == cs[0];
      GridAppend(s, u, GridApply(s, u, ms, cs[0]), cs[1..], more);
    }
  }

  /** The grid schedule that runs `cs` in block `row` and nothing else. */
  ghost function OnlyBlock(row: nat, cs: seq<Choice>): (r: seq<GridChoice>)
    ensures |r| == |cs|
  {
    seq(|cs|, i requires 0 <= i < |cs| => GridChoice(row, cs[i]))
  }

  lemma {:induction false} RunOneBlock(s: Shape, u: Buffers, ms: seq<Machine>, row: nat, cs: seq<Choice>)
    requires Launchable(s) && Allocated(s, u) && GridSized(s, ms) && row < s.Rows()
    requires Feasible(BlockOf(s, u, row), ProgramOf(s, u, row), ms[row], cs)
    ensures GridFeasible(s, u, ms, OnlyBlock(row, cs))
    ensures GridExecute(s, u, ms, OnlyBlock(row, cs))
            == ms[row := Execute(BlockOf(s, u, row), ProgramOf(s, u, row), ms[row], cs)]
    decreases |cs|
  {
    hide BlockOf, ProgramOf, Apply, Enabled, Launchable, Allocated;
    if cs == [] {
      assert ms[row := ms[row]] == ms;
    } else {
      var c := GridChoice(row, cs[0]);
      var next := GridApply(s, u, ms, c);
      RunOneBlock(s, u, next, row, cs[1..]);
      assert OnlyBlock(row, cs)[0] == c && OnlyBlock(row, cs)[1..] == OnlyBlock(row, cs[1..]);
    }
  }

  ghost predicate BlockStuck(s: Shape, u: Buffers, ms: seq<Machine>, row: nat)
    requires Launchable(s) && Allocated(s, u) && GridSized(s, ms) && row < s.Rows()
  {
    Stuck(BlockOf(s, u, row), ProgramOf(s, u, row), ms[row])
  }

  /** Running the first `n` blocks to their ends, one after the other. */
  lemma {:induction false} RunBlocks(s: Shape, u: Buffers, ms: seq<Machine>, n: nat) returns (cs: seq<GridChoice>)
    requires Launchable(s) && Allocated(s, u) && GridLaunched(s, u, ms) && n <= s.Rows()
    ensures GridFeasible(s, u, ms, cs)
    ensures forall row | 0 <= row < n :: BlockStuck(s, u, GridExecute(s, u, ms, cs), row)
    ensures forall row | n <= row < s.Rows() :: GridExecute(s, u, ms, cs)[row] == ms[row]
  {
    hide BlockOf, ProgramOf, Launchable, Allocated, GridFeasible, GridExecute, Feasible, Execute, Stuck;
    if n == 0 {
      cs := [];
      NothingRun(s, u, ms);
    } else {
      var row := n - 1;
      cs := RunBlocks(s, u, ms, row);
      var mid := GridExecute(s, u, ms, cs);
      var (b, p) := (BlockOf(s, u, row), ProgramOf(s, u, row));
      var own := SomeScheduleEnds(b, p, ms[row]);
      RunOneBlock(s, u, mid, row, own);
      GridAppend(s, u, ms, cs, OnlyBlock(row, own));
      cs := cs + OnlyBlock(row, own);
      var end := GridExecute(s, u, ms, cs);
      assert end == mid[row := Execute(b, p, mid[row], own)];
      forall r | 0 <= r < n
        ensures BlockStuck(s, u, end, r)
      {
        assert r < row ==> BlockStuck(s, u, mid, r) && end[r] == mid[r];
      }
    }
  }

  lemma NothingRun(s: Shape, u: Buffers, ms: seq<Machine>)
    requires Launchable(s) && Allocated(s, u) && GridSized(s, ms)
    ensures GridFeasible(s, u, ms, []) && GridExecute(s, u, ms, []) == ms
  {
  }

  /** From every launch state some interleaving of the whole grid finishes. */
  lemma SomeLaunchFinishes(s: Shape, u: Buffers, ms: seq<Machine>) returns (cs: seq<GridChoice>)
    requires Launchable(s) && Allocated(s, u) && GridLaunched(s, u, ms)
    ensures GridFinishes(s, u, ms, cs)
  {
    hide BlockOf, ProgramOf, Launchable, Allocated, GridFeasible, GridExecute;
    cs := RunBlocks(s, u, ms, s.Rows());
    var end := GridExecute(s, u, ms, cs);
    forall c
      ensures !GridEnabled(s, u, end, c)
    {
      assert c.row < s.Rows() ==> BlockStuck(s, u, end, c.row);
    }
  }

  // ---------------------------------------------------------------- buffers

  /** A launch about to start, with zeros in registers and shared memory. */
  ghost function Idle(s: Shape, u: Buffers): (ms: seq<Machine>)
    requires Launchable(s) && Allocated(s, u)
    ensures GridLaunched(s, u, ms)
  {
    var thread := Thread(0, 0.0, 0.0, 0.0, [], []);
    seq(s.Rows(), row => Machine(seq(s.Dk, d => thread), seq(s.Dk, d => 0.0)))
  }

  /** The last value a thread stored to its cell. */
  ghost function Last(writes: seq<real>): real {
    if writes == [] then 0.0 else writes[|writes| - 1]
  }

  /** The output buffers as finished threads leave them. */
  ghost function NextOf(s: Shape, ms: seq<Machine>): (r: Vec)
    requires GridSized(s, ms) && s.Dk > 0
    ensures |r| == s.Rows() * s.Dk
  {
    seq(s.Rows() * s.Dk, i requires 0 <= i < s.Rows() * s.Dk =>
      Unflatten(i, s.Rows(), s.Dk); Last(ms[i / s.Dk].threads[i % s.Dk].outWrites))
  }

  ghost function YOf(s: Shape, ms: seq<Machine>): (r: Vec)
    requires GridSized(s, ms) && s.Dk > 0
    ensures |r| == s.Rows()
  {
    seq(s.Rows(), row requires 0 <= row < s.Rows() => Last(ms[row].threads[0].yWrites))
  }

  lemma WroteAll(s: Shape, ms: seq<Machine>)
    requires GridSized(s, ms) && s.Dk > 0
    requires forall row, t | 0 <= row < s.Rows() && 0 <= t < s.Dk :: |ms[row].threads[t].outWrites| == 1
    requires forall row | 0 <= row < s.Rows() :: |ms[row].threads[0].yWrites| == 1
    ensures Wrote(s, ms, NextOf(s, ms), YOf(s, ms))
  {
    var (next, y) := (NextOf(s, ms), YOf(s, ms));
    forall row, t | 0 <= row < s.Rows() && 0 <= t < s.Dk && row * s.Dk + t < |next|
      ensures ms[row].threads[t].outWrites == [next[row * s.Dk + t]]
    {
      Flatten(row, s.Dk, t);
    }
  }

  /** Every launch leaves some output buffers. */
  lemma SomeLaunchLeaves(s: Shape, u: Buffers) returns (next: Vec, y: Vec)
    requires Launchable(s) && Allocated(s, u) && s.Dk > 0
    ensures LaunchLeaves(s, u, next, y)
  {
    hide BlockOf, MaskOf, Launchable, Allocated, GridFinishes, GridExecute, Wrote;
    var ms := Idle(s, u);
    var cs := SomeLaunchFinishes(s, u, ms);
    var end := EndOf(s, u, ms, cs);
    forall row | 0 <= row < s.Rows()
      ensures |end[row].threads[0].yWrites| == 1 && forall t | 0 <= t < s.Dk :: |end[row].threads[t].outWrites| == 1
    {
      GridStores(s, u, ms, cs, row);
    }
    WroteAll(s, end);
    next, y := NextOf(s, end), YOf(s, end);
  }

  ghost function EndOf(s: Shape, u: Buffers, ms: seq<Machine>, cs: seq<GridChoice>): (r: seq<Machine>)
    requires Launchable(s) && Allocated(s, u) && GridLaunched(s, u, ms) && GridFinishes(s, u, ms, cs)
    ensures GridSized(s, r) && r == GridExecute(s, u, ms, cs)
  {
    GridExecute(s, u, ms, cs)
  }

  // ---------------------------------------------------------------- a chain for every input

  /** Step t of a (batch, time, head, entry) tensor as a contiguous buffer. */
  ghost function Flat(x: Tensor4, t: int): (r: Vec)
    ensures |r| == x.n0 * x.n2 * x.n3
  {
    seq(x.n0 * x.n2 * x.n3, i requires 0 <= i < x.n0 * x.n2 * x.n3 =>
      if x.n2 > 0 && x.n3 > 0 then x.at(i / x.n3 / x.n2, t, (i / x.n3) % x.n2, i % x.n3) else 0.0)
  }

  /** Position of entry (b, h, d) in a buffer of `n0` by `n2` by `n3` entries, and back. */
  lemma FlatIndex(n0: nat, n2: nat, n3: nat, b: nat, h: nat, d: nat, i: nat)
    requires b < n0 && h < n2 && d < n3 && i == RowOf(n2, n3, b, h, d)
    ensures i < n0 * n2 * n3 && i / n3 / n2 == b && (i / n3) % n2 == h && i % n3 == d
  {
    GroupFits(b, n2, n0);
    GroupFits(b * n2 + h, n3, n0 * n2);
    Flatten(b, n2, h);
    Flatten(b * n2 + h, n3, d);
  }

  lemma FlatEntry(x: Tensor4, t: int, b: nat, h: nat, d: nat, i: nat)
    requires b < x.n0 && h < x.n2 && d < x.n3 && i == RowOf(x.n2, x.n3, b, h, d)
    ensures i < |Flat(x, t)| && Flat(x, t)[i] == x.at(b, t, h, d)
  {
    FlatIndex(x.n0, x.n2, x.n3, b, h, d, i);
    hide RowOf;
  }

  lemma FlatFiber(x: Tensor4, t: int, b: nat, h: nat)
    requires b < x.n0 && h < x.n2
    ensures (b * x.n2 + h) * x.n3 + x.n3 <= |Flat(x, t)|
    ensures Span(Flat(x, t), b * x.n2 + h, x.n3) == Fiber4(x, b, t, h)
  {
    hide Flat;
    GroupFits(b, x.n2, x.n0);
    GroupFits(b * x.n2 + h, x.n3, x.n0 * x.n2);
    forall d | 0 <= d < x.n3
      ensures Span(Flat(x, t), b * x.n2 + h, x.n3)[d] == Fiber4(x, b, t, h)[d]
    {
      FlatEntry(x, t, b, h, d, RowOf(x.n2, x.n3, b, h, d));
    }
  }

  /** Step t of a gate as a contiguous buffer. */
  ghost function FlatGate(x: Tensor3, t: int): (r: Vec)
    ensures |r| == x.n0 * x.n2
  {
    seq(x.n0 * x.n2, i requires 0 <= i < x.n0 * x.n2 => if x.n2 > 0 then x.at(i / x.n2, t, i % x.n2) else 0.0)
  }

  /** The initial state, row after row. */
  ghost function FlatState(x: Tensor4): (r: Vec)
    ensures |r| == x.n0 * x.n1 * x.n2 * x.n3
  {
    seq(x.n0 * x.n1 * x.n2 * x.n3, i requires 0 <= i < x.n0 * x.n1 * x.n2 * x.n3 =>
      if x.n1 > 0 && x.n2 > 0 && x.n3 > 0
      then x.at(i / x.n3 / x.n2 / x.n1, (i / x.n3 / x.n2) % x.n1, (i / x.n3) % x.n2, i % x.n3) else 0.0)
  }

  lemma FlatStateHolds(a: Args, s: Shape, b: nat, h: nat, d: nat)
    requires WellFormed(a) && ShapeOf(a, s) && InHeads(a, b, h, d)
    ensures var (x, row) := (FlatState(a.state), RowOf(s.Hv, s.Dv, b, h, d));
            |x| == s.Rows() * s.Dk && row * s.Dk + s.Dk <= |x| && Span(x, row, s.Dk) == Fiber4(a.state, b, h, d)
  {
    var (x, row) := (FlatState(a.state), RowOf(s.Hv, s.Dv, b, h, d));
    RowBijection(s.B, s.Hv, s.Dv, b, h, d);
    GroupFits(row, s.Dk, s.Rows());
    Flatten(b, s.Hv, h);
    Flatten(b * s.Hv + h, s.Dv, d);
    forall i | 0 <= i < s.Dk
      ensures Span(x, row, s.Dk)[i] == Fiber4(a.state, b, h, d)[i]
    {
      Flatten(row, s.Dk, i);
    }
  }

  /** The buffers of one launch. */
  ghost function BuffersAt(a: Args, t: int, state: Vec): Buffers {
    Buffers(Flat(a.q, t), Flat(a.k, t), Flat(a.v, t), FlatGate(a.g, t), FlatGate(a.beta, t), state,
            Some(seq(a.mask.n0, b => a.mask.at(b, t))))
  }

  lemma GateEntry(x: Tensor3, t: int, b: nat, h: nat)
    requires b < x.n0 && h < x.n2
    ensures b * x.n2 + h < |FlatGate(x, t)| && FlatGate(x, t)[b * x.n2 + h] == x.at(b, t, h)
  {
    GroupFits(b, x.n2, x.n0);
    Flatten(b, x.n2, h);
  }

  lemma BuffersFit(a: Args, s: Shape, t: nat, state: Vec)
    requires WellFormed(a) && ShapeOf(a, s) && |state| == s.Rows() * s.Dk
    ensures Allocated(s, BuffersAt(a, t, state))
  {
  }

  lemma KeysFed(a: Args, s: Shape, u: Buffers, t: nat)
    requires WellFormed(a) && ShapeOf(a, s) && Allocated(s, u) && u.q == Flat(a.q, t) && u.k == Flat(a.k, t)
    ensures FeedsKeys(a, s, u, t)
  {
    hide Flat, Allocated, Span;
    forall b, hk | 0 <= b < s.B && 0 <= hk < s.Hk && (b * s.Hk + hk) * s.Dk + s.Dk <= |u.q|
      ensures Span(u.q, b * s.Hk + hk, s.Dk) == Fiber4(a.q, b, t, hk)
      ensures Span(u.k, b * s.Hk + hk, s.Dk) == Fiber4(a.k, b, t, hk)
    {
      FlatFiber(a.q, t, b, hk);
      FlatFiber(a.k, t, b, hk);
    }
  }

  lemma ValuesFed(a: Args, s: Shape, u: Buffers, t: nat)
    requires WellFormed(a) && ShapeOf(a, s) && Allocated(s, u) && u.v == Flat(a.v, t)
    ensures FeedsValues(a, s, u, t)
  {
    hide Flat, Allocated;
    forall b, h, d | 0 <= b < s.B && 0 <= h < s.Hv && 0 <= d < s.Dv && RowOf(s.Hv, s.Dv, b, h, d) < |u.v|
      ensures u.v[RowOf(s.Hv, s.Dv, b, h, d)] == a.v.at(b, t, h, d)
    {
      FlatEntry(a.v, t, b, h, d, RowOf(s.Hv, s.Dv, b, h, d));
    }
  }

  lemma GatesFed(a: Args, s: Shape, u: Buffers, t: nat)
    requires WellFormed(a) && ShapeOf(a, s) && Allocated(s, u) && u.g == FlatGate(a.g, t) && u.beta == FlatGate(a.beta, t)
    ensures FeedsGates(a, s, u, t)
  {
    hide FlatGate, Allocated;
    assert |u.beta| == |u.g|;
    forall b, h | 0 <= b < s.B && 0 <= h < s.Hv && b * s.Hv + h < |u.g|
      ensures u.g[b * s.Hv + h] == a.g.at(b, t, h) && u.beta[b * s.Hv + h] == a.beta.at(b, t, h)
    {
      GateEntry(a.g, t, b, h);
      GateEntry(a.beta, t, b, h);
    }
  }

  lemma BuffersFeed(a: Args, s: Shape, t: nat, state: Vec)
    requires WellFormed(a) && ShapeOf(a, s) && |state| == s.Rows() * s.Dk
    ensures Feeds(a, s, BuffersAt(a, t, state), t)
  {
    hide Flat, FlatGate, Allocated, FeedsKeys, FeedsValues, FeedsGates;
    var u := BuffersAt(a, t, state);
    BuffersFit(a, s, t, state);
    KeysFed(a, s, u, t);
    ValuesFed(a, s, u, t);
    GatesFed(a, s, u, t);
  }

  /** The first `n` launches of a chain. */
  ghost predicate ChainUpTo(a: Args, s: Shape, us: seq<Buffers>, nexts: seq<Vec>, ys: seq<Vec>, n: nat)
    requires WellFormed(a) && Launchable(s) && s.Dk > 0
  {
    && |us| == |nexts| == |ys| == n
    && (forall t | 0 <= t < n :: Feeds(a, s, us[t], t) && LaunchLeaves(s, us[t], nexts[t], ys[t]))
    && (n > 0 ==> us[0].state == FlatState(a.state))
    && (forall t | 0 < t < n :: us[t].state == nexts[t - 1])
    && (forall t | 0 <= t < n :: |nexts[t]| == s.Rows() * s.Dk)
  }

  lemma {:induction false} SomeChainUpTo(a: Args, s: Shape, n: nat) returns (us: seq<Buffers>, nexts: seq<Vec>, ys: seq<Vec>)
    requires WellFormed(a) && Launchable(s) && s.Dk > 0 && ShapeOf(a, s)
    ensures ChainUpTo(a, s, us, nexts, ys, n)
  {
    hide Feeds, LaunchLeaves, Launchable, FlatState, Flat, FlatGate, Allocated;
    if n == 0 {
      us, nexts, ys := [], [], [];
    } else {
      us, nexts, ys := SomeChainUpTo(a, s, n - 1);
      var state := if n == 1 then FlatState(a.state) else nexts[n - 2];
      var u := BuffersAt(a, n - 1, state);
      StateSize(a, s);
      BuffersFeed(a, s, n - 1, state);
      FeedsShape(a, s, u, n - 1);
      assert u.state == state;
      hide BuffersAt;
      var next, y := SomeLaunchLeaves(s, u);
      LeavesSize(s, u, next, y);
      us, nexts, ys := us + [u], nexts + [next], ys + [y];
    }
  }

  lemma StateSize(a: Args, s: Shape)
    requires WellFormed(a) && ShapeOf(a, s)
    ensures |FlatState(a.state)| == s.Rows() * s.Dk
  {
  }

  lemma LeavesSize(s: Shape, u: Buffers, next: Vec, y: Vec)
    requires Launchable(s) && Allocated(s, u) && s.Dk > 0 && LaunchLeaves(s, u, next, y)
    ensures |next| == s.Rows() * s.Dk
  {
  }

  /** For every sequence of admitted dimensions a chain of launches exists. */
  lemma SomeDecodeChain(a: Args, s: Shape) returns (us: seq<Buffers>, nexts: seq<Vec>, ys: seq<Vec>)
    requires WellFormed(a) && Launchable(s) && s.Dk > 0 && ShapeOf(a, s)
    ensures DecodeChain(a, s, us, nexts, ys)
  {
    hide Feeds, LaunchLeaves, Launchable, FlatState, StateAt;
    us, nexts, ys := SomeChainUpTo(a, s, a.T());
    if a.T() > 0 {
      StateSize(a, s);
      forall b, h, d | InHeads(a, b, h, d)
        ensures RowOf(s.Hv, s.Dv, b, h, d) * s.Dk + s.Dk <= |us[0].state|
        ensures Span(us[0].state, RowOf(s.Hv, s.Dv, b, h, d), s.Dk) == StateAt(a, b, h, d, 0)
      {
        FlatStateHolds(a, s, b, h, d);
        StartState(a, b, h, d);
      }
    }
  }

  lemma StartState(a: Args, b: nat, h: nat, d: nat)
    requires WellFormed(a) && InHeads(a, b, h, d)
    ensures StateAt(a, b, h, d, 0) == Fiber4(a.state, b, h, d)
  {
  }
}
