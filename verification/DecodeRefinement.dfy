/** A launch over all rows, under any interleaving of all threads of all blocks, is one step of the
    oracle; a sequence of launches is the whole oracle. */
module DecodeRefinement {
  import opened IntDiv
  import opened Vectors
  import opened Tensors
  import opened GdnRow
  import opened Gdn
  import opened BlockMachine
  import opened DecodeKernel
  import opened DecodeLaunch

  /** Sizes of one launch. */
  datatype Shape = Shape(B: nat, Hk: nat, Hv: nat, Dk: nat, Dv: nat) {
    function Rows(): nat { B * Hv * Dv }
  }

  ghost predicate Launchable(s: Shape) {
    Admitted(s.B, s.Hk, s.Hv, s.Dk, s.Dv)
  }

  /** Contiguous device buffers of one launch; an absent mask is a null address. */
  datatype Buffers = Buffers(q: Vec, k: Vec, v: Vec, g: Vec, beta: Vec, state: Vec, mask: Option<seq<bool>>)

  /** The caller's side of the contract: every buffer has the size its shape implies. */
  ghost predicate Allocated(s: Shape, u: Buffers) {
    && |u.q| == s.B * s.Hk * s.Dk && |u.k| == s.B * s.Hk * s.Dk
    && |u.v| == s.Rows() && |u.g| == s.B * s.Hv && |u.beta| == s.B * s.Hv
    && |u.state| == s.Rows() * s.Dk
    && (u.mask.Some? ==> |u.mask.value| == s.B)
  }

  // ---------------------------------------------------------------- what block `row` reads

  datatype Place = Place(b: nat, hv: nat, dv: nat, hk: nat)

  /** The coordinates `Decode` computes for a row. */
  ghost function PlaceOf(s: Shape, row: nat): (r: Place)
    requires Launchable(s) && row < s.Rows()
    ensures r.b < s.B && r.hv < s.Hv && r.dv < s.Dv && r.hk < s.Hk
    ensures r.hk == r.hv / (s.Hv / s.Hk) && RowOf(s.Hv, s.Dv, r.b, r.hv, r.dv) == row
  {
    AdmittedPositive(s);
    DecodeRanges(s.B, s.Hk, s.Hv, s.Dk, s.Dv, row);
    Place(row / (s.Hv * s.Dv), (row / s.Dv) % s.Hv, row % s.Dv, ((row / s.Dv) % s.Hv) / (s.Hv / s.Hk))
  }

  lemma AdmittedPositive(s: Shape)
    requires Launchable(s)
    ensures s.B > 0 && s.Hk > 0 && s.Hv > 0 && s.Dk > 0 && s.Dv > 0 && s.Hv % s.Hk == 0 && s.Hv / s.Hk > 0
    ensures PowerOfTwo(s.Dk)
  {
    GroupsFit(s.Hv, s.Hk);
    AdmittedPower(s.Dk);
  }

  /** `n` consecutive entries of a buffer. */
  ghost function Span(x: Vec, index: nat, n: nat): (r: Vec)
    requires index * n + n <= |x|
    ensures |r| == n
  {
    x[index * n..index * n + n]
  }

  /** Buffer accesses of a block are in bounds. */
  lemma InBounds(s: Shape, u: Buffers, row: nat)
    requires Launchable(s) && Allocated(s, u) && row < s.Rows()
    ensures var p := PlaceOf(s, row);
            && (p.b * s.Hk + p.hk) * s.Dk + s.Dk <= |u.q| == |u.k|
            && row * s.Dk + s.Dk <= |u.state|
            && p.b * s.Hv + p.hv < |u.g| == |u.beta|
  {
    var p := PlaceOf(s, row);
    GroupFits(p.b, s.Hk, s.B);
    GroupFits(p.b * s.Hk + p.hk, s.Dk, s.B * s.Hk);
    GroupFits(row, s.Dk, s.Rows());
    GroupFits(p.b, s.Hv, s.B);
  }

  ghost function BlockOf(s: Shape, u: Buffers, row: nat): (r: Block)
    requires Launchable(s) && Allocated(s, u) && row < s.Rows()
    ensures Valid(r) && r.n == s.Dk
  {
    AdmittedPositive(s);
    InBounds(s, u, row);
    var p := PlaceOf(s, row);
    Block(s.Dk, Span(u.q, p.b * s.Hk + p.hk, s.Dk), Span(u.k, p.b * s.Hk + p.hk, s.Dk), Span(u.state, row, s.Dk),
          u.v[row], u.g[p.b * s.Hv + p.hv], u.beta[p.b * s.Hv + p.hv])
  }

  ghost function MaskOf(s: Shape, u: Buffers, row: nat): bool
    requires Launchable(s) && Allocated(s, u) && row < s.Rows()
  {
    u.mask.Some? ==> u.mask.value[PlaceOf(s, row).b]
  }

  ghost function ProgramOf(s: Shape, u: Buffers, row: nat): (p: seq<Instr>)
    requires Launchable(s) && Allocated(s, u) && row < s.Rows()
    ensures InRange(p, s.Dk)
  {
    ProgramSafe(s.Dk, MaskOf(s, u, row));
    Program(s.Dk, MaskOf(s, u, row))
  }

  // ---------------------------------------------------------------- all blocks at once

  /** One step of the grid: some block takes one step. */
  datatype GridChoice = GridChoice(row: nat, choice: Choice)

  ghost predicate GridSized(s: Shape, ms: seq<Machine>) {
    |ms| == s.Rows() && forall r | 0 <= r < |ms| :: |ms[r].threads| == |ms[r].tmp| == s.Dk
  }

  ghost predicate GridEnabled(s: Shape, u: Buffers, ms: seq<Machine>, c: GridChoice)
    requires Launchable(s) && Allocated(s, u) && GridSized(s, ms)
  {
    c.row < s.Rows() && Enabled(BlockOf(s, u, c.row), ProgramOf(s, u, c.row), ms[c.row], c.choice)
  }

  ghost function GridApply(s: Shape, u: Buffers, ms: seq<Machine>, c: GridChoice): (r: seq<Machine>)
    requires Launchable(s) && Allocated(s, u) && GridSized(s, ms) && GridEnabled(s, u, ms, c)
    ensures GridSized(s, r)
  {
    ms[c.row := Apply(BlockOf(s, u, c.row), ProgramOf(s, u, c.row), ms[c.row], c.choice)]
  }

  ghost predicate GridFeasible(s: Shape, u: Buffers, ms: seq<Machine>, cs: seq<GridChoice>)
    requires Launchable(s) && Allocated(s, u) && GridSized(s, ms)
    decreases |cs|
  {
    cs != [] ==> GridEnabled(s, u, ms, cs[0]) && GridFeasible(s, u, GridApply(s, u, ms, cs[0]), cs[1..])
  }

  ghost function GridExecute(s: Shape, u: Buffers, ms: seq<Machine>, cs: seq<GridChoice>): (r: seq<Machine>)
    requires Launchable(s) && Allocated(s, u) && GridSized(s, ms) && GridFeasible(s, u, ms, cs)
    ensures GridSized(s, r)
    decreases |cs|
  {
    if cs == [] then ms else GridExecute(s, u, GridApply(s, u, ms, cs[0]), cs[1..])
  }

  /** The steps of one block within a grid schedule. */
  ghost function Project(cs: seq<GridChoice>, row: nat): seq<Choice> {
    if cs == [] then []
    else (if cs[0].row == row then [cs[0].choice] else []) + Project(cs[1..], row)
  }

  /** Blocks share no memory they write: a grid run restricted to one block is a run of that block. */
  lemma {:induction false} BlockRunsAlone(s: Shape, u: Buffers, ms: seq<Machine>, cs: seq<GridChoice>, row: nat)
    requires Launchable(s) && Allocated(s, u) && GridSized(s, ms) && GridFeasible(s, u, ms, cs) && row < s.Rows()
    ensures var (b, p) := (BlockOf(s, u, row), ProgramOf(s, u, row));
            && Feasible(b, p, ms[row], Project(cs, row))
            && GridExecute(s, u, ms, cs)[row] == Execute(b, p, ms[row], Project(cs, row))
    decreases |cs|
  {
    hide BlockOf, ProgramOf, Apply, Enabled, Launchable, Allocated;
    if cs != [] {
      var ms' := GridApply(s, u, ms, cs[0]);
      BlockRunsAlone(s, u, ms', cs[1..], row);
      if cs[0].row == row {
        assert Project(cs, row) == [cs[0].choice] + Project(cs[1..], row);
        assert Project(cs, row)[1..] == Project(cs[1..], row);
      } else {
        assert Project(cs, row) == Project(cs[1..], row);
      }
    }
  }

  ghost predicate GridLaunched(s: Shape, u: Buffers, ms: seq<Machine>)
    requires Launchable(s) && Allocated(s, u)
  {
    GridSized(s, ms) && forall r | 0 <= r < s.Rows() :: Launched(BlockOf(s, u, r), ms[r])
  }

  /** A run of the whole grid that cannot continue. */
  ghost predicate GridFinishes(s: Shape, u: Buffers, ms: seq<Machine>, cs: seq<GridChoice>)
    requires Launchable(s) && Allocated(s, u) && GridLaunched(s, u, ms)
  {
    GridFeasible(s, u, ms, cs) && forall c :: !GridEnabled(s, u, GridExecute(s, u, ms, cs), c)
  }

  /** Every thread of the grid stores its own cell once, with the row-step values. */
  lemma GridStores(s: Shape, u: Buffers, ms: seq<Machine>, cs: seq<GridChoice>, row: nat)
    requires Launchable(s) && Allocated(s, u) && GridLaunched(s, u, ms) && GridFinishes(s, u, ms, cs) && row < s.Rows()
    ensures StoresRowStep(BlockOf(s, u, row), MaskOf(s, u, row), GridExecute(s, u, ms, cs)[row])
  {
    hide BlockOf, MaskOf, GridExecute, GridFeasible, Feasible, Execute, Launched, StoresRowStep, Enabled;
    var (b, p) := (BlockOf(s, u, row), ProgramOf(s, u, row));
    AdmittedPositive(s);
    BlockRunsAlone(s, u, ms, cs, row);
    var m := GridExecute(s, u, ms, cs)[row];
    forall c
      ensures !Enabled(b, p, m, c)
    {
      assert !GridEnabled(s, u, GridExecute(s, u, ms, cs), GridChoice(row, c));
    }
    BlockComputesRowStep(b, MaskOf(s, u, row), ms[row], Project(cs, row));
  }

  // ---------------------------------------------------------------- the buffers after a launch

  /** `next_state` and `y` as the finished threads left them: cell si belongs to thread si % Dk of
      block si / Dk, and y[row] to thread 0 of block row. */
  ghost predicate Wrote(s: Shape, ms: seq<Machine>, next: Vec, y: Vec)
    requires GridSized(s, ms) && s.Dk > 0
  {
    && |next| == s.Rows() * s.Dk && |y| == s.Rows()
    && (forall row, t | 0 <= row < s.Rows() && 0 <= t < s.Dk && row * s.Dk + t < |next| ::
          ms[row].threads[t].outWrites == [next[row * s.Dk + t]])
    && (forall row | 0 <= row < s.Rows() :: ms[row].threads[0].yWrites == [y[row]])
  }

  /** The result of a launch: what every finishing schedule from every launch state leaves. */
  lemma LaunchResult(s: Shape, u: Buffers, ms: seq<Machine>, cs: seq<GridChoice>, next: Vec, y: Vec, row: nat)
    requires Launchable(s) && Allocated(s, u) && GridLaunched(s, u, ms) && GridFinishes(s, u, ms, cs) && row < s.Rows()
    requires s.Dk > 0 && Wrote(s, GridExecute(s, u, ms, cs), next, y)
    ensures row * s.Dk + s.Dk <= |next|
    ensures var (b, x) := (BlockOf(s, u, row), TokenOf(BlockOf(s, u, row), MaskOf(s, u, row)));
            Span(next, row, s.Dk) == Next(b.state, x) && y[row] == Out(b.state, x)
  {
    hide BlockOf, MaskOf, GridExecute, Next, Out;
    GroupFits(row, s.Dk, s.Rows());
    GridStores(s, u, ms, cs, row);
    var m := GridExecute(s, u, ms, cs)[row];
    var r := Next(BlockOf(s, u, row).state, TokenOf(BlockOf(s, u, row), MaskOf(s, u, row)));
    forall t | 0 <= t < s.Dk
      ensures Span(next, row, s.Dk)[t] == r[t]
    {
      assert m.threads[t].outWrites == [next[row * s.Dk + t]];
      assert [r[t]][0] == [next[row * s.Dk + t]][0];
    }
    assert Span(next, row, s.Dk) == r;
    assert [Out(BlockOf(s, u, row).state, TokenOf(BlockOf(s, u, row), MaskOf(s, u, row)))][0] == [y[row]][0];
  }

  // ---------------------------------------------------------------- refinement of the oracle

  ghost predicate ShapeOf(a: Args, s: Shape)
    requires WellFormed(a)
  {
    s.B == a.B() && s.Hk == a.Hk() && s.Hv == a.Hv() && s.Dk == a.Dk() && s.Dv == a.Dv()
  }

  ghost predicate FeedsKeys(a: Args, s: Shape, u: Buffers, t: nat)
    requires WellFormed(a) && ShapeOf(a, s) && Allocated(s, u)
  {
    forall b, hk | 0 <= b < s.B && 0 <= hk < s.Hk && (b * s.Hk + hk) * s.Dk + s.Dk <= |u.q| ::
      && Span(u.q, b * s.Hk + hk, s.Dk) == Fiber4(a.q, b, t, hk)
      && Span(u.k, b * s.Hk + hk, s.Dk) == Fiber4(a.k, b, t, hk)
  }

  ghost predicate FeedsValues(a: Args, s: Shape, u: Buffers, t: nat)
    requires WellFormed(a) && ShapeOf(a, s) && Allocated(s, u)
  {
    forall b, h, d | 0 <= b < s.B && 0 <= h < s.Hv && 0 <= d < s.Dv && RowOf(s.Hv, s.Dv, b, h, d) < |u.v| ::
      u.v[RowOf(s.Hv, s.Dv, b, h, d)] == a.v.at(b, t, h, d)
  }

  ghost predicate FeedsGates(a: Args, s: Shape, u: Buffers, t: nat)
    requires WellFormed(a) && ShapeOf(a, s) && Allocated(s, u)
  {
    forall b, h | 0 <= b < s.B && 0 <= h < s.Hv && b * s.Hv + h < |u.g| ::
      u.g[b * s.Hv + h] == a.g.at(b, t, h) && u.beta[b * s.Hv + h] == a.beta.at(b, t, h)
  }

  /** The buffers hold step t of the oracle's inputs, row-major; a null mask stands for all true. */
  ghost predicate Feeds(a: Args, s: Shape, u: Buffers, t: nat)
    requires WellFormed(a)
  {
    && ShapeOf(a, s) && Allocated(s, u)
    && FeedsKeys(a, s, u, t) && FeedsValues(a, s, u, t) && FeedsGates(a, s, u, t)
    && (forall b | 0 <= b < s.B :: a.mask.at(b, t) == (u.mask.Some? ==> u.mask.value[b]))
  }

  /** The state buffer holds the oracle's state before step t. */
  ghost predicate HoldsState(a: Args, s: Shape, state: Vec, t: nat)
    requires WellFormed(a) && t <= a.T()
  {
    && |state| == s.Rows() * s.Dk
    && (forall b, h, d | InHeads(a, b, h, d) && RowOf(s.Hv, s.Dv, b, h, d) * s.Dk + s.Dk <= |state| ::
          Span(state, RowOf(s.Hv, s.Dv, b, h, d), s.Dk) == StateAt(a, b, h, d, t))
  }

  ghost predicate HoldsOutput(a: Args, s: Shape, y: Vec, t: nat)
    requires WellFormed(a) && t < a.T()
  {
    && |y| == s.Rows()
    && (forall b, h, d | InHeads(a, b, h, d) && RowOf(s.Hv, s.Dv, b, h, d) < |y| ::
          y[RowOf(s.Hv, s.Dv, b, h, d)] == OutAt(a, b, h, d, t))
  }

  /** Some interleaving of some launch on `u` finishes and leaves `next` and `y`. */
  ghost predicate LaunchLeaves(s: Shape, u: Buffers, next: Vec, y: Vec)
    requires Launchable(s) && Allocated(s, u) && s.Dk > 0
  {
    exists ms, cs :: GridLaunched(s, u, ms) && GridFinishes(s, u, ms, cs) && Wrote(s, GridExecute(s, u, ms, cs), next, y)
  }

  /** Block (b, h, d) reads what row (b, h, d) of the oracle reads. */
  lemma BlockIsRow(a: Args, s: Shape, u: Buffers, t: nat, b: nat, h: nat, d: nat)
    requires WellFormed(a) && t < a.T() && Launchable(s) && Feeds(a, s, u, t) && HoldsState(a, s, u.state, t)
    requires InHeads(a, b, h, d)
    ensures var row := RowOf(s.Hv, s.Dv, b, h, d);
            && row < s.Rows()
            && TokenOf(BlockOf(s, u, row), MaskOf(s, u, row)) == RowToken(a, b, h, d, t)
            && BlockOf(s, u, row).state == StateAt(a, b, h, d, t)
  {
    hide StateAt;
    var row := RowOf(s.Hv, s.Dv, b, h, d);
    RowBijection(s.B, s.Hv, s.Dv, b, h, d);
    InBounds(s, u, row);
    assert PlaceOf(s, row) == Place(b, h, d, h / a.R());
    var blk := BlockOf(s, u, row);
    assert blk.q == Fiber4(a.q, b, t, h / a.R()) && blk.k == Fiber4(a.k, b, t, h / a.R());
  }

  /** One launch is one step of the oracle, on masked and unmasked entries, for every interleaving. */
  lemma LaunchIsStep(a: Args, s: Shape, u: Buffers, t: nat, next: Vec, y: Vec)
    requires WellFormed(a) && t < a.T() && Launchable(s) && s.Dk > 0
    requires Feeds(a, s, u, t) && HoldsState(a, s, u.state, t) && LaunchLeaves(s, u, next, y)
    ensures HoldsState(a, s, next, t + 1) && HoldsOutput(a, s, y, t)
  {
    hide StateAt, OutAt, Feeds, GridExecute, Next, Out, BlockOf, MaskOf, Launchable;
    assert ShapeOf(a, s) && Allocated(s, u) by {
      FeedsShape(a, s, u, t);
    }
    var ms, cs :| GridLaunched(s, u, ms) && GridFinishes(s, u, ms, cs) && Wrote(s, GridExecute(s, u, ms, cs), next, y);
    forall b, h, d | InHeads(a, b, h, d)
      ensures RowOf(s.Hv, s.Dv, b, h, d) < s.Rows() && RowOf(s.Hv, s.Dv, b, h, d) * s.Dk + s.Dk <= |next|
      ensures Span(next, RowOf(s.Hv, s.Dv, b, h, d), s.Dk) == StateAt(a, b, h, d, t + 1)
      ensures y[RowOf(s.Hv, s.Dv, b, h, d)] == OutAt(a, b, h, d, t)
    {
      BlockIsRow(a, s, u, t, b, h, d);
      LaunchResult(s, u, ms, cs, next, y, RowOf(s.Hv, s.Dv, b, h, d));
      StateAtNext(a, b, h, d, t);
    }
  }

  lemma FeedsShape(a: Args, s: Shape, u: Buffers, t: nat)
    requires WellFormed(a) && Feeds(a, s, u, t)
    ensures ShapeOf(a, s) && Allocated(s, u)
  {
  }

  /** A chain of launches: each reads step t of the inputs and the state the previous one wrote. */
  ghost predicate DecodeChain(a: Args, s: Shape, us: seq<Buffers>, nexts: seq<Vec>, ys: seq<Vec>)
    requires WellFormed(a) && Launchable(s) && s.Dk > 0
  {
    && |us| == |nexts| == |ys| == a.T()
    && (forall t | 0 <= t < a.T() :: Feeds(a, s, us[t], t) && LaunchLeaves(s, us[t], nexts[t], ys[t]))
    && (a.T() > 0 ==> HoldsState(a, s, us[0].state, 0))
    && (forall t | 0 < t < a.T() :: us[t].state == nexts[t - 1])
  }

  /** Decoding token by token on the device computes `gdn_forward` on the whole sequence. */
  lemma {:induction false} DecodeSequence(a: Args, s: Shape, us: seq<Buffers>, nexts: seq<Vec>, ys: seq<Vec>, t: nat)
    requires WellFormed(a) && Launchable(s) && s.Dk > 0 && DecodeChain(a, s, us, nexts, ys) && t < a.T()
    ensures HoldsState(a, s, nexts[t], t + 1) && HoldsOutput(a, s, ys[t], t)
  {
    hide Feeds, LaunchLeaves, HoldsState, HoldsOutput, Launchable;
    if t > 0 {
      DecodeSequence(a, s, us, nexts, ys, t - 1);
    }
    LaunchIsStep(a, s, us[t], t, nexts[t], ys[t]);
  }
}
