/** Launches whose output buffers start where an input buffer starts. Threads then read memory that other
    threads of the launch have already changed; the overlaps that make no difference are proved so. */
module DecodeOverlap {
  import opened IntDiv
  import opened Vectors
  import opened Tensors
  import opened GdnRow
  import opened BlockMachine
  import opened DecodeKernel
  import opened DecodeLaunch
  import opened DecodeRefinement
  import opened DecodeAddresses

  datatype Input = InQuery | InKey | InValue | InGate | InBeta | InState

  /** The input, if any, that each output shares its address with. */
  datatype Overlap = Overlap(next: Option<Input>, y: Option<Input>)

  function Put(x: Vec, i: int, r: real): (x': Vec)
    ensures |x'| == |x| && forall j | 0 <= j < |x| :: x'[j] == if j == i then r else x[j]
  {
    if 0 <= i < |x| then x[i := r] else x
  }

  /** A store through an output is a store to the input at the same address. */
  function Store(u: Buffers, o: Option<Input>, i: int, r: real): Buffers {
    match o
    case None => u
    case Some(InQuery) => u.(q := Put(u.q, i, r))
    case Some(InKey) => u.(k := Put(u.k, i, r))
    case Some(InValue) => u.(v := Put(u.v, i, r))
    case Some(InGate) => u.(g := Put(u.g, i, r))
    case Some(InBeta) => u.(beta := Put(u.beta, i, r))
    case Some(InState) => u.(state := Put(u.state, i, r))
  }

  /** Input buffers after thread `d` of block `row` went from `th` to `th'`. */
  function StoreBoth(s: Shape, o: Overlap, u: Buffers, row: nat, d: nat, th: Thread, th': Thread): Buffers {
    var u1 := if |th'.outWrites| > |th.outWrites|
              then Store(u, o.next, row * s.Dk + d, th'.outWrites[|th'.outWrites| - 1]) else u;
    if |th'.yWrites| > |th.yWrites| then Store(u1, o.y, row, th'.yWrites[|th'.yWrites| - 1]) else u1
  }

  /** Input buffers as they are now, and all blocks. */
  datatype Device = Device(u: Buffers, ms: seq<Machine>)

  ghost predicate DeviceSized(s: Shape, v: Device) {
    Launchable(s) && Allocated(s, v.u) && GridSized(s, v.ms)
  }

  lemma ChoiceInRange(s: Shape, u: Buffers, ms: seq<Machine>, c: GridChoice)
    requires Launchable(s) && Allocated(s, u) && GridSized(s, ms) && GridEnabled(s, u, ms, c)
    ensures c.row < s.Rows() == |ms| && (c.choice.Go? ==> c.choice.thread < s.Dk == |ms[c.row].threads|)
  {
    hide Launchable, Allocated, Enabled;
    assert Enabled(BlockOf(s, u, c.row), ProgramOf(s, u, c.row), ms[c.row], c.choice);
    EnabledInRange(BlockOf(s, u, c.row), ProgramOf(s, u, c.row), ms[c.row], c.choice);
  }

  lemma EnabledInRange(b: Block, p: seq<Instr>, m: Machine, c: Choice)
    requires Sized(b, m) && Enabled(b, p, m, c)
    ensures c.Go? ==> c.thread < b.n
  {
  }

  /** Stores leave every buffer as long as it was. */
  lemma StoresFit(s: Shape, o: Overlap, u: Buffers, row: nat, d: nat, th: Thread, th': Thread)
    requires Allocated(s, u)
    ensures Allocated(s, StoreBoth(s, o, u, row, d, th, th'))
  {
    hide Allocated;
    var u' := StoreBoth(s, o, u, row, d, th, th');
    SameSizesFit(s, u, u');
  }

  lemma SameSizesFit(s: Shape, u: Buffers, u': Buffers)
    requires Allocated(s, u) && u'.mask == u.mask && |u'.q| == |u.q| && |u'.k| == |u.k| && |u'.v| == |u.v|
    requires |u'.g| == |u.g| && |u'.beta| == |u.beta| && |u'.state| == |u.state|
    ensures Allocated(s, u')
  {
  }

  /** One step of the grid, reading the buffers as they are. */
  ghost function Advance(s: Shape, o: Overlap, v: Device, c: GridChoice): (r: Device)
    requires DeviceSized(s, v) && GridEnabled(s, v.u, v.ms, c)
    ensures DeviceSized(s, r)
  {
    ChoiceInRange(s, v.u, v.ms, c);
    var ms := GridApply(s, v.u, v.ms, c);
    if c.choice.Go? then
      var (d, before) := (c.choice.thread, v.ms[c.row].threads);
      StoresFit(s, o, v.u, c.row, d, before[d], ms[c.row].threads[d]);
      Device(StoreBoth(s, o, v.u, c.row, d, before[d], ms[c.row].threads[d]), ms)
    else Device(v.u, ms)
  }

  ghost predicate CanRun(s: Shape, o: Overlap, v: Device, cs: seq<GridChoice>)
    requires DeviceSized(s, v)
    decreases |cs|
  {
    cs != [] ==> GridEnabled(s, v.u, v.ms, cs[0]) && CanRun(s, o, Advance(s, o, v, cs[0]), cs[1..])
  }

  ghost function RunDevice(s: Shape, o: Overlap, v: Device, cs: seq<GridChoice>): (r: Device)
    requires DeviceSized(s, v) && CanRun(s, o, v, cs)
    ensures DeviceSized(s, r)
    decreases |cs|
  {
    if cs == [] then v else RunDevice(s, o, Advance(s, o, v, cs[0]), cs[1..])
  }

  /** The new state written over the old one, the output written over the values, or neither. */
  predicate Harmless(o: Overlap) {
    (o.next == None || o.next == Some(InState)) && (o.y == None || o.y == Some(InValue))
  }

  // ---------------------------------------------------------------- when a thread can still read a cell

  lemma {:induction false} TreeOnly(o: nat)
    ensures forall i | 0 <= i < |Tree(o)| :: Tree(o)[i].GetPartner? || Tree(o)[i].AddPartner? || Tree(o)[i].Barrier?
    decreases o
  {
    if o > 0 {
      TreeOnly(o / 2);
    }
  }

  /** The state is read by the first instruction, the value before a barrier, and `y` is stored last. */
  ghost predicate Ordered(p: seq<Instr>) {
    && (forall i | 0 <= i < |p| && (p[i].LoadState? || p[i].CopyOut?) :: i == 0)
    && (forall i | 0 <= i < |p| && p[i].GetDelta? :: i + 1 < |p| && p[i + 1].Barrier?)
    && (forall i | 0 <= i < |p| && (p[i].PutY? || p[i].ZeroY?) :: i == |p| - 1)
  }

  lemma ProgramOrdered(n: nat, mask: bool)
    ensures Ordered(Program(n, mask))
  {
    TreeOnly(n / 2);
  }

  lemma {:induction false} StoredLast(b: Block, p: seq<Instr>, m0: Machine, i: nat)
    requires Valid(b) && InRange(p, b.n) && Sized(b, m0) && Ordered(p) && i < |p|
    ensures LockAt(b, p, m0, i).threads[0].yWrites == m0.threads[0].yWrites
  {
    hide Lockstep;
    if i == 0 {
      NothingYet(b, p, m0);
    } else {
      StoredLast(b, p, m0, i - 1);
      LockAtNext(b, p, m0, i - 1);
    }
  }

  lemma NothingYet(b: Block, p: seq<Instr>, m0: Machine)
    requires Valid(b) && InRange(p, b.n) && Sized(b, m0)
    ensures LockAt(b, p, m0, 0) == m0
  {
    assert p[..0] == [];
  }

  /** What thread `d` is about to read has not been stored to by its own block. */
  lemma StillThere(b: Block, p: seq<Instr>, m0: Machine, m: Machine, d: nat)
    requires Valid(b) && InRange(p, b.n) && Launched(b, m0) && Ordered(p) && Agrees(b, p, m0, m)
    requires d < b.n && m.threads[d].pc < |p|
    ensures var i := p[m.threads[d].pc];
            && (i.LoadState? || i.CopyOut? ==> m.threads[d].outWrites == [])
            && (i.GetDelta? ==> m.threads[0].yWrites == [])
  {
    hide LockAt, Lockstep;
    var pc := m.threads[d].pc;
    NothingYet(b, p, m0);
    if p[pc].GetDelta? {
      if m.threads[0].pc == |p| {
        PhaseMonotone(p, pc, pc + 1);
        PhaseMonotone(p, pc + 1, |p|);
        assert false;
      }
      StoredLast(b, p, m0, m.threads[0].pc);
    }
  }

  /** Blocks that hold the same at what an instruction reads execute it alike. */
  lemma SameEffect(b: Block, b': Block, i: Instr, d: nat, th: Thread, tmp: Vec)
    requires Valid(b) && Valid(b') && b'.n == b.n && b'.q == b.q && b'.k == b.k && b'.g == b.g && b'.beta == b.beta
    requires InRange([i], b.n) && d < b.n && |tmp| == b.n
    requires i.LoadState? || i.CopyOut? ==> b'.state[d] == b.state[d]
    requires i.GetDelta? ==> b'.v == b.v
    ensures ExecThread(b', i, d, th, tmp) == ExecThread(b, i, d, th, tmp)
    ensures ExecCell(b', i, d, th, tmp[d]) == ExecCell(b, i, d, th, tmp[d])
  {
  }

  // ---------------------------------------------------------------- harmless overlaps

  /** The buffers differ from the original ones only in cells whose own thread has stored to them. */
  ghost predicate OnlyOwn(s: Shape, u0: Buffers, v: Device)
    requires DeviceSized(s, v) && Allocated(s, u0)
  {
    && v.u.q == u0.q && v.u.k == u0.k && v.u.g == u0.g && v.u.beta == u0.beta && v.u.mask == u0.mask
    && (forall row, t | 0 <= row < s.Rows() && 0 <= t < s.Dk && v.ms[row].threads[t].outWrites == [] ::
          StateCell(s, v.u, row, t) == StateCell(s, u0, row, t))
    && (forall row | 0 <= row < s.Rows() && 0 < s.Dk && v.ms[row].threads[0].yWrites == [] :: v.u.v[row] == u0.v[row])
  }

  function StateCell(s: Shape, u: Buffers, row: int, t: int): real {
    if 0 <= row * s.Dk + t < |u.state| then u.state[row * s.Dk + t] else 0.0
  }

  /** Every block is where some run on the original buffers could have brought it. */
  ghost predicate Follows(s: Shape, u0: Buffers, ms0: seq<Machine>, ms: seq<Machine>)
    requires Launchable(s) && Allocated(s, u0) && GridLaunched(s, u0, ms0)
  {
    GridSized(s, ms) && forall row | 0 <= row < s.Rows() :: Agrees(BlockOf(s, u0, row), ProgramOf(s, u0, row), ms0[row], ms[row])
  }

  /** Block `row` on the original and on the changed buffers. */
  lemma SameBlock(s: Shape, u0: Buffers, v: Device, row: nat)
    requires DeviceSized(s, v) && Allocated(s, u0) && OnlyOwn(s, u0, v) && row < s.Rows()
    ensures var (b, b') := (BlockOf(s, u0, row), BlockOf(s, v.u, row));
            && b'.n == b.n == s.Dk && b'.q == b.q && b'.k == b.k && b'.g == b.g && b'.beta == b.beta
            && (v.ms[row].threads[0].yWrites == [] ==> b'.v == b.v)
            && (forall t | 0 <= t < s.Dk && v.ms[row].threads[t].outWrites == [] :: b'.state[t] == b.state[t])
    ensures s.Dk > 0 && ProgramOf(s, v.u, row) == ProgramOf(s, u0, row)
  {
    AdmittedPositive(s);
    hide Launchable, PlaceOf, Span;
    InBounds(s, u0, row);
    InBounds(s, v.u, row);
    forall t | 0 <= t < s.Dk && v.ms[row].threads[t].outWrites == []
      ensures BlockOf(s, v.u, row).state[t] == BlockOf(s, u0, row).state[t]
    {
      assert StateCell(s, v.u, row, t) == StateCell(s, u0, row, t);
      SpanEntry(u0.state, row, s.Dk, t);
      SpanEntry(v.u.state, row, s.Dk, t);
    }
  }

  /** A step on the changed buffers is the same step on the original ones. */
  lemma SameStep(s: Shape, u0: Buffers, ms0: seq<Machine>, v: Device, c: GridChoice)
    requires DeviceSized(s, v) && Allocated(s, u0) && GridLaunched(s, u0, ms0) && OnlyOwn(s, u0, v) && Follows(s, u0, ms0, v.ms)
    ensures GridEnabled(s, v.u, v.ms, c) <==> GridEnabled(s, u0, v.ms, c)
    ensures GridEnabled(s, u0, v.ms, c) ==> GridApply(s, v.u, v.ms, c) == GridApply(s, u0, v.ms, c)
  {
    hide BlockOf, ProgramOf, Launchable, Allocated, OnlyOwn, Agrees, ExecThread, ExecCell;
    if c.row < s.Rows() {
      SameBlock(s, u0, v, c.row);
      var (b, p, m) := (BlockOf(s, u0, c.row), ProgramOf(s, u0, c.row), v.ms[c.row]);
      if Enabled(b, p, m, c.choice) && c.choice.Go? {
        var d := c.choice.thread;
        RowOrdered(s, u0, c.row);
        StillThere(b, p, ms0[c.row], m, d);
        InRangeAt(p, b.n, m.threads[d].pc);
        SameEffect(b, BlockOf(s, v.u, c.row), p[m.threads[d].pc], d, m.threads[d], m.tmp);
      }
    }
  }

  lemma RowOrdered(s: Shape, u: Buffers, row: nat)
    requires Launchable(s) && Allocated(s, u) && row < s.Rows()
    ensures Ordered(ProgramOf(s, u, row)) && RaceFree(ProgramOf(s, u, row), s.Dk)
  {
    ProgramOrdered(s.Dk, MaskOf(s, u, row));
    ProgramSafe(s.Dk, MaskOf(s, u, row));
  }

  lemma StepFollows(s: Shape, u0: Buffers, ms0: seq<Machine>, ms: seq<Machine>, c: GridChoice)
    requires Launchable(s) && Allocated(s, u0) && GridLaunched(s, u0, ms0) && Follows(s, u0, ms0, ms)
    requires GridEnabled(s, u0, ms, c)
    ensures Follows(s, u0, ms0, GridApply(s, u0, ms, c))
  {
    hide BlockOf, ProgramOf, Launchable, Allocated, Agrees, Enabled, Apply, RaceFree, Ordered;
    var (b, p) := (BlockOf(s, u0, c.row), ProgramOf(s, u0, c.row));
    RowOrdered(s, u0, c.row);
    match c.choice
    case Go(d) => GoAgrees(b, p, ms0[c.row], ms[c.row], d);
    case Open => OpenAgrees(b, p, ms0[c.row], ms[c.row]);
  }

  /** Cells of different threads are different cells. */
  lemma CellsDiffer(s: Shape, row: nat, t: nat, row': nat, t': nat)
    requires t < s.Dk && t' < s.Dk && row * s.Dk + t == row' * s.Dk + t'
    ensures row == row' && t == t'
  {
    Flatten(row, s.Dk, t);
    Flatten(row', s.Dk, t');
  }

  /** A thread stores at most once per step, to its own cell and, if it is thread 0, to its `y`. */
  lemma StepStores(s: Shape, u: Buffers, ms: seq<Machine>, c: GridChoice, row: nat, t: nat)
    requires Launchable(s) && Allocated(s, u) && GridSized(s, ms) && GridEnabled(s, u, ms, c) && row < s.Rows() && t < s.Dk
    ensures var (th, th') := (ms[row].threads[t], GridApply(s, u, ms, c)[row].threads[t]);
            && |th.outWrites| <= |th'.outWrites| && |th.yWrites| <= |th'.yWrites|
            && (c.row != row || c.choice != Go(t) ==> th'.outWrites == th.outWrites && th'.yWrites == th.yWrites)
            && (t > 0 ==> th'.yWrites == th.yWrites)
  {
    hide BlockOf, ProgramOf, Launchable, Allocated;
  }

  /** A harmless overlap touches one state cell and one value, and those only for a thread that stored. */
  lemma Touched(s: Shape, o: Overlap, v: Device, c: GridChoice)
    requires DeviceSized(s, v) && GridEnabled(s, v.u, v.ms, c) && Harmless(o)
    ensures var r := Advance(s, o, v, c);
            && r.u.q == v.u.q && r.u.k == v.u.k && r.u.g == v.u.g && r.u.beta == v.u.beta && r.u.mask == v.u.mask
            && |r.u.state| == |v.u.state| && |r.u.v| == |v.u.v|
            && (r.u != v.u ==> c.choice.Go?)
            && (forall i | 0 <= i < |v.u.state| && r.u.state[i] != v.u.state[i] ::
                  c.choice.Go? && i == c.row * s.Dk + c.choice.thread
                  && |r.ms[c.row].threads[c.choice.thread].outWrites| > |v.ms[c.row].threads[c.choice.thread].outWrites|)
            && (forall i | 0 <= i < |v.u.v| && r.u.v[i] != v.u.v[i] ::
                  c.choice.Go? && i == c.row
                  && |r.ms[c.row].threads[c.choice.thread].yWrites| > |v.ms[c.row].threads[c.choice.thread].yWrites|)
  {
    hide Launchable, Allocated, GridApply, GridEnabled;
    ChoiceInRange(s, v.u, v.ms, c);
  }

  lemma KeepsStateCell(s: Shape, o: Overlap, u0: Buffers, v: Device, c: GridChoice, row: nat, t: nat)
    requires DeviceSized(s, v) && Allocated(s, u0) && OnlyOwn(s, u0, v) && GridEnabled(s, v.u, v.ms, c) && Harmless(o)
    requires row < s.Rows() && t < s.Dk && Advance(s, o, v, c).ms[row].threads[t].outWrites == []
    ensures StateCell(s, Advance(s, o, v, c).u, row, t) == StateCell(s, u0, row, t)
  {
    hide Launchable, Allocated, GridApply, GridEnabled, StoreBoth;
    Touched(s, o, v, c);
    StepStores(s, v.u, v.ms, c, row, t);
    assert StateCell(s, v.u, row, t) == StateCell(s, u0, row, t);
    ChoiceInRange(s, v.u, v.ms, c);
    if c.choice.Go? && row * s.Dk + t == c.row * s.Dk + c.choice.thread {
      CellsDiffer(s, row, t, c.row, c.choice.thread);
    }
  }

  lemma KeepsValue(s: Shape, o: Overlap, u0: Buffers, v: Device, c: GridChoice, row: nat)
    requires DeviceSized(s, v) && Allocated(s, u0) && OnlyOwn(s, u0, v) && GridEnabled(s, v.u, v.ms, c) && Harmless(o)
    requires row < s.Rows() && 0 < s.Dk && Advance(s, o, v, c).ms[row].threads[0].yWrites == []
    ensures Advance(s, o, v, c).u.v[row] == u0.v[row]
  {
    hide Launchable, GridApply, GridEnabled, StoreBoth;
    Touched(s, o, v, c);
    StepStores(s, v.u, v.ms, c, row, 0);
    ChoiceInRange(s, v.u, v.ms, c);
    if c.choice.Go? {
      StepStores(s, v.u, v.ms, c, c.row, c.choice.thread);
    }
  }

  lemma StepOnlyOwn(s: Shape, o: Overlap, u0: Buffers, v: Device, c: GridChoice)
    requires DeviceSized(s, v) && Allocated(s, u0) && OnlyOwn(s, u0, v) && GridEnabled(s, v.u, v.ms, c) && Harmless(o)
    ensures OnlyOwn(s, u0, Advance(s, o, v, c))
  {
    hide Launchable, Allocated, GridApply, GridEnabled, StoreBoth, StateCell;
    var r := Advance(s, o, v, c);
    Touched(s, o, v, c);
    forall row, t | 0 <= row < s.Rows() && 0 <= t < s.Dk && r.ms[row].threads[t].outWrites == []
      ensures StateCell(s, r.u, row, t) == StateCell(s, u0, row, t)
    {
      KeepsStateCell(s, o, u0, v, c, row, t);
    }
    forall row | 0 <= row < s.Rows() && 0 < s.Dk && r.ms[row].threads[0].yWrites == []
      ensures row < |r.u.v| && row < |u0.v| && r.u.v[row] == u0.v[row]
    {
      ValueInRange(s, r.u, row);
      ValueInRange(s, u0, row);
      KeepsValue(s, o, u0, v, c, row);
    }
  }

  lemma ValueInRange(s: Shape, u: Buffers, row: nat)
    requires Allocated(s, u) && row < s.Rows()
    ensures row < |u.v|
  {
  }

  lemma {:induction false} RunFollows(s: Shape, o: Overlap, u0: Buffers, ms0: seq<Machine>, v: Device, cs: seq<GridChoice>)
    requires DeviceSized(s, v) && Allocated(s, u0) && GridLaunched(s, u0, ms0) && Harmless(o)
    requires OnlyOwn(s, u0, v) && Follows(s, u0, ms0, v.ms) && CanRun(s, o, v, cs)
    ensures GridFeasible(s, u0, v.ms, cs) && RunDevice(s, o, v, cs).ms == GridExecute(s, u0, v.ms, cs)
    ensures OnlyOwn(s, u0, RunDevice(s, o, v, cs)) && Follows(s, u0, ms0, RunDevice(s, o, v, cs).ms)
    decreases |cs|
  {
    hide Launchable, Allocated, GridApply, GridEnabled, StoreBoth, OnlyOwn, Follows;
    if cs != [] {
      SameStep(s, u0, ms0, v, cs[0]);
      StepOnlyOwn(s, o, u0, v, cs[0]);
      StepFollows(s, u0, ms0, v.ms, cs[0]);
      RunFollows(s, o, u0, ms0, Advance(s, o, v, cs[0]), cs[1..]);
    }
  }

  lemma LaunchFollows(s: Shape, u: Buffers, ms: seq<Machine>)
    requires Launchable(s) && Allocated(s, u) && GridLaunched(s, u, ms)
    ensures OnlyOwn(s, u, Device(u, ms)) && Follows(s, u, ms, ms)
  {
    hide BlockOf, ProgramOf, Launchable, Allocated, Agrees;
    forall row | 0 <= row < s.Rows()
      ensures Agrees(BlockOf(s, u, row), ProgramOf(s, u, row), ms[row], ms[row])
    {
      FreshAgrees(BlockOf(s, u, row), ProgramOf(s, u, row), ms[row]);
    }
  }

  /** With the new state over the old one, the output over the values, or both, every interleaving of a
      launch does step by step what it does on separate buffers, and leaves the same results. */
  lemma HarmlessOverlap(s: Shape, o: Overlap, u: Buffers, ms: seq<Machine>, cs: seq<GridChoice>, next: Vec, y: Vec)
    requires Launchable(s) && Allocated(s, u) && GridLaunched(s, u, ms) && Harmless(o) && s.Dk > 0
    requires CanRun(s, o, Device(u, ms), cs)
    requires var end := RunDevice(s, o, Device(u, ms), cs); forall c :: !GridEnabled(s, end.u, end.ms, c)
    requires Wrote(s, RunDevice(s, o, Device(u, ms), cs).ms, next, y)
    ensures LaunchLeaves(s, u, next, y)
  {
    hide Launchable, Allocated, GridEnabled, OnlyOwn, Follows, Wrote;
    LaunchFollows(s, u, ms);
    RunFollows(s, o, u, ms, Device(u, ms), cs);
    var end := RunDevice(s, o, Device(u, ms), cs);
    forall c
      ensures !GridEnabled(s, u, end.ms, c)
    {
      SameStep(s, u, ms, end, c);
    }
  }
}
