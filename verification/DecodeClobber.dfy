/** An overlap that the launch guard lets through and that makes a launch store wrong states. */
module DecodeClobber {
  import opened Vectors
  import opened Tensors
  import opened BlockMachine
  import opened DecodeKernel
  import opened DecodeLaunch
  import opened DecodeRefinement
  import opened DecodeAddresses
  import opened DecodeOverlap

  /** Masked entries, a state of ones, everything else zero. */
  ghost function Ones(s: Shape): (u: Buffers)
    requires Launchable(s)
    ensures Allocated(s, u)
  {
    Buffers(Same(s.B * s.Hk * s.Dk, 0.0), Same(s.B * s.Hk * s.Dk, 0.0), Same(s.Rows(), 0.0), Same(s.B * s.Hv, 0.0),
            Same(s.B * s.Hv, 0.0), Same(s.Rows() * s.Dk, 1.0), Some(seq(s.B, b => false)))
  }

  lemma MaskedOnes(s: Shape, u: Buffers, row: nat, t: nat)
    requires Launchable(s) && Allocated(s, u) && u.mask == Ones(s).mask && row < s.Rows() && t < s.Dk
    ensures ProgramOf(s, u, row) == Masked && !MaskOf(s, u, row)
    ensures row * s.Dk + t < |u.state| && BlockOf(s, u, row).state[t] == u.state[row * s.Dk + t]
  {
    hide PlaceOf, Span, Launchable;
    InBounds(s, u, row);
    SpanEntry(u.state, row, s.Dk, t);
  }

  /** Thread `t` of a masked block, at its first and at its second instruction. */
  lemma MaskedStep(s: Shape, u: Buffers, ms: seq<Machine>, row: nat, t: nat)
    requires Launchable(s) && Allocated(s, u) && GridSized(s, ms) && row < s.Rows() && t < s.Dk
    requires u.mask == Ones(s).mask && ms[row].threads[t].pc < 2
    ensures row * s.Dk + t < |u.state|
    ensures var (c, th) := (GridChoice(row, Go(t)), ms[row].threads[t]);
            && GridEnabled(s, u, ms, c)
            && (forall r, e | 0 <= r < s.Rows() && 0 <= e < s.Dk && (r != row || e != t) ::
                  GridApply(s, u, ms, c)[r].threads[e] == ms[r].threads[e])
            && GridApply(s, u, ms, c)[row].threads[t]
               == if th.pc == 0 then th.(pc := 1, outWrites := th.outWrites + [u.state[row * s.Dk + t]])
                  else th.(pc := 2, yWrites := th.yWrites + if t == 0 then [0.0] else [])
  {
    MaskedOnes(s, u, row, t);
    hide BlockOf, ProgramOf, Launchable, Allocated, MaskOf;
    assert Masked[0] == CopyOut && Masked[1] == ZeroY && |Masked| == 2;
  }

  const OverState: Overlap := Overlap(None, Some(InState))

  lemma MaskedAdvance(s: Shape, v: Device, row: nat, t: nat) returns (r: Device)
    requires DeviceSized(s, v) && row < s.Rows() && t < s.Dk && v.u.mask == Ones(s).mask && v.ms[row].threads[t].pc < 2
    ensures var c := GridChoice(row, Go(t)); GridEnabled(s, v.u, v.ms, c) && r == Advance(s, OverState, v, c)
    ensures DeviceSized(s, r) && r.u.mask == v.u.mask && row * s.Dk + t < |v.u.state|
    ensures forall r', e | 0 <= r' < s.Rows() && 0 <= e < s.Dk && (r' != row || e != t) ::
        r.ms[r'].threads[e] == v.ms[r'].threads[e]
    ensures var (th, th') := (v.ms[row].threads[t], r.ms[row].threads[t]);
            if th.pc == 0 then th'.pc == 1 && th'.outWrites == th.outWrites + [v.u.state[row * s.Dk + t]] && r.u.state == v.u.state
            else r.u.state == if t == 0 then Put(v.u.state, row, 0.0) else v.u.state
  {
    hide Launchable, Allocated, GridApply, GridEnabled;
    MaskedStep(s, v.u, v.ms, row, t);
    r := Advance(s, OverState, v, GridChoice(row, Go(t)));
  }

  lemma ThreeSteps(s: Shape, v: Device, c: GridChoice, d: GridChoice, e: GridChoice, v1: Device, v2: Device, v3: Device)
    requires DeviceSized(s, v) && GridEnabled(s, v.u, v.ms, c) && v1 == Advance(s, OverState, v, c)
    requires GridEnabled(s, v1.u, v1.ms, d) && v2 == Advance(s, OverState, v1, d)
    requires GridEnabled(s, v2.u, v2.ms, e) && v3 == Advance(s, OverState, v2, e)
    ensures CanRun(s, OverState, v, [c, d, e]) && RunDevice(s, OverState, v, [c, d, e]) == v3
  {
    hide Launchable, Allocated, GridEnabled, Advance;
    assert [c, d, e][1..] == [d, e] && [d, e][1..] == [e] && [e][1..] == [];
    assert CanRun(s, OverState, v2, [e]) && RunDevice(s, OverState, v2, [e]) == v3;
    assert CanRun(s, OverState, v1, [d, e]) && RunDevice(s, OverState, v1, [d, e]) == v3;
  }

  lemma BigEnough(s: Shape)
    requires Launchable(s)
    ensures s.Dk >= 32
  {
  }

  /** The output written over the state, which the guard lets through, is harmful whenever there is more
      than one row: a block stores its output where another block still has to read its state. */
  lemma OutputOverState(s: Shape, ms: seq<Machine>) returns (cs: seq<GridChoice>)
    requires Launchable(s) && s.Rows() > 1 && GridLaunched(s, Ones(s), ms)
    ensures 1 < s.Dk && !MaskOf(s, Ones(s), 0) && BlockOf(s, Ones(s), 0).state[1] == 1.0
    ensures CanRun(s, OverState, Device(Ones(s), ms), cs)
    ensures RunDevice(s, OverState, Device(Ones(s), ms), cs).ms[0].threads[1].outWrites == [0.0]
  {
    BigEnough(s);
    MaskedOnes(s, Ones(s), 0, 1);
    hide Launchable, Allocated, GridEnabled, MaskOf, BlockOf, Advance, CanRun, RunDevice;
    var v := Device(Ones(s), ms);
    var (first, third) := (GridChoice(1, Go(0)), GridChoice(0, Go(1)));
    var v1 := MaskedAdvance(s, v, 1, 0);
    var v2 := MaskedAdvance(s, v1, 1, 0);
    var v3 := MaskedAdvance(s, v2, 0, 1);
    ThreeSteps(s, v, first, first, third, v1, v2, v3);
    cs := [first, first, third];
  }

  /** The guard refuses both harmless overlaps and lets the harmful one through. */
  lemma GuardOnOverlaps(p: Addresses, d: Dims)
    ensures p.next == p.state || p.y == p.v ==> Guard(p, d).InvalidValue?
    ensures Guard(Addresses(1, 2, 3, 4, 5, 6, 0, 6, 8), Dims(1, 1, 1, 32, 2)).Success?
  {
  }
}
