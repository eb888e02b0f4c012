/** What the barrier between reading `tmp[0]` and overwriting it is for: without it, for every block size
    from two on, some block has a schedule that stores a wrong state. */
module DecodeHazard {
  import opened Vectors
  import opened GdnRow
  import opened BlockMachine
  import opened DecodeKernel

  /** The unmasked kernel up to the first total. */
  function ToTotal(n: nat): seq<Instr> {
    [LoadState, PutKey, Barrier] + Tree(n / 2)
  }

  /** What one thread does next, with no barrier before the shared array is reused. */
  const Reuse: seq<Instr> := [GetDelta, Update, PutOut, PutQuery]

  function NoBarrier(n: nat): seq<Instr> {
    ToTotal(n) + (Reuse + ([Barrier] + Tree(n / 2) + [PutY]))
  }

  lemma NoBarrierInRange(n: nat)
    ensures InRange(ToTotal(n), n) && RaceFree(ToTotal(n), n) && InRange(NoBarrier(n), n)
  {
    hide RaceFree, InRange;
    var load := [LoadState, PutKey, Barrier];
    ShortSafe(n);
    TreeSafe(n / 2, n);
    RaceFreeAppend(load, Tree(n / 2), n);
    InRangeAppend(load, Tree(n / 2), n);
    ReuseInRange(n);
    InRangeAppend([Barrier], Tree(n / 2), n);
    InRangeAppend([Barrier] + Tree(n / 2), [PutY], n);
    InRangeAppend(Reuse, [Barrier] + Tree(n / 2) + [PutY], n);
    InRangeAppend(ToTotal(n), Reuse + ([Barrier] + Tree(n / 2) + [PutY]), n);
  }

  lemma ReuseInRange(n: nat)
    ensures InRange(Reuse, n) && InRange([Barrier], n) && InRange([PutY], n)
    ensures forall i | i in Reuse :: InRange([i], n)
  {
  }

  /** Zero state, unit keys and queries, unit value: the residual is one, and so is the new state. */
  function Witness(n: nat): (b: Block)
    requires n > 0
    ensures Valid(b) && b.n == n
  {
    Block(n, Same(n, 1.0), Same(n, 1.0), Same(n, 0.0), 1.0, 1.0, 1.0)
  }

  function Start(n: nat): (m: Machine)
    requires n > 0
    ensures Launched(Witness(n), m)
  {
    Machine(seq(n, d => Thread(0, 0.0, 0.0, 0.0, [], [])), Same(n, 0.0))
  }

  lemma RightState(n: nat, d: nat)
    requires d < n
    ensures Next(Witness(n).state, TokenOf(Witness(n), true))[d] == 1.0
  {
    hide Dot;
    var (b, x) := (Witness(n), TokenOf(Witness(n), true));
    assert Decayed(b.state, x) == Zeros(n);
    DotZeros(n, b.k);
    assert Delta(b.state, x) == 1.0;
    assert Scale(1.0, b.k)[d] == 1.0;
  }

  /** All threads have the total, and none has gone on. */
  ghost predicate AtTotal(n: nat, m: Machine)
    requires n > 0
  {
    && Sized(Witness(n), m) && m.tmp[0] == 0.0
    && forall d | 0 <= d < n :: m.threads[d].pc == |ToTotal(n)| && m.threads[d].s == 0.0 && m.threads[d].outWrites == []
  }

  lemma TotalIsZero(n: nat)
    requires n >= 2 && InRange(ToTotal(n), n)
    ensures var r := Lockstep(Witness(n), ToTotal(n), Start(n));
            r.tmp[0] == 0.0 && forall d | 0 <= d < n :: r.threads[d].s == 0.0 && r.threads[d].outWrites == []
  {
    hide Together, Tree, InRange, RaceFree;
    var (b, m) := (Witness(n), Start(n));
    var load := [LoadState, PutKey, Barrier];
    UpdateHalfParts(n);
    LockstepAppend(b, load, Tree(n / 2), m);
    var m1 := Lockstep(b, load, m);
    LoadLockstep(b, m, m1);
    TreeLockstep(b, n / 2, m1);
    ReduceSame(n / 2, m1.tmp, 0.0);
  }

  /** Some schedule brings every thread to the total. */
  lemma ReachTotal(n: nat) returns (cs: seq<Choice>)
    requires n >= 2 && InRange(ToTotal(n), n) && InRange(NoBarrier(n), n) && RaceFree(ToTotal(n), n)
    ensures Feasible(Witness(n), NoBarrier(n), Start(n), cs)
    ensures AtTotal(n, Execute(Witness(n), NoBarrier(n), Start(n), cs))
  {
    hide InRange, RaceFree, ToTotal, Reuse, Lockstep, Execute;
    var (b, p, m) := (Witness(n), ToTotal(n), Start(n));
    cs := SomeScheduleEnds(b, p, m);
    EverySchedule(b, p, m, cs);
    LongerProgram(b, p, Reuse + ([Barrier] + Tree(n / 2) + [PutY]), m, cs);
    TotalIsZero(n);
    LockAtPc(b, p, m, |p|);
    assert p[..|p|] == p;
    assert LockAt(b, p, m, |p|) == Lockstep(b, p, m);
    assert NoBarrier(n) == p + (Reuse + ([Barrier] + Tree(n / 2) + [PutY]));
    assert Execute(b, NoBarrier(n), m, cs) == Lockstep(b, p, m);
  }

  lemma ReusePlaces(n: nat)
    ensures var (i, p) := (|ToTotal(n)|, NoBarrier(n));
            i + 4 <= |p| && p[i] == GetDelta && p[i + 1] == Update && p[i + 2] == PutOut && p[i + 3] == PutQuery
  {
    hide Tree;
    var (a, rest) := (ToTotal(n), [Barrier] + Tree(n / 2) + [PutY]);
    assert forall k | 0 <= k < 4 :: (a + (Reuse + rest))[|a| + k] == Reuse[k];
  }

  lemma FourSteps(b: Block, p: seq<Instr>, m: Machine, d: nat, m1: Machine, m2: Machine, m3: Machine, m4: Machine)
    requires Valid(b) && InRange(p, b.n) && Sized(b, m) && Sized(b, m1) && Sized(b, m2) && Sized(b, m3)
    requires Feasible(b, p, m, [Go(d)]) && m1 == Execute(b, p, m, [Go(d)])
    requires Feasible(b, p, m1, [Go(d)]) && m2 == Execute(b, p, m1, [Go(d)])
    requires Feasible(b, p, m2, [Go(d)]) && m3 == Execute(b, p, m2, [Go(d)])
    requires Feasible(b, p, m3, [Go(d)]) && m4 == Execute(b, p, m3, [Go(d)])
    ensures Feasible(b, p, m, [Go(d), Go(d), Go(d), Go(d)]) && Execute(b, p, m, [Go(d), Go(d), Go(d), Go(d)]) == m4
  {
    hide Feasible, Execute, InRange;
    ScheduleAppend(b, p, m, [Go(d)], [Go(d)]);
    ScheduleAppend(b, p, m, [Go(d)] + [Go(d)], [Go(d)]);
    ScheduleAppend(b, p, m, [Go(d)] + [Go(d)] + [Go(d)], [Go(d)]);
    assert [Go(d)] + [Go(d)] + [Go(d)] + [Go(d)] == [Go(d), Go(d), Go(d), Go(d)];
  }

  /** The four instructions of one thread, in place. */
  lemma ReuseEffect(b: Block, m: Machine, d: nat, m1: Machine, m2: Machine, m3: Machine, m4: Machine)
    requires Valid(b) && Sized(b, m) && d < b.n && InRange([GetDelta], b.n) && InRange([Update], b.n)
    requires InRange([PutOut], b.n) && InRange([PutQuery], b.n) && b.beta == 1.0 && b.k[d] == 1.0 && b.q[d] == 1.0
    requires m1 == GoOne(b, GetDelta, d, m) && m2 == GoOne(b, Update, d, m1)
    requires m3 == GoOne(b, PutOut, d, m2) && m4 == GoOne(b, PutQuery, d, m3)
    ensures var s := m.threads[d].s + (b.v - m.tmp[0]);
            && Sized(b, m4) && m4.threads[d].outWrites == m.threads[d].outWrites + [s] && m4.tmp[d] == s
            && (forall e | 0 <= e < b.n && e != d :: m4.threads[e] == m.threads[e] && m4.tmp[e] == m.tmp[e])
  {
    hide InRange;
  }

  /** Thread `d` runs on through the reuse of the shared array. */
  lemma RunReuse(n: nat, m: Machine, d: nat) returns (r: Machine)
    requires n >= 2 && d < n && Sized(Witness(n), m) && m.threads[d].pc == |ToTotal(n)| && InRange(NoBarrier(n), n)
    ensures Feasible(Witness(n), NoBarrier(n), m, [Go(d), Go(d), Go(d), Go(d)])
    ensures r == Execute(Witness(n), NoBarrier(n), m, [Go(d), Go(d), Go(d), Go(d)]) && Sized(Witness(n), r)
    ensures var s := m.threads[d].s + (1.0 - m.tmp[0]);
            r.threads[d].outWrites == m.threads[d].outWrites + [s] && r.tmp[d] == s
    ensures forall e | 0 <= e < n && e != d :: r.threads[e] == m.threads[e] && r.tmp[e] == m.tmp[e]
  {
    hide InRange, NoBarrier, ToTotal, ExecCell, Feasible, Execute;
    var (b, p) := (Witness(n), NoBarrier(n));
    ReuseInRange(n);
    assert InRange([GetDelta], n) && InRange([Update], n) && InRange([PutOut], n) && InRange([PutQuery], n) by {
      assert Reuse[0] in Reuse && Reuse[1] in Reuse && Reuse[2] in Reuse && Reuse[3] in Reuse;
    }
    ReusePlaces(n);
    var m1 := OneStep(b, p, m, d);
    var m2 := OneStep(b, p, m1, d);
    var m3 := OneStep(b, p, m2, d);
    r := OneStep(b, p, m3, d);
    FourSteps(b, p, m, d, m1, m2, m3, r);
    ReuseEffect(b, m, d, m1, m2, m3, r);
  }

  lemma OneStep(b: Block, p: seq<Instr>, m: Machine, d: nat) returns (r: Machine)
    requires Valid(b) && InRange(p, b.n) && Sized(b, m) && d < b.n
    requires m.threads[d].pc < |p| && p[m.threads[d].pc] != Barrier && InRange([p[m.threads[d].pc]], b.n)
    ensures Feasible(b, p, m, [Go(d)]) && r == Execute(b, p, m, [Go(d)])
    ensures r == GoOne(b, p[m.threads[d].pc], d, m)
  {
    r := Apply(b, p, m, Go(d));
    assert Enabled(b, p, m, Go(d)) && [Go(d)][1..] == [];
  }

  /** The barrier after reading the residual total is needed: without it a run of the whole kernel can
      end with a state cell of the wrong value. */
  lemma SecondBarrierNeeded(n: nat) returns (b: Block, m: Machine, cs: seq<Choice>)
    requires n >= 2
    ensures Valid(b) && b.n == n && Launched(b, m) && InRange(NoBarrier(n), n)
    ensures Feasible(b, NoBarrier(n), m, cs) && Stuck(b, NoBarrier(n), Execute(b, NoBarrier(n), m, cs))
    ensures !StoresRowStep(b, true, Execute(b, NoBarrier(n), m, cs))
  {
    hide InRange, RaceFree, Execute, Feasible, Stuck, NoBarrier, Next, Out, Witness, Start;
    b, m := Witness(n), Start(n);
    NoBarrierInRange(n);
    var p := NoBarrier(n);
    cs := ReachTotal(n);
    var m1 := Execute(b, p, m, cs);
    var ahead, behind := [Go(0), Go(0), Go(0), Go(0)], [Go(1), Go(1), Go(1), Go(1)];
    var m2 := RunReuse(n, m1, 0);
    ScheduleAppend(b, p, m, cs, ahead);
    cs := cs + ahead;
    var m3 := RunReuse(n, m2, 1);
    ScheduleAppend(b, p, m, cs, behind);
    cs := cs + behind;
    assert m3.threads[1].outWrites == [0.0];
    PositionsStay(b, p, m, cs);
    var rest := SomeScheduleEnds(b, p, m3);
    ScheduleAppend(b, p, m, cs, rest);
    StoresStay(b, p, m3, rest, 1);
    cs := cs + rest;
    RightState(n, 1);
    assert Execute(b, p, m, cs).threads[1].outWrites[0] == 0.0;
  }
}
