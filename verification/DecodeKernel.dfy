/** The decode kernel as a block program, its two tree reductions, and what a block computes. */
module DecodeKernel {
  import opened Vectors
  import opened GdnRow
  import opened BlockMachine

  /** `for (offset = o; offset > 0; offset /= 2) { if (d < offset) tmp[d] += tmp[d + offset]; barrier }` */
  function Tree(o: nat): seq<Instr>
    decreases o
  {
    if o == 0 then [] else [GetPartner(o), AddPartner(o), Barrier] + Tree(o / 2)
  }

  /** The body executed by every thread of an unmasked block. */
  function Active(n: nat): seq<Instr> {
    [LoadState, PutKey, Barrier] + Tree(n / 2) + [GetDelta, Barrier, Update, PutOut, PutQuery, Barrier]
    + Tree(n / 2) + [PutY]
  }

  const Masked: seq<Instr> := [CopyOut, ZeroY]

  /** The mask is read per batch entry, so all threads of a block take the same branch. */
  function Program(n: nat, mask: bool): seq<Instr> {
    if mask then Active(n) else Masked
  }

  // ---------------------------------------------------------------- tree reduction

  /** One round: the lower half of the first `2 * o` cells absorbs the upper half. */
  function Fold(o: nat, tmp: Vec): (r: Vec)
    requires 2 * o <= |tmp|
    ensures |r| == |tmp|
  {
    seq(|tmp|, d requires 0 <= d < |tmp| => if d < o then tmp[d] + tmp[d + o] else tmp[d])
  }

  function Reduce(o: nat, tmp: Vec): (r: Vec)
    requires 2 * o <= |tmp|
    ensures |r| == |tmp|
    decreases o
  {
    if o == 0 then tmp else Reduce(o / 2, Fold(o, tmp))
  }

  predicate PowerOfTwo(n: nat) {
    n == 1 || (n > 1 && n % 2 == 0 && PowerOfTwo(n / 2))
  }

  lemma FoldTotal(o: nat, tmp: Vec)
    requires 2 * o <= |tmp|
    ensures Total(Fold(o, tmp)[..o]) == Total(tmp[..2 * o])
  {
    assert Fold(o, tmp)[..o] == Plus(tmp[..o], tmp[o..2 * o]);
    TotalPlus(tmp[..o], tmp[o..2 * o]);
    assert tmp[..2 * o] == tmp[..o] + tmp[o..2 * o];
    TotalAppend(tmp[..o], tmp[o..2 * o]);
  }

  lemma {:induction false} ReduceTotal(o: nat, tmp: Vec)
    requires 0 < o && 2 * o <= |tmp| && PowerOfTwo(o)
    ensures Reduce(o, tmp)[0] == Total(tmp[..2 * o])
    decreases o
  {
    var f := Fold(o, tmp);
    FoldTotal(o, tmp);
    if o == 1 {
      assert f[..1] == [f[0]] && [f[0]][1..] == [];
    } else {
      ReduceTotal(o / 2, f);
    }
  }

  /** All cells equal to `x`. */
  function Same(n: nat, x: real): (r: Vec)
    ensures |r| == n && forall i | 0 <= i < n :: r[i] == x
  {
    seq(n, i => x)
  }

  lemma {:induction false} SameTotal(n: nat)
    ensures Total(Same(n, 1.0)) == n as real
  {
    if n > 0 {
      assert Same(n, 1.0)[1..] == Same(n - 1, 1.0);
      SameTotal(n - 1);
    }
  }

  /** Largest power of two that is at most `n`. */
  function Floor2(n: nat): (r: nat)
    requires n > 0
    ensures r <= n
    ensures r == n <==> PowerOfTwo(n)
  {
    if n == 1 then 1 else 2 * Floor2(n / 2)
  }

  /** On equal cells the tree adds up as many of them as the largest power of two in range. */
  lemma {:induction false} ReduceSame(o: nat, tmp: Vec, x: real)
    requires 0 < o && 2 * o <= |tmp|
    requires forall d | 0 <= d < 2 * o :: tmp[d] == x
    ensures Reduce(o, tmp)[0] == (2 * Floor2(o)) as real * x
    decreases o
  {
    if o > 1 {
      ReduceSame(o / 2, Fold(o, tmp), x + x);
      assert (2 * Floor2(o / 2)) as real * (x + x) == (2 * (2 * Floor2(o / 2))) as real * x;
    }
  }

  /** The tree adds all cells, for every content of `tmp`, exactly when the block size is a power of two. */
  lemma TreeSumsExactly(n: nat)
    requires n > 0
    ensures (forall tmp: Vec | |tmp| == n :: Reduce(n / 2, tmp)[0] == Total(tmp)) <==> PowerOfTwo(n)
  {
    if PowerOfTwo(n) {
      forall tmp: Vec | |tmp| == n
        ensures Reduce(n / 2, tmp)[0] == Total(tmp)
      {
        TreeSum(n, tmp);
      }
    } else {
      var ones := Same(n, 1.0);
      SameTotal(n);
      ReduceSame(n / 2, ones, 1.0);
      assert Reduce(n / 2, ones)[0] == Floor2(n) as real;
      assert Reduce(n / 2, ones)[0] != Total(ones);
    }
  }

  lemma TreeSum(n: nat, tmp: Vec)
    requires PowerOfTwo(n) && |tmp| == n
    ensures Reduce(n / 2, tmp)[0] == Total(tmp)
  {
    if n == 1 {
      assert tmp[1..] == [];
    } else {
      ReduceTotal(n / 2, tmp);
      assert tmp[..n] == tmp;
    }
  }

  // ---------------------------------------------------------------- the program is race-free

  lemma {:induction false} TreeSafe(o: nat, n: nat)
    requires 2 * o <= n
    ensures InRange(Tree(o), n) && RaceFree(Tree(o), n) && EndsAtBarrier(Tree(o))
    decreases o
  {
    if o > 0 {
      var round := [GetPartner(o), AddPartner(o), Barrier];
      TreeSafe(o / 2, n);
      RoundSafe(o, n);
      RaceFreeAppend(round, Tree(o / 2), n);
      InRangeAppend(round, Tree(o / 2), n);
    }
  }

  /** In one round threads read above `o` and write below it. */
  lemma RoundSafe(o: nat, n: nat)
    requires 2 * o <= n
    ensures var round := [GetPartner(o), AddPartner(o), Barrier];
            InRange(round, n) && RaceFree(round, n)
  {
  }

  lemma ShortSafe(n: nat)
    ensures RaceFree([LoadState, PutKey, Barrier], n) && RaceFree([GetDelta, Barrier], n)
    ensures RaceFree([Update, PutOut, PutQuery, Barrier], n) && RaceFree([PutY], n) && RaceFree(Masked, n)
    ensures InRange([LoadState, PutKey, Barrier], n) && InRange([GetDelta, Barrier], n)
    ensures InRange([Update, PutOut, PutQuery, Barrier], n) && InRange([PutY], n) && InRange(Masked, n)
  {
  }

  /** The two halves of an unmasked block: the state update, and the readout of the updated state. */
  function UpdateHalf(n: nat): seq<Instr> {
    [LoadState, PutKey, Barrier] + Tree(n / 2) + [GetDelta, Barrier]
  }

  function ReadoutHalf(n: nat): seq<Instr> {
    [Update, PutOut, PutQuery, Barrier] + Tree(n / 2) + [PutY]
  }

  lemma ActiveHalves(n: nat)
    ensures Active(n) == UpdateHalf(n) + ReadoutHalf(n)
  {
    assert [GetDelta, Barrier, Update, PutOut, PutQuery, Barrier] == [GetDelta, Barrier] + [Update, PutOut, PutQuery, Barrier];
  }

  /** For every block size, masked or not: no access leaves `tmp`, and no two threads race. */
  lemma ProgramSafe(n: nat, mask: bool)
    ensures InRange(Program(n, mask), n) && RaceFree(Program(n, mask), n)
    ensures InRange(UpdateHalf(n), n) && InRange(ReadoutHalf(n), n)
  {
    hide RaceFree, InRange;
    ShortSafe(n);
    TreeSafe(n / 2, n);
    var load, delta := [LoadState, PutKey, Barrier], [GetDelta, Barrier];
    var update := [Update, PutOut, PutQuery, Barrier];
    RaceFreeAppend(load, Tree(n / 2), n);
    InRangeAppend(load, Tree(n / 2), n);
    RaceFreeAppend(load + Tree(n / 2), delta, n);
    InRangeAppend(load + Tree(n / 2), delta, n);
    RaceFreeAppend(update, Tree(n / 2), n);
    InRangeAppend(update, Tree(n / 2), n);
    RaceFreeAppend(update + Tree(n / 2), [PutY], n);
    InRangeAppend(update + Tree(n / 2), [PutY], n);
    RaceFreeAppend(UpdateHalf(n), ReadoutHalf(n), n);
    InRangeAppend(UpdateHalf(n), ReadoutHalf(n), n);
    ActiveHalves(n);
  }

  // ---------------------------------------------------------------- what lockstep computes

  /** Registers that survive a reduction, and the stores done so far. */
  ghost predicate Keeps(t: Thread, t': Thread) {
    t'.s == t.s && t'.delta == t.delta && t'.outWrites == t.outWrites && t'.yWrites == t.yWrites
  }

  lemma TreeOrder(b: Block, o: nat, m: Machine)
    requires Valid(b) && Sized(b, m) && 0 < o && 2 * o <= b.n
    requires InRange(Tree(o), b.n) && InRange(Tree(o / 2), b.n) && InRange([GetPartner(o)], b.n)
    requires InRange([AddPartner(o)], b.n) && InRange([Barrier], b.n)
    ensures Lockstep(b, Tree(o), m)
            == Lockstep(b, Tree(o / 2), Together(b, Barrier, Together(b, AddPartner(o), Together(b, GetPartner(o), m))))
  {
    hide Together, InRange;
    var rest := Tree(o / 2);
    assert Tree(o) == [GetPartner(o)] + ([AddPartner(o)] + ([Barrier] + rest));
    var m1 := Together(b, GetPartner(o), m);
    var m2 := Together(b, AddPartner(o), m1);
    LockstepFirst(b, Barrier, rest, m2);
    LockstepFirst(b, AddPartner(o), [Barrier] + rest, m1);
    LockstepFirst(b, GetPartner(o), [AddPartner(o)] + ([Barrier] + rest), m);
  }

  lemma RoundTogether(b: Block, o: nat, m: Machine)
    requires Valid(b) && Sized(b, m) && 0 < o && 2 * o <= b.n
    requires InRange([GetPartner(o)], b.n) && InRange([AddPartner(o)], b.n) && InRange([Barrier], b.n)
    ensures var r := Together(b, Barrier, Together(b, AddPartner(o), Together(b, GetPartner(o), m)));
            r.tmp == Fold(o, m.tmp) && forall d | 0 <= d < b.n :: Keeps(m.threads[d], r.threads[d])
  {
  }

  lemma RoundInRange(o: nat, n: nat)
    requires 2 * o <= n
    ensures InRange([GetPartner(o)], n) && InRange([AddPartner(o)], n) && InRange([Barrier], n)
  {
  }

  lemma {:induction false} TreeLockstep(b: Block, o: nat, m: Machine)
    requires Valid(b) && Sized(b, m) && 2 * o <= b.n && InRange(Tree(o), b.n)
    ensures var r := Lockstep(b, Tree(o), m);
            r.tmp == Reduce(o, m.tmp) && forall d | 0 <= d < b.n :: Keeps(m.threads[d], r.threads[d])
    decreases o
  {
    hide Together, InRange, Fold, RaceFree;
    if o > 0 {
      TreeSafe(o / 2, b.n);
      RoundInRange(o, b.n);
      TreeOrder(b, o, m);
      RoundTogether(b, o, m);
      TreeLockstep(b, o / 2, Together(b, Barrier, Together(b, AddPartner(o), Together(b, GetPartner(o), m))));
    }
  }

  function TokenOf(b: Block, mask: bool): Token {
    Token(b.q, b.k, b.v, b.g, b.beta, mask)
  }

  ghost predicate SameStores(b: Block, m: Machine, r: Machine)
    requires Sized(b, m) && Sized(b, r)
  {
    forall d | 0 <= d < b.n ::
      r.threads[d].outWrites == m.threads[d].outWrites && r.threads[d].yWrites == m.threads[d].yWrites
  }

  lemma LoadOrder(b: Block, m: Machine)
    requires Valid(b) && Sized(b, m) && InRange([LoadState, PutKey, Barrier], b.n)
    ensures Lockstep(b, [LoadState, PutKey, Barrier], m) == Together(b, Barrier, Together(b, PutKey, Together(b, LoadState, m)))
  {
    hide Together;
    var m1 := Together(b, LoadState, m);
    LockstepFirst(b, Barrier, [], Together(b, PutKey, m1));
    LockstepFirst(b, PutKey, [Barrier], m1);
    LockstepFirst(b, LoadState, [PutKey, Barrier], m);
    assert [Barrier] + [] == [Barrier] && [PutKey] + [Barrier] == [PutKey, Barrier];
    assert [LoadState] + [PutKey, Barrier] == [LoadState, PutKey, Barrier];
  }

  lemma LoadLockstep(b: Block, m: Machine, r: Machine)
    requires Valid(b) && Sized(b, m) && InRange([LoadState, PutKey, Barrier], b.n)
    requires r == Lockstep(b, [LoadState, PutKey, Barrier], m)
    ensures r.tmp == Times(Decayed(b.state, TokenOf(b, true)), b.k) && SameStores(b, m, r)
    ensures forall d | 0 <= d < b.n :: r.threads[d].s == Decayed(b.state, TokenOf(b, true))[d]
  {
    hide Together, Decayed;
    SingleInRange(b.n);
    LoadOrder(b, m);
    LoadValues(b, m, r);
  }

  /** Instructions that index no partner are in range for any block. */
  lemma SingleInRange(n: nat)
    ensures InRange([LoadState], n) && InRange([PutKey], n) && InRange([Barrier], n) && InRange([GetDelta], n)
    ensures InRange([Update], n) && InRange([PutOut], n) && InRange([PutQuery], n) && InRange([PutY], n)
  {
  }

  lemma LoadValues(b: Block, m: Machine, r: Machine)
    requires Valid(b) && Sized(b, m) && Sized(b, r)
    requires InRange([LoadState], b.n) && InRange([PutKey], b.n) && InRange([Barrier], b.n)
    requires r == Together(b, Barrier, Together(b, PutKey, Together(b, LoadState, m)))
    ensures r.tmp == Times(Decayed(b.state, TokenOf(b, true)), b.k) && SameStores(b, m, r)
    ensures forall d | 0 <= d < b.n :: r.threads[d].s == Decayed(b.state, TokenOf(b, true))[d]
  {
    hide InRange;
    var m1 := Together(b, LoadState, m);
    var dec := Decayed(b.state, TokenOf(b, true));
    forall d | 0 <= d < b.n
      ensures r.threads[d].s == dec[d] && r.tmp[d] == Times(dec, b.k)[d]
      ensures r.threads[d].outWrites == m.threads[d].outWrites && r.threads[d].yWrites == m.threads[d].yWrites
    {
      LoadEntry(b.state[d], b.g, b.k[d], m1.threads[d].s, dec[d], r.tmp[d], Times(dec, b.k)[d]);
    }
  }

  lemma LoadEntry(state: real, g: real, k: real, s: real, dec: real, cell: real, product: real)
    requires s == state * g && dec == g * state && cell == s * k && product == dec * k
    ensures s == dec && cell == product
  {
    assert s == dec;
    MulEqual(k, s, dec);
  }

  lemma DeltaLockstep(b: Block, m: Machine, r: Machine)
    requires Valid(b) && Sized(b, m) && InRange([GetDelta, Barrier], b.n)
    requires r == Lockstep(b, [GetDelta, Barrier], m)
    ensures SameStores(b, m, r)
    ensures forall d | 0 <= d < b.n ::
        r.threads[d].s == m.threads[d].s && r.threads[d].delta == (b.v - m.tmp[0]) * b.beta
  {
    hide Together;
    SingleInRange(b.n);
    LockstepFirst(b, Barrier, [], Together(b, GetDelta, m));
    LockstepFirst(b, GetDelta, [Barrier], m);
    assert [Barrier] + [] == [Barrier] && [GetDelta] + [Barrier] == [GetDelta, Barrier];
    DeltaValues(b, m);
  }

  lemma DeltaValues(b: Block, m: Machine)
    requires Valid(b) && Sized(b, m) && InRange([GetDelta], b.n) && InRange([Barrier], b.n)
    ensures var r := Together(b, Barrier, Together(b, GetDelta, m));
            && SameStores(b, m, r)
            && (forall d | 0 <= d < b.n ::
                  r.threads[d].s == m.threads[d].s && r.threads[d].delta == (b.v - m.tmp[0]) * b.beta)
  {
    hide InRange;
  }

  lemma UpdateOrder(b: Block, m: Machine)
    requires Valid(b) && Sized(b, m) && InRange([Update, PutOut, PutQuery, Barrier], b.n)
    ensures Lockstep(b, [Update, PutOut, PutQuery, Barrier], m)
            == Together(b, Barrier, Together(b, PutQuery, Together(b, PutOut, Together(b, Update, m))))
  {
    hide Together;
    var m1 := Together(b, Update, m);
    var m2 := Together(b, PutOut, m1);
    var m3 := Together(b, PutQuery, m2);
    LockstepFirst(b, Barrier, [], m3);
    LockstepFirst(b, PutQuery, [Barrier], m2);
    LockstepFirst(b, PutOut, [PutQuery, Barrier], m1);
    LockstepFirst(b, Update, [PutOut, PutQuery, Barrier], m);
    assert [Barrier] + [] == [Barrier] && [PutQuery] + [Barrier] == [PutQuery, Barrier];
    assert [PutOut] + [PutQuery, Barrier] == [PutOut, PutQuery, Barrier];
    assert [Update] + [PutOut, PutQuery, Barrier] == [Update, PutOut, PutQuery, Barrier];
  }

  /** State entry of thread `d` after the update. */
  function NewEntry(b: Block, m: Machine, d: nat): real
    requires Valid(b) && |m.threads| == b.n && d < b.n
  {
    m.threads[d].s + m.threads[d].delta * b.k[d]
  }

  lemma UpdateLockstep(b: Block, m: Machine, r: Machine)
    requires Valid(b) && Sized(b, m) && InRange([Update, PutOut, PutQuery, Barrier], b.n)
    requires r == Lockstep(b, [Update, PutOut, PutQuery, Barrier], m)
    ensures forall d | 0 <= d < b.n ::
        && r.tmp[d] == NewEntry(b, m, d) * b.q[d]
        && r.threads[d].outWrites == m.threads[d].outWrites + [NewEntry(b, m, d)]
        && r.threads[d].yWrites == m.threads[d].yWrites
  {
    hide Together, NewEntry;
    SingleInRange(b.n);
    UpdateOrder(b, m);
    UpdateRegisters(b, m);
    StoreEntries(b, Together(b, Update, m));
  }

  lemma UpdateRegisters(b: Block, m: Machine)
    requires Valid(b) && Sized(b, m) && InRange([Update], b.n)
    ensures var r := Together(b, Update, m);
            forall d | 0 <= d < b.n :: r.threads[d] == m.threads[d].(pc := m.threads[d].pc + 1, s := NewEntry(b, m, d))
  {
  }

  lemma StoreEntries(b: Block, m: Machine)
    requires Valid(b) && Sized(b, m)
    requires InRange([PutOut], b.n) && InRange([PutQuery], b.n) && InRange([Barrier], b.n)
    ensures var r := Together(b, Barrier, Together(b, PutQuery, Together(b, PutOut, m)));
            forall d | 0 <= d < b.n ::
              && r.tmp[d] == m.threads[d].s * b.q[d]
              && r.threads[d].outWrites == m.threads[d].outWrites + [m.threads[d].s]
              && r.threads[d].yWrites == m.threads[d].yWrites
  {
  }

  // ---------------------------------------------------------------- a block computes one row step

  /** Every thread holds its decayed state entry and the correction coefficient of the row. */
  ghost predicate Primed(b: Block, m: Machine)
    requires Valid(b) && Sized(b, m)
  {
    forall d | 0 <= d < b.n ::
      && m.threads[d].s == Decayed(b.state, TokenOf(b, true))[d]
      && m.threads[d].delta == Delta(b.state, TokenOf(b, true))
  }

  lemma UpdateHalfResult(b: Block, m: Machine, r: Machine)
    requires Valid(b) && Sized(b, m) && PowerOfTwo(b.n) && InRange(UpdateHalf(b.n), b.n)
    requires r == Lockstep(b, UpdateHalf(b.n), m)
    ensures Primed(b, r) && SameStores(b, m, r)
  {
    hide Decayed, Delta, Tree, Together, InRange, RaceFree, PowerOfTwo;
    var n := b.n;
    UpdateHalfParts(n);
    var m1 := Lockstep(b, [LoadState, PutKey, Barrier], m);
    var m2 := Lockstep(b, Tree(n / 2), m1);
    UpdateHalfSplits(b, m);
    LoadLockstep(b, m, m1);
    TreeValue(b, m1, m2);
    DeltaLockstep(b, m2, r);
    UpdateHalfValues(b, m, m1, m2, r);
  }

  lemma UpdateHalfParts(n: nat)
    ensures InRange([LoadState, PutKey, Barrier], n) && InRange(Tree(n / 2), n) && InRange([GetDelta, Barrier], n)
  {
    ShortSafe(n);
    TreeSafe(n / 2, n);
  }

  lemma UpdateHalfSplits(b: Block, m: Machine)
    requires Valid(b) && Sized(b, m) && InRange(UpdateHalf(b.n), b.n)
    requires InRange([LoadState, PutKey, Barrier], b.n) && InRange(Tree(b.n / 2), b.n) && InRange([GetDelta, Barrier], b.n)
    ensures Lockstep(b, UpdateHalf(b.n), m)
            == Lockstep(b, [GetDelta, Barrier], Lockstep(b, Tree(b.n / 2), Lockstep(b, [LoadState, PutKey, Barrier], m)))
  {
    hide Together, Tree, InRange;
    var load, delta := [LoadState, PutKey, Barrier], [GetDelta, Barrier];
    InRangeAppend(load, Tree(b.n / 2), b.n);
    LockstepAppend(b, load + Tree(b.n / 2), delta, m);
    LockstepAppend(b, load, Tree(b.n / 2), m);
  }

  /** Loading, reducing and taking the residual, one after the other. */
  lemma UpdateHalfValues(b: Block, m: Machine, m1: Machine, m2: Machine, r: Machine)
    requires Valid(b) && Sized(b, m) && Sized(b, m1) && Sized(b, m2) && Sized(b, r)
    requires SameStores(b, m, m1) && forall d | 0 <= d < b.n :: Keeps(m1.threads[d], m2.threads[d])
    requires forall d | 0 <= d < b.n :: m1.threads[d].s == Decayed(b.state, TokenOf(b, true))[d]
    requires m2.tmp[0] == Total(Times(Decayed(b.state, TokenOf(b, true)), b.k))
    requires SameStores(b, m2, r)
    requires forall d | 0 <= d < b.n ::
        r.threads[d].s == m2.threads[d].s && r.threads[d].delta == (b.v - m2.tmp[0]) * b.beta
    ensures Primed(b, r) && SameStores(b, m, r)
  {
    hide Decayed, Delta, Total;
    DeltaFromTotal(b, m2.tmp[0]);
  }

  /** After the tree, cell 0 holds the total and every thread keeps its registers. */
  lemma TreeValue(b: Block, m: Machine, r: Machine)
    requires Valid(b) && Sized(b, m) && Sized(b, r) && PowerOfTwo(b.n) && InRange(Tree(b.n / 2), b.n)
    requires r == Lockstep(b, Tree(b.n / 2), m)
    ensures r.tmp[0] == Total(m.tmp) && forall d | 0 <= d < b.n :: Keeps(m.threads[d], r.threads[d])
  {
    hide Together, Tree, InRange, PowerOfTwo;
    TreeLockstep(b, b.n / 2, m);
    TreeSum(b.n, m.tmp);
  }

  lemma DeltaFromTotal(b: Block, total: real)
    requires Valid(b) && total == Total(Times(Decayed(b.state, TokenOf(b, true)), b.k))
    ensures (b.v - total) * b.beta == Delta(b.state, TokenOf(b, true))
  {
    hide Total, Decayed;
    DeltaCommutes(b.beta, Residual(b.state, TokenOf(b, true)), Delta(b.state, TokenOf(b, true)));
  }

  lemma DeltaCommutes(beta: real, residual: real, delta: real)
    requires delta == beta * residual
    ensures residual * beta == delta
  {
  }

  lemma ReadoutHalfResult(b: Block, m: Machine, r: Machine)
    requires Valid(b) && Sized(b, m) && PowerOfTwo(b.n) && InRange(ReadoutHalf(b.n), b.n)
    requires Primed(b, m)
    requires r == Lockstep(b, ReadoutHalf(b.n), m)
    ensures var x := TokenOf(b, true);
            forall d | 0 <= d < b.n ::
              && r.threads[d].outWrites == m.threads[d].outWrites + [Updated(b.state, x)[d]]
              && r.threads[d].yWrites == m.threads[d].yWrites + (if d == 0 then [Dot(Updated(b.state, x), b.q)] else [])
  {
    hide Tree, Updated, NewEntry, Together, InRange, PowerOfTwo, Dot, Primed;
    ReadoutHalfParts(b.n);
    var m1 := Lockstep(b, [Update, PutOut, PutQuery, Barrier], m);
    var m2 := Lockstep(b, Tree(b.n / 2), m1);
    ReadoutHalfSplits(b, m);
    UpdateLockstep(b, m, m1);
    TreeValue(b, m1, m2);
    PutYLockstep(b, m2, r);
    ReadoutHalfValues(b, m, m1, m2, r);
  }

  /** Updating, reducing and storing the output, one after the other. */
  lemma ReadoutHalfValues(b: Block, m: Machine, m1: Machine, m2: Machine, r: Machine)
    requires Valid(b) && Sized(b, m) && Sized(b, m1) && Sized(b, m2) && Sized(b, r) && Primed(b, m)
    requires forall d | 0 <= d < b.n ::
        && m1.tmp[d] == NewEntry(b, m, d) * b.q[d]
        && m1.threads[d].outWrites == m.threads[d].outWrites + [NewEntry(b, m, d)]
        && m1.threads[d].yWrites == m.threads[d].yWrites
    requires m2.tmp[0] == Total(m1.tmp) && forall d | 0 <= d < b.n :: Keeps(m1.threads[d], m2.threads[d])
    requires forall d | 0 <= d < b.n ::
        && r.threads[d].outWrites == m2.threads[d].outWrites
        && r.threads[d].yWrites == m2.threads[d].yWrites + (if d == 0 then [m2.tmp[0]] else [])
    ensures var x := TokenOf(b, true);
            forall d | 0 <= d < b.n ::
              && r.threads[d].outWrites == m.threads[d].outWrites + [Updated(b.state, x)[d]]
              && r.threads[d].yWrites == m.threads[d].yWrites + (if d == 0 then [Dot(Updated(b.state, x), b.q)] else [])
  {
    hide Updated, NewEntry, Primed, Dot;
    UpdatedEntries(b, m, m1.tmp);
    DotIsTotal(Updated(b.state, TokenOf(b, true)), b.q);
  }

  lemma DotIsTotal(u: Vec, w: Vec)
    requires |u| == |w|
    ensures Dot(u, w) == Total(Times(u, w))
  {
  }

  lemma ReadoutHalfParts(n: nat)
    ensures InRange([Update, PutOut, PutQuery, Barrier], n) && InRange(Tree(n / 2), n) && InRange([PutY], n)
  {
    ShortSafe(n);
    TreeSafe(n / 2, n);
  }

  lemma ReadoutHalfSplits(b: Block, m: Machine)
    requires Valid(b) && Sized(b, m) && InRange(ReadoutHalf(b.n), b.n)
    requires InRange([Update, PutOut, PutQuery, Barrier], b.n) && InRange(Tree(b.n / 2), b.n) && InRange([PutY], b.n)
    ensures Lockstep(b, ReadoutHalf(b.n), m)
            == Lockstep(b, [PutY], Lockstep(b, Tree(b.n / 2), Lockstep(b, [Update, PutOut, PutQuery, Barrier], m)))
  {
    hide Together, Tree, InRange;
    var update := [Update, PutOut, PutQuery, Barrier];
    InRangeAppend(update, Tree(b.n / 2), b.n);
    LockstepAppend(b, update + Tree(b.n / 2), [PutY], m);
    LockstepAppend(b, update, Tree(b.n / 2), m);
  }

  lemma UpdatedEntries(b: Block, m: Machine, tmp: Vec)
    requires Valid(b) && Sized(b, m) && |tmp| == b.n
    requires Primed(b, m)
    requires forall d | 0 <= d < b.n :: tmp[d] == NewEntry(b, m, d) * b.q[d]
    ensures var u := Updated(b.state, TokenOf(b, true));
            tmp == Times(u, b.q) && forall d | 0 <= d < b.n :: NewEntry(b, m, d) == u[d]
  {
    hide Decayed, Delta;
    var x := TokenOf(b, true);
    var u := Updated(b.state, x);
    forall d | 0 <= d < b.n
      ensures NewEntry(b, m, d) == u[d] && tmp[d] == Times(u, b.q)[d]
    {
      ReadoutEntry(m.threads[d].s, m.threads[d].delta, b.k[d], b.q[d], NewEntry(b, m, d), tmp[d],
                   Decayed(b.state, x)[d], Delta(b.state, x), u[d], Times(u, b.q)[d], Scale(Delta(b.state, x), b.k)[d]);
    }
  }

  lemma ReadoutEntry(s: real, delta: real, k: real, q: real, entry: real, cell: real,
                     dec: real, delta': real, u: real, product: real, scaled: real)
    requires s == dec && delta == delta'
    requires entry == s + delta * k && cell == entry * q
    requires scaled == delta' * k && u == dec + scaled && product == u * q
    ensures entry == u && cell == product
  {
    MulEqual(k, delta, delta');
    MulEqual(q, entry, u);
  }

  lemma PutYLockstep(b: Block, m: Machine, r: Machine)
    requires Valid(b) && Sized(b, m) && InRange([PutY], b.n)
    requires r == Lockstep(b, [PutY], m)
    ensures forall d | 0 <= d < b.n ::
        && r.threads[d].outWrites == m.threads[d].outWrites
        && r.threads[d].yWrites == m.threads[d].yWrites + (if d == 0 then [m.tmp[0]] else [])
  {
    hide Together;
    LockstepFirst(b, PutY, [], m);
    assert [PutY] + [] == [PutY];
    PutYValues(b, m);
  }

  lemma PutYValues(b: Block, m: Machine)
    requires Valid(b) && Sized(b, m) && InRange([PutY], b.n)
    ensures var r := Together(b, PutY, m);
            forall d | 0 <= d < b.n ::
              && r.threads[d].outWrites == m.threads[d].outWrites
              && r.threads[d].yWrites == m.threads[d].yWrites + (if d == 0 then [m.tmp[0]] else [])
  {
  }

  /** A block about to start: no instruction executed, nothing stored, shared memory arbitrary. */
  ghost predicate Launched(b: Block, m: Machine) {
    Fresh(b, m) && forall d | 0 <= d < b.n :: m.threads[d].outWrites == [] && m.threads[d].yWrites == []
  }

  /** Exactly one store to each cell of the state row and one to the output, with the row-step values. */
  ghost predicate StoresRowStep(b: Block, mask: bool, m: Machine)
    requires Valid(b) && Sized(b, m)
  {
    && (forall d | 0 <= d < b.n :: m.threads[d].outWrites == [Next(b.state, TokenOf(b, mask))[d]])
    && m.threads[0].yWrites == [Out(b.state, TokenOf(b, mask))]
    && (forall d | 0 < d < b.n :: m.threads[d].yWrites == [])
  }

  lemma LockstepResult(b: Block, mask: bool, m: Machine)
    requires Valid(b) && PowerOfTwo(b.n) && Launched(b, m) && InRange(Program(b.n, mask), b.n)
    ensures StoresRowStep(b, mask, Lockstep(b, Program(b.n, mask), m))
  {
    if mask {
      ActiveResult(b, m);
    } else {
      MaskedResult(b, m);
    }
  }

  lemma ActiveResult(b: Block, m: Machine)
    requires Valid(b) && PowerOfTwo(b.n) && Launched(b, m) && InRange(Active(b.n), b.n)
    ensures StoresRowStep(b, true, Lockstep(b, Active(b.n), m))
  {
    hide UpdateHalf, ReadoutHalf, Active, Decayed, Delta, Dot, Updated, Together;
    ProgramSafe(b.n, true);
    ActiveHalves(b.n);
    LockstepAppend(b, UpdateHalf(b.n), ReadoutHalf(b.n), m);
    var half := Lockstep(b, UpdateHalf(b.n), m);
    var r := Lockstep(b, ReadoutHalf(b.n), half);
    UpdateHalfResult(b, m, half);
    ReadoutHalfResult(b, half, r);
  }

  lemma MaskedResult(b: Block, m: Machine)
    requires Valid(b) && Launched(b, m) && InRange(Masked, b.n)
    ensures StoresRowStep(b, false, Lockstep(b, Masked, m))
  {
    LockstepFirst(b, ZeroY, [], Together(b, CopyOut, m));
    LockstepFirst(b, CopyOut, [ZeroY], m);
    assert [ZeroY] + [] == [ZeroY] && [CopyOut] + [ZeroY] == Masked;
  }

  /** Main result for one block: from any content of shared memory and registers, every maximal
      interleaving of the threads stores each cell once, and stores exactly the next state and the
      output of one row step of the oracle. */
  lemma BlockComputesRowStep(b: Block, mask: bool, m: Machine, cs: seq<Choice>)
    requires Valid(b) && PowerOfTwo(b.n) && Launched(b, m)
    requires InRange(Program(b.n, mask), b.n) && Feasible(b, Program(b.n, mask), m, cs)
    requires Stuck(b, Program(b.n, mask), Execute(b, Program(b.n, mask), m, cs))
    ensures StoresRowStep(b, mask, Execute(b, Program(b.n, mask), m, cs))
  {
    hide Execute, Feasible, Stuck, Program, Lockstep, StoresRowStep;
    ProgramSafe(b.n, mask);
    EverySchedule(b, Program(b.n, mask), m, cs);
    LockstepResult(b, mask, m);
  }
}
