/** The kernel body as a program over shared and global arrays, under an arbitrary scheduler. */
module DecodeBlock {
  import opened Vectors
  import opened GdnRow
  import opened BlockMachine
  import opened DecodeKernel

  predicate Unfinished(ts: seq<Thread>, len: nat) {
    exists d | 0 <= d < |ts| :: ts[d].pc < len
  }

  predicate CanGo(ts: seq<Thread>, p: seq<Instr>, d: int) {
    0 <= d < |ts| && ts[d].pc < |p| && p[ts[d].pc] != Barrier
  }

  /** What a thread has stored to a global cell, if anything. */
  ghost function Stored(writes: seq<real>, before: real): real {
    if writes == [] then before else writes[|writes| - 1]
  }

  /** Global memory reflects the stores of the threads so far and nothing else. */
  ghost predicate Global(b: Block, ts: seq<Thread>, row: nat, out0: Vec, y0: Vec, out: Vec, y: Vec) {
    && |ts| == b.n > 0 && |out| == |out0| && |y| == |y0| && row * b.n + b.n <= |out| && row < |y|
    && (forall d | 0 <= d < b.n :: out[row * b.n + d] == Stored(ts[d].outWrites, out0[row * b.n + d]))
    && y[row] == Stored(ts[0].yWrites, y0[row])
    && (forall i | 0 <= i < |out| && !(row * b.n <= i < row * b.n + b.n) :: out[i] == out0[i])
    && (forall i | 0 <= i < |y| && i != row :: y[i] == y0[i])
  }

  /** The stores of one instruction of thread `d` to global memory. */
  method StoreGlobal(b: Block, i: Instr, d: nat, th: Thread, cell0: real, out: array<real>, y: array<real>, row: nat)
    requires Valid(b) && d < b.n && row * b.n + b.n <= out.Length && row < y.Length && out != y
    modifies out, y
    ensures out[..] == old(out[..])[row * b.n + d :=
      if i.PutOut? then th.s else if i.CopyOut? then b.state[d] else old(out[..])[row * b.n + d]]
    ensures y[..] == old(y[..])[row :=
      if d == 0 && i.PutY? then cell0 else if d == 0 && i.ZeroY? then 0.0 else old(y[..])[row]]
  {
    match i {
      case PutOut => out[row * b.n + d] := th.s;
      case CopyOut => out[row * b.n + d] := b.state[d];
      case PutY => if d == 0 { y[row] := cell0; }
      case ZeroY => if d == 0 { y[row] := 0.0; }
      case _ =>
    }
  }

  lemma StoredStep(b: Block, i: Instr, d: nat, th: Thread, tmp: Vec, outBefore: real, yBefore: real)
    requires Valid(b) && InRange([i], b.n) && d < b.n && |tmp| == b.n
    ensures var th' := ExecThread(b, i, d, th, tmp);
            && Stored(th'.outWrites, outBefore)
               == (if i.PutOut? then th.s else if i.CopyOut? then b.state[d] else Stored(th.outWrites, outBefore))
            && Stored(th'.yWrites, yBefore)
               == (if d == 0 && i.PutY? then tmp[0] else if d == 0 && i.ZeroY? then 0.0 else Stored(th.yWrites, yBefore))
  {
  }

  lemma GlobalStep(b: Block, i: Instr, d: nat, ts: seq<Thread>, tmp: Vec, row: nat,
                   out0: Vec, y0: Vec, out: Vec, y: Vec, out': Vec, y': Vec)
    requires Valid(b) && InRange([i], b.n) && d < b.n && |tmp| == b.n && Global(b, ts, row, out0, y0, out, y)
    requires |out'| == |out| && |y'| == |y|
    requires out' == out[row * b.n + d := if i.PutOut? then ts[d].s else if i.CopyOut? then b.state[d] else out[row * b.n + d]]
    requires y' == y[row := if d == 0 && i.PutY? then tmp[0] else if d == 0 && i.ZeroY? then 0.0 else y[row]]
    ensures Global(b, ts[d := ExecThread(b, i, d, ts[d], tmp)], row, out0, y0, out', y')
  {
    hide Stored, ExecThread, InRange;
    StoredStep(b, i, d, ts[d], tmp, out0[row * b.n + d], y0[row]);
  }

  lemma GlobalBounds(b: Block, ts: seq<Thread>, row: nat, out0: Vec, y0: Vec, out: Vec, y: Vec)
    requires Global(b, ts, row, out0, y0, out, y)
    ensures row * b.n + b.n <= |out| && row < |y|
  {
  }

  /** The shared half of a step: registers and the thread's own cell of `tmp`. */
  method AdvanceThread(b: Block, p: seq<Instr>, threads: array<Thread>, tmp: array<real>, d: nat)
    requires Valid(b) && InRange(p, b.n) && threads.Length == tmp.Length == b.n && CanGo(threads[..], p, d)
    requires InRange([p[threads[d].pc]], b.n)
    modifies threads, tmp
    ensures threads[..] == old(threads[..])[d := ExecThread(b, p[old(threads[d]).pc], d, old(threads[d]), old(tmp[..]))]
    ensures Machine(threads[..], tmp[..]) == Apply(b, p, Machine(old(threads[..]), old(tmp[..])), Go(d))
  {
    hide ExecThread, ExecCell, InRange;
    var th, shared := threads[d], tmp[..];
    var i := p[th.pc];
    tmp[d] := ExecCell(b, i, d, th, tmp[d]);
    threads[d] := ExecThread(b, i, d, th, shared);
    assert tmp[..] == shared[d := ExecCell(b, i, d, th, shared[d])];
  }

  /** Thread `d` executes its next instruction. */
  method Step(b: Block, p: seq<Instr>, threads: array<Thread>, tmp: array<real>, out: array<real>, y: array<real>,
              row: nat, d: nat, ghost m0: Machine, ghost out0: Vec, ghost y0: Vec)
    requires Valid(b) && InRange(p, b.n) && RaceFree(p, b.n) && Sized(b, m0)
    requires threads.Length == tmp.Length == b.n && CanGo(threads[..], p, d) && tmp != out && tmp != y && out != y
    requires Agrees(b, p, m0, Machine(threads[..], tmp[..])) && Global(b, threads[..], row, out0, y0, out[..], y[..])
    modifies threads, tmp, out, y
    ensures Agrees(b, p, m0, Machine(threads[..], tmp[..])) && Global(b, threads[..], row, out0, y0, out[..], y[..])
    ensures Executed(threads[..]) == Executed(old(threads[..])) + 1
  {
    hide Agrees, RaceFree, Global, ExecThread, ExecCell, InRange, Executed, Apply;
    ghost var (m, before, yBefore) := (Machine(threads[..], tmp[..]), out[..], y[..]);
    GlobalBounds(b, threads[..], row, out0, y0, out[..], y[..]);
    var th := threads[d];
    var i := p[th.pc];
    InRangeAt(p, b.n, th.pc);
    GoAgrees(b, p, m0, m, d);
    StoreGlobal(b, i, d, th, tmp[0], out, y, row);
    GlobalStep(b, i, d, m.threads, m.tmp, row, out0, y0, before, yBefore, out[..], y[..]);
    AdvanceThread(b, p, threads, tmp, d);
    ExecutedGo(m.threads, d, threads[d]);
  }

  /** Nobody can go on alone: every thread waits at the same barrier, which opens. */
  method OpenBarrier(b: Block, p: seq<Instr>, threads: array<Thread>, tmp: array<real>, ghost m0: Machine)
    requires Valid(b) && InRange(p, b.n) && Sized(b, m0) && threads.Length == tmp.Length == b.n
    requires Agrees(b, p, m0, Machine(threads[..], tmp[..]))
    requires Unfinished(threads[..], |p|) && forall d: nat | d < b.n :: !CanGo(threads[..], p, d)
    modifies threads
    ensures Agrees(b, p, m0, Machine(threads[..], tmp[..]))
    ensures Executed(threads[..]) == Executed(old(threads[..])) + b.n
    ensures forall d | 0 <= d < b.n :: threads[d] == old(threads[d]).(pc := old(threads[d]).pc + 1)
  {
    hide Agrees, InRange, Executed, Enabled;
    ghost var m := Machine(threads[..], tmp[..]);
    AllWait(b, p, m0, m);
    OpenAgrees(b, p, m0, m);
    forall d | 0 <= d < b.n {
      threads[d] := threads[d].(pc := threads[d].pc + 1);
    }
    assert threads[..] == OpenAll(m).threads;
    assert Machine(threads[..], tmp[..]) == Apply(b, p, m, Open);
    ExecutedOpen(m.threads, threads[..]);
  }

  /** When no thread can go and one is unfinished, all are at a barrier. */
  lemma AllWait(b: Block, p: seq<Instr>, m0: Machine, m: Machine)
    requires Valid(b) && InRange(p, b.n) && Sized(b, m0) && Agrees(b, p, m0, m)
    requires Unfinished(m.threads, |p|) && forall d: nat | d < b.n :: !CanGo(m.threads, p, d)
    ensures Enabled(b, p, m, Open)
  {
    forall d: nat | d < b.n
      ensures m.threads[d].pc == |p| || p[m.threads[d].pc] == Barrier
    {
      assert !CanGo(m.threads, p, d);
    }
    if !Enabled(b, p, m, Open) {
      forall c
        ensures !Enabled(b, p, m, c)
      {
        if c.Go? && c.thread < b.n {
          assert !CanGo(m.threads, p, c.thread);
        }
      }
      StuckIsDone(b, p, m0, m);
    }
  }

  lemma Finished(b: Block, mask: bool, p: seq<Instr>, m0: Machine, m: Machine)
    requires Valid(b) && PowerOfTwo(b.n) && p == Program(b.n, mask) && InRange(p, b.n) && Launched(b, m0)
    requires Agrees(b, p, m0, m) && !Unfinished(m.threads, |p|)
    ensures StoresRowStep(b, mask, m)
  {
    hide Program, StoresRowStep, Lockstep;
    LockstepResult(b, mask, m0);
    assert p[..|p|] == p;
    assert m.threads == Lockstep(b, p, m0).threads;
    assert m.tmp == Lockstep(b, p, m0).tmp;
  }

  /** Run one block to the end. Whichever thread the scheduler picks whenever it has a choice, the
      block leaves the next state in its slice of `out` and the output in `y[row]`. */
  method RunBlock(b: Block, mask: bool, tmp: array<real>, out: array<real>, y: array<real>, row: nat)
    requires Valid(b) && PowerOfTwo(b.n) && tmp.Length == b.n
    requires row * b.n + b.n <= out.Length && row < y.Length && tmp != out && tmp != y && out != y
    modifies tmp, out, y
    ensures forall d | 0 <= d < b.n :: out[row * b.n + d] == Next(b.state, TokenOf(b, mask))[d]
    ensures y[row] == Out(b.state, TokenOf(b, mask))
    ensures forall i | 0 <= i < out.Length && !(row * b.n <= i < row * b.n + b.n) :: out[i] == old(out[i])
    ensures forall i | 0 <= i < y.Length && i != row :: y[i] == old(y[i])
  {
    hide RaceFree, Program, Next, Out, Global, LockAt, Phase, StoresRowStep, Agrees, InRange, Executed;
    var n := b.n;
    var p := Program(n, mask);
    ProgramSafe(n, mask);
    var threads := new Thread[n](d => Thread(0, 0.0, 0.0, 0.0, [], []));
    ghost var (m0, out0, y0) := (Machine(threads[..], tmp[..]), out[..], y[..]);
    FreshAgrees(b, p, m0);
    GlobalStart(b, threads[..], row, out0, y0);
    while Unfinished(threads[..], |p|)
      invariant Agrees(b, p, m0, Machine(threads[..], tmp[..]))
      invariant Global(b, threads[..], row, out0, y0, out[..], y[..])
      decreases n * |p| - Executed(threads[..])
    {
      PcBound(b, p, m0, Machine(threads[..], tmp[..]));
      if exists d: nat :: d < n && CanGo(threads[..], p, d) {
        var d: nat :| d < n && CanGo(threads[..], p, d);
        Step(b, p, threads, tmp, out, y, row, d, m0, out0, y0);
      } else {
        ghost var before := threads[..];
        OpenBarrier(b, p, threads, tmp, m0);
        GlobalWaits(b, before, threads[..], row, out0, y0, out[..], y[..]);
      }
      PcBound(b, p, m0, Machine(threads[..], tmp[..]));
    }
    ghost var m := Machine(threads[..], tmp[..]);
    Finished(b, mask, p, m0, m);
    GlobalResult(b, mask, m, row, out0, y0, out[..], y[..]);
  }

  /** What the recorded stores of a finished block mean for global memory. */
  lemma GlobalResult(b: Block, mask: bool, m: Machine, row: nat, out0: Vec, y0: Vec, out: Vec, y: Vec)
    requires Valid(b) && Sized(b, m) && Global(b, m.threads, row, out0, y0, out, y) && StoresRowStep(b, mask, m)
    ensures forall d | 0 <= d < b.n :: out[row * b.n + d] == Next(b.state, TokenOf(b, mask))[d]
    ensures y[row] == Out(b.state, TokenOf(b, mask))
    ensures forall i | 0 <= i < |out| && !(row * b.n <= i < row * b.n + b.n) :: out[i] == out0[i]
    ensures forall i | 0 <= i < |y| && i != row :: y[i] == y0[i]
  {
    hide Next, Out;
    assert m.threads[0].yWrites == [Out(b.state, TokenOf(b, mask))];
  }

  /** Passing a barrier stores nothing. */
  lemma GlobalWaits(b: Block, ts: seq<Thread>, ts': seq<Thread>, row: nat, out0: Vec, y0: Vec, out: Vec, y: Vec)
    requires Global(b, ts, row, out0, y0, out, y) && |ts'| == |ts|
    requires forall d | 0 <= d < |ts| :: ts'[d].outWrites == ts[d].outWrites && ts'[d].yWrites == ts[d].yWrites
    ensures Global(b, ts', row, out0, y0, out, y)
  {
  }

  lemma GlobalStart(b: Block, ts: seq<Thread>, row: nat, out: Vec, y: Vec)
    requires |ts| == b.n > 0 && row * b.n + b.n <= |out| && row < |y|
    requires forall d | 0 <= d < b.n :: ts[d].outWrites == [] && ts[d].yWrites == []
    ensures Global(b, ts, row, out, y, out, y)
  {
  }

  lemma PcBound(b: Block, p: seq<Instr>, m0: Machine, m: Machine)
    requires Valid(b) && InRange(p, b.n) && Sized(b, m0) && Agrees(b, p, m0, m)
    ensures Executed(m.threads) <= b.n * |p|
  {
    ExecutedBound(m.threads, |p|);
  }
}
