/** One CUDA thread block as threads that share `tmp` and meet at barriers.

    A thread executes one instruction at a time; any thread that is not waiting may go next, and a
    barrier opens when every thread of the block waits at one. */
module BlockMachine {
  import opened Vectors

  /** What the threads of one block read from global memory; entry d belongs to thread d. */
  datatype Block = Block(n: nat, q: Vec, k: Vec, state: Vec, v: real, g: real, beta: real)

  predicate Valid(b: Block) {
    b.n > 0 && |b.q| == b.n && |b.k| == b.n && |b.state| == b.n
  }

  datatype Instr =
    | LoadState               // s = state[si] * g[gi]
    | PutKey                  // tmp[d] = s * k[qi]
    | Barrier                 // __syncthreads()
    | GetPartner(offset: nat) // if (d < offset) x = tmp[d + offset]
    | AddPartner(offset: nat) // if (d < offset) tmp[d] = tmp[d] + x
    | GetDelta                // delta = (v[row] - tmp[0]) * beta[gi]
    | Update                  // s = s + delta * k[qi]
    | PutOut                  // out[si] = s
    | PutQuery                // tmp[d] = s * q[qi]
    | PutY                    // if (d == 0) y[row] = tmp[0]
    | CopyOut                 // out[si] = state[si]
    | ZeroY                   // if (d == 0) y[row] = 0

  /** Registers of a thread, and the values it has stored to its cell of `out` and to `y[row]`. */
  datatype Thread = Thread(pc: nat, s: real, delta: real, x: real, outWrites: seq<real>, yWrites: seq<real>)

  datatype Machine = Machine(threads: seq<Thread>, tmp: Vec)

  ghost predicate Sized(b: Block, m: Machine) {
    |m.threads| == b.n && |m.tmp| == b.n
  }

  // ---------------------------------------------------------------- shared-memory accesses

  function Reads(i: Instr, d: nat): set<nat> {
    match i
    case GetPartner(o) => if d < o then {d + o} else {}
    case AddPartner(o) => if d < o then {d} else {}
    case GetDelta => {0}
    case PutY => if d == 0 then {0} else {}
    case _ => {}
  }

  function Writes(i: Instr, d: nat): set<nat> {
    match i
    case PutKey => {d}
    case PutQuery => {d}
    case AddPartner(o) => if d < o then {d} else {}
    case _ => {}
  }

  /** No access of any thread leaves the shared array. */
  predicate InRange(p: seq<Instr>, n: nat) {
    forall i | 0 <= i < |p| :: p[i].GetPartner? || p[i].AddPartner? ==> 2 * p[i].offset <= n
  }

  // ---------------------------------------------------------------- one instruction of one thread

  function ExecThread(b: Block, i: Instr, d: nat, th: Thread, tmp: Vec): (r: Thread)
    requires Valid(b) && InRange([i], b.n) && d < b.n && |tmp| == b.n
    ensures r.pc == th.pc + 1
  {
    assert [i][0] == i;
    var t := th.(pc := th.pc + 1);
    match i
    case LoadState => t.(s := b.state[d] * b.g)
    case GetPartner(o) => if d < o then t.(x := tmp[d + o]) else t
    case GetDelta => t.(delta := (b.v - tmp[0]) * b.beta)
    case Update => t.(s := th.s + th.delta * b.k[d])
    case PutOut => t.(outWrites := th.outWrites + [th.s])
    case PutY => if d == 0 then t.(yWrites := th.yWrites + [tmp[0]]) else t
    case CopyOut => t.(outWrites := th.outWrites + [b.state[d]])
    case ZeroY => if d == 0 then t.(yWrites := th.yWrites + [0.0]) else t
    case _ => t
  }

  /** The only cell of `tmp` a thread ever stores to is its own. */
  function ExecCell(b: Block, i: Instr, d: nat, th: Thread, cell: real): real
    requires Valid(b) && d < b.n
  {
    match i
    case PutKey => th.s * b.k[d]
    case PutQuery => th.s * b.q[d]
    case AddPartner(o) => if d < o then cell + th.x else cell
    case _ => cell
  }

  /** The declared access sets are the true ones. */
  lemma AccessSets(b: Block, i: Instr, d: nat, th: Thread, tmp: Vec, tmp': Vec)
    requires Valid(b) && InRange([i], b.n) && d < b.n && |tmp| == |tmp'| == b.n
    requires forall c | c in Reads(i, d) && c < b.n :: tmp[c] == tmp'[c]
    ensures forall c | c in Reads(i, d) :: c < b.n
    ensures ExecThread(b, i, d, th, tmp) == ExecThread(b, i, d, th, tmp')
    ensures d !in Writes(i, d) ==> ExecCell(b, i, d, th, tmp[d]) == tmp[d]
    ensures d in Writes(i, d) && d !in Reads(i, d) ==> ExecCell(b, i, d, th, tmp[d]) == ExecCell(b, i, d, th, tmp'[d])
    ensures Writes(i, d) <= {d}
  {
    assert [i][0] == i;
    assert i.GetPartner? && d < i.offset ==> d + i.offset in Reads(i, d) && d + i.offset < b.n;
    assert i.GetDelta? ==> 0 in Reads(i, d);
    assert i.PutY? && d == 0 ==> 0 in Reads(i, d);
  }

  // ---------------------------------------------------------------- schedules

  datatype Choice = Go(thread: nat) | Open

  ghost predicate Enabled(b: Block, p: seq<Instr>, m: Machine, c: Choice)
    requires Sized(b, m)
  {
    match c
    case Go(d) => d < b.n && m.threads[d].pc < |p| && p[m.threads[d].pc] != Barrier
    case Open => forall d | 0 <= d < b.n :: m.threads[d].pc < |p| && p[m.threads[d].pc] == Barrier
  }

  /** Every thread waits at a barrier; all of them pass it. */
  function OpenAll(m: Machine): Machine {
    m.(threads := seq(|m.threads|, d requires 0 <= d < |m.threads| => m.threads[d].(pc := m.threads[d].pc + 1)))
  }

  function GoOne(b: Block, i: Instr, d: nat, m: Machine): Machine
    requires Valid(b) && InRange([i], b.n) && d < b.n && |m.threads| == |m.tmp| == b.n
  {
    Machine(m.threads[d := ExecThread(b, i, d, m.threads[d], m.tmp)],
            m.tmp[d := ExecCell(b, i, d, m.threads[d], m.tmp[d])])
  }

  lemma InRangeAt(p: seq<Instr>, n: nat, i: nat)
    requires InRange(p, n) && i < |p|
    ensures InRange([p[i]], n)
  {
  }

  ghost function Apply(b: Block, p: seq<Instr>, m: Machine, c: Choice): (r: Machine)
    requires Valid(b) && InRange(p, b.n) && Sized(b, m) && Enabled(b, p, m, c)
    ensures Sized(b, r)
  {
    match c
    case Go(d) =>
      InRangeAt(p, b.n, m.threads[d].pc);
      GoOne(b, p[m.threads[d].pc], d, m)
    case Open => OpenAll(m)
  }

  /** Each choice of the schedule is enabled when it is taken. */
  ghost predicate Feasible(b: Block, p: seq<Instr>, m: Machine, cs: seq<Choice>)
    requires Valid(b) && InRange(p, b.n) && Sized(b, m)
    decreases |cs|
  {
    cs != [] ==> Enabled(b, p, m, cs[0]) && Feasible(b, p, Apply(b, p, m, cs[0]), cs[1..])
  }

  ghost function Execute(b: Block, p: seq<Instr>, m: Machine, cs: seq<Choice>): (r: Machine)
    requires Valid(b) && InRange(p, b.n) && Sized(b, m) && Feasible(b, p, m, cs)
    ensures Sized(b, r)
    decreases |cs|
  {
    if cs == [] then m else Execute(b, p, Apply(b, p, m, cs[0]), cs[1..])
  }

  ghost predicate Stuck(b: Block, p: seq<Instr>, m: Machine)
    requires Sized(b, m)
  {
    forall c :: !Enabled(b, p, m, c)
  }

  // ---------------------------------------------------------------- lockstep: the reference execution

  /** All threads execute instruction `i`, each reading the memory from before it. */
  function Together(b: Block, i: Instr, m: Machine): (r: Machine)
    requires Valid(b) && InRange([i], b.n) && |m.threads| == |m.tmp| == b.n
    ensures |r.threads| == |r.tmp| == b.n
  {
    Machine(seq(b.n, d requires 0 <= d < b.n => ExecThread(b, i, d, m.threads[d], m.tmp)),
            seq(b.n, d requires 0 <= d < b.n => ExecCell(b, i, d, m.threads[d], m.tmp[d])))
  }

  lemma InRangeParts(p: seq<Instr>, n: nat)
    requires InRange(p, n) && p != []
    ensures InRange([p[0]], n) && InRange(p[1..], n)
  {
  }

  function Lockstep(b: Block, p: seq<Instr>, m: Machine): (r: Machine)
    requires Valid(b) && InRange(p, b.n) && |m.threads| == |m.tmp| == b.n
    ensures |r.threads| == |r.tmp| == b.n
    decreases |p|
  {
    if p == [] then m
    else
      InRangeParts(p, b.n);
      Lockstep(b, p[1..], Together(b, p[0], m))
  }

  lemma {:induction false} LockstepAppend(b: Block, p: seq<Instr>, p': seq<Instr>, m: Machine)
    requires Valid(b) && InRange(p, b.n) && InRange(p', b.n) && Sized(b, m)
    ensures InRange(p + p', b.n)
    ensures Lockstep(b, p + p', m) == Lockstep(b, p', Lockstep(b, p, m))
    decreases |p|
  {
    if p == [] {
      assert p + p' == p';
    } else {
      InRangeParts(p, b.n);
      assert (p + p')[1..] == p[1..] + p';
      LockstepAppend(b, p[1..], p', Together(b, p[0], m));
    }
  }

  lemma InRangePrefix(p: seq<Instr>, n: nat, i: nat)
    requires InRange(p, n) && i <= |p|
    ensures InRange(p[..i], n)
  {
  }

  /** The reference memory and threads after `i` instructions. */
  ghost function LockAt(b: Block, p: seq<Instr>, m: Machine, i: nat): (r: Machine)
    requires Valid(b) && InRange(p, b.n) && Sized(b, m) && i <= |p|
    ensures Sized(b, r)
  {
    InRangePrefix(p, b.n, i);
    Lockstep(b, p[..i], m)
  }

  lemma LockAtNext(b: Block, p: seq<Instr>, m: Machine, i: nat)
    requires Valid(b) && InRange(p, b.n) && Sized(b, m) && i < |p|
    ensures InRange([p[i]], b.n)
    ensures LockAt(b, p, m, i + 1) == Together(b, p[i], LockAt(b, p, m, i))
  {
    InRangeAt(p, b.n, i);
    InRangePrefix(p, b.n, i);
    assert p[..i + 1] == p[..i] + [p[i]];
    LockstepAppend(b, p[..i], [p[i]], m);
    assert [p[i]][1..] == [];
  }

  // ---------------------------------------------------------------- barrier intervals

  /** Number of barriers before position `i`: the interval an instruction belongs to. */
  function Phase(p: seq<Instr>, i: nat): nat
    requires i <= |p|
  {
    if i == 0 then 0 else Phase(p, i - 1) + (if p[i - 1] == Barrier then 1 else 0)
  }

  lemma {:induction false} PhaseMonotone(p: seq<Instr>, i: nat, j: nat)
    requires i <= j <= |p|
    ensures Phase(p, i) <= Phase(p, j)
    ensures i < j && p[i] == Barrier ==> Phase(p, i) < Phase(p, j)
    decreases j
  {
    if i < j {
      PhaseMonotone(p, i, j - 1);
    }
  }

  /** Two different threads between the same two barriers never touch a cell that one of them writes. */
  ghost predicate RaceFree(p: seq<Instr>, n: nat) {
    forall i, j, d, e | 0 <= i < |p| && 0 <= j < |p| && Phase(p, i) == Phase(p, j) && 0 <= d < n && 0 <= e < n && d != e ::
      Writes(p[j], e) !! Reads(p[i], d) + Writes(p[i], d)
  }

  // ---------------------------------------------------------------- every schedule computes the reference

  /** All threads are in one barrier interval, and each agrees with the reference at its own position. */
  ghost predicate Agrees(b: Block, p: seq<Instr>, m0: Machine, m: Machine)
    requires Valid(b) && InRange(p, b.n) && Sized(b, m0)
  {
    && Sized(b, m)
    && (forall d | 0 <= d < b.n :: m.threads[d].pc <= |p|)
    && (forall d | 0 <= d < b.n :: Phase(p, m.threads[d].pc) == Phase(p, m.threads[0].pc))
    && (forall d | 0 <= d < b.n :: m.threads[d] == LockAt(b, p, m0, m.threads[d].pc).threads[d])
    && (forall d | 0 <= d < b.n :: m.tmp[d] == LockAt(b, p, m0, m.threads[d].pc).tmp[d])
  }

  /** A cell nobody writes between two positions keeps its reference value. */
  lemma {:induction false} Untouched(b: Block, p: seq<Instr>, m0: Machine, c: nat, i: nat, j: nat)
    requires Valid(b) && InRange(p, b.n) && Sized(b, m0) && c < b.n && i <= j <= |p|
    requires forall x | i <= x < j :: c !in Writes(p[x], c)
    ensures LockAt(b, p, m0, i).tmp[c] == LockAt(b, p, m0, j).tmp[c]
    decreases j - i
  {
    if i < j {
      Untouched(b, p, m0, c, i, j - 1);
      LockAtNext(b, p, m0, j - 1);
    }
  }

  lemma SamePhaseBetween(p: seq<Instr>, i: nat, x: nat, j: nat)
    requires i <= x <= j <= |p| && Phase(p, i) == Phase(p, j)
    ensures Phase(p, x) == Phase(p, i)
  {
    PhaseMonotone(p, i, x);
    PhaseMonotone(p, x, j);
  }

  /** A cell that thread `d` reads at its position holds the reference value for that position. */
  lemma ReadSees(b: Block, p: seq<Instr>, m0: Machine, m: Machine, d: nat, c: nat)
    requires Valid(b) && InRange(p, b.n) && Sized(b, m0) && RaceFree(p, b.n) && Agrees(b, p, m0, m)
    requires d < b.n && c < b.n && m.threads[d].pc < |p| && c in Reads(p[m.threads[d].pc], d)
    ensures m.tmp[c] == LockAt(b, p, m0, m.threads[d].pc).tmp[c]
  {
    if c != d {
      var i, j := m.threads[d].pc, m.threads[c].pc;
      var lo, hi := if i <= j then i else j, if i <= j then j else i;
      forall x | lo <= x < hi
        ensures c !in Writes(p[x], c)
      {
        SamePhaseBetween(p, lo, x, hi);
      }
      Untouched(b, p, m0, c, lo, hi);
    }
  }

  lemma GoAgrees(b: Block, p: seq<Instr>, m0: Machine, m: Machine, d: nat)
    requires Valid(b) && InRange(p, b.n) && Sized(b, m0) && RaceFree(p, b.n) && Agrees(b, p, m0, m)
    requires Enabled(b, p, m, Go(d))
    ensures Agrees(b, p, m0, Apply(b, p, m, Go(d)))
  {
    hide LockAt;
    var i := m.threads[d].pc;
    var ref := LockAt(b, p, m0, i);
    InRangeAt(p, b.n, i);
    forall c | c in Reads(p[i], d) && c < b.n
      ensures m.tmp[c] == ref.tmp[c]
    {
      ReadSees(b, p, m0, m, d, c);
    }
    AccessSets(b, p[i], d, m.threads[d], m.tmp, ref.tmp);
    LockAtNext(b, p, m0, i);
  }

  /** Threads that all wait at barriers wait at the same one. */
  lemma BarriersAlign(b: Block, p: seq<Instr>, m0: Machine, m: Machine, d: nat)
    requires Valid(b) && InRange(p, b.n) && Sized(b, m0) && Agrees(b, p, m0, m)
    requires Enabled(b, p, m, Open) && d < b.n
    ensures m.threads[d].pc == m.threads[0].pc
  {
    var i, j := m.threads[d].pc, m.threads[0].pc;
    if i < j {
      PhaseMonotone(p, i, j);
    } else if j < i {
      PhaseMonotone(p, j, i);
    }
  }

  lemma OpenAgrees(b: Block, p: seq<Instr>, m0: Machine, m: Machine)
    requires Valid(b) && InRange(p, b.n) && Sized(b, m0) && Agrees(b, p, m0, m)
    requires Enabled(b, p, m, Open)
    ensures Agrees(b, p, m0, Apply(b, p, m, Open))
  {
    hide LockAt;
    var i := m.threads[0].pc;
    forall d | 0 <= d < b.n
      ensures m.threads[d].pc == i
    {
      BarriersAlign(b, p, m0, m, d);
    }
    LockAtNext(b, p, m0, i);
  }

  lemma {:induction false} ExecuteAgrees(b: Block, p: seq<Instr>, m0: Machine, m: Machine, cs: seq<Choice>)
    requires Valid(b) && InRange(p, b.n) && Sized(b, m0) && RaceFree(p, b.n) && Agrees(b, p, m0, m)
    requires Feasible(b, p, m, cs)
    ensures Agrees(b, p, m0, Execute(b, p, m, cs))
    decreases |cs|
  {
    hide Enabled, Apply, RaceFree;
    if cs != [] {
      match cs[0] {
        case Go(d) => GoAgrees(b, p, m0, m, d);
        case Open => OpenAgrees(b, p, m0, m);
      }
      ExecuteAgrees(b, p, m0, Apply(b, p, m, cs[0]), cs[1..]);
    }
  }

  /** A machine that cannot move has every thread at the end: no deadlock, no thread left behind. */
  lemma StuckIsDone(b: Block, p: seq<Instr>, m0: Machine, m: Machine)
    requires Valid(b) && InRange(p, b.n) && Sized(b, m0) && Agrees(b, p, m0, m) && Stuck(b, p, m)
    ensures forall d | 0 <= d < b.n :: m.threads[d].pc == |p|
  {
    forall d | 0 <= d < b.n
      ensures m.threads[d].pc == |p| || p[m.threads[d].pc] == Barrier
    {
      assert !Enabled(b, p, m, Go(d));
    }
    assert !Enabled(b, p, m, Open);
    var e :| 0 <= e < b.n && m.threads[e].pc == |p|;
    forall d | 0 <= d < b.n
      ensures m.threads[d].pc == |p|
    {
      PhaseMonotone(p, m.threads[d].pc, |p|);
    }
  }

  ghost predicate Fresh(b: Block, m: Machine) {
    Sized(b, m) && forall d | 0 <= d < b.n :: m.threads[d].pc == 0
  }

  lemma LockAtPc(b: Block, p: seq<Instr>, m0: Machine, i: nat)
    requires Valid(b) && InRange(p, b.n) && Fresh(b, m0) && i <= |p|
    ensures forall d | 0 <= d < b.n :: LockAt(b, p, m0, i).threads[d].pc == i
  {
    if i > 0 {
      LockAtPc(b, p, m0, i - 1);
      LockAtNext(b, p, m0, i - 1);
    }
  }

  lemma FreshAgrees(b: Block, p: seq<Instr>, m0: Machine)
    requires Valid(b) && InRange(p, b.n) && Fresh(b, m0)
    ensures Agrees(b, p, m0, m0)
  {
    assert p[..0] == [];
  }

  /** Schedule independence: however the threads interleave, a run that cannot continue has executed
      the whole program in every thread and ends in the lockstep result. */
  lemma EverySchedule(b: Block, p: seq<Instr>, m0: Machine, cs: seq<Choice>)
    requires Valid(b) && InRange(p, b.n) && RaceFree(p, b.n) && Fresh(b, m0)
    requires Feasible(b, p, m0, cs) && Stuck(b, p, Execute(b, p, m0, cs))
    ensures Execute(b, p, m0, cs) == Lockstep(b, p, m0)
  {
    hide Execute, Feasible;
    var m := Execute(b, p, m0, cs);
    FreshAgrees(b, p, m0);
    ExecuteAgrees(b, p, m0, m0, cs);
    StuckIsDone(b, p, m0, m);
    assert p[..|p|] == p;
    assert m.threads == Lockstep(b, p, m0).threads;
    assert m.tmp == Lockstep(b, p, m0).tmp;
  }

  // ---------------------------------------------------------------- every schedule terminates

  function Executed(ts: seq<Thread>): nat {
    if ts == [] then 0 else ts[0].pc + Executed(ts[1..])
  }

  lemma {:induction false} ExecutedBound(ts: seq<Thread>, len: nat)
    requires forall d | 0 <= d < |ts| :: ts[d].pc <= len
    ensures Executed(ts) <= |ts| * len
  {
    if ts != [] {
      ExecutedBound(ts[1..], len);
      assert |ts| * len == len + (|ts| - 1) * len;
    }
  }

  lemma {:induction false} ExecutedGo(ts: seq<Thread>, d: nat, th: Thread)
    requires d < |ts| && th.pc == ts[d].pc + 1
    ensures Executed(ts[d := th]) == Executed(ts) + 1
  {
    if d == 0 {
      assert ts[d := th][1..] == ts[1..];
    } else {
      assert ts[d := th][1..] == ts[1..][d - 1 := th];
      ExecutedGo(ts[1..], d - 1, th);
    }
  }

  lemma {:induction false} ExecutedOpen(ts: seq<Thread>, ts': seq<Thread>)
    requires |ts| == |ts'| && forall d | 0 <= d < |ts| :: ts'[d].pc == ts[d].pc + 1
    ensures Executed(ts') == Executed(ts) + |ts|
  {
    if ts != [] {
      ExecutedOpen(ts[1..], ts'[1..]);
    }
  }

  /** No schedule is longer than one step per instruction of every thread. */
  lemma {:induction false} SchedulesEnd(b: Block, p: seq<Instr>, m: Machine, cs: seq<Choice>)
    requires Valid(b) && InRange(p, b.n) && Sized(b, m) && Feasible(b, p, m, cs)
    requires forall d | 0 <= d < b.n :: m.threads[d].pc <= |p|
    ensures Executed(m.threads) + |cs| <= b.n * |p|
    decreases |cs|
  {
    if cs == [] {
      ExecutedBound(m.threads, |p|);
    } else {
      var m' := Apply(b, p, m, cs[0]);
      match cs[0] {
        case Go(d) => ExecutedGo(m.threads, d, m'.threads[d]);
        case Open => ExecutedOpen(m.threads, m'.threads);
      }
      SchedulesEnd(b, p, m', cs[1..]);
    }
  }

  /** And from every state some schedule runs to the end, so the results above are not vacuous. */
  lemma {:induction false} SomeScheduleEnds(b: Block, p: seq<Instr>, m: Machine) returns (cs: seq<Choice>)
    requires Valid(b) && InRange(p, b.n) && Sized(b, m)
    requires forall d | 0 <= d < b.n :: m.threads[d].pc <= |p|
    ensures Feasible(b, p, m, cs) && Stuck(b, p, Execute(b, p, m, cs))
    decreases b.n * |p| - Executed(m.threads)
  {
    if c :| Enabled(b, p, m, c) {
      var m' := Apply(b, p, m, c);
      ExecutedBound(m.threads, |p|);
      match c {
        case Go(d) => ExecutedGo(m.threads, d, m'.threads[d]);
        case Open => ExecutedOpen(m.threads, m'.threads);
      }
      ExecutedBound(m'.threads, |p|);
      var rest := SomeScheduleEnds(b, p, m');
      cs := [c] + rest;
      assert cs[1..] == rest;
    } else {
      cs := [];
    }
  }

  // ---------------------------------------------------------------- composing schedules

  lemma {:induction false} ScheduleAppend(b: Block, p: seq<Instr>, m: Machine, cs: seq<Choice>, more: seq<Choice>)
    requires Valid(b) && InRange(p, b.n) && Sized(b, m) && Feasible(b, p, m, cs)
    requires Feasible(b, p, Execute(b, p, m, cs), more)
    ensures Feasible(b, p, m, cs + more)
    ensures Execute(b, p, m, cs + more) == Execute(b, p, Execute(b, p, m, cs), more)
    decreases |cs|
  {
    hide Apply, Enabled;
    if cs == [] {
      assert cs + more == more;
    } else {
      assert (cs + more)[1..] == cs[1..] + more && (cs + more)[0] == cs[0];
      ScheduleAppend(b, p, Apply(b, p, m, cs[0]), cs[1..], more);
    }
  }

  /** A schedule of a program is a schedule of every longer one. */
  lemma {:induction false} LongerProgram(b: Block, p: seq<Instr>, p': seq<Instr>, m: Machine, cs: seq<Choice>)
    requires Valid(b) && InRange(p, b.n) && InRange(p + p', b.n) && Sized(b, m) && Feasible(b, p, m, cs)
    ensures Feasible(b, p + p', m, cs) && Execute(b, p + p', m, cs) == Execute(b, p, m, cs)
    decreases |cs|
  {
    if cs != [] {
      SameChoice(b, p, p', m, cs[0]);
      hide Apply, Enabled;
      LongerProgram(b, p, p', Apply(b, p, m, cs[0]), cs[1..]);
    }
  }

  lemma SameChoice(b: Block, p: seq<Instr>, p': seq<Instr>, m: Machine, c: Choice)
    requires Valid(b) && InRange(p, b.n) && InRange(p + p', b.n) && Sized(b, m) && Enabled(b, p, m, c)
    ensures Enabled(b, p + p', m, c) && Apply(b, p + p', m, c) == Apply(b, p, m, c)
  {
  }

  /** Stores are recorded for good. */
  lemma {:induction false} StoresStay(b: Block, p: seq<Instr>, m: Machine, cs: seq<Choice>, d: nat)
    requires Valid(b) && InRange(p, b.n) && Sized(b, m) && Feasible(b, p, m, cs) && d < b.n
    ensures m.threads[d].outWrites <= Execute(b, p, m, cs).threads[d].outWrites
    decreases |cs|
  {
    if cs != [] {
      StoresStay(b, p, Apply(b, p, m, cs[0]), cs[1..], d);
      assert m.threads[d].outWrites <= Apply(b, p, m, cs[0]).threads[d].outWrites;
    }
  }

  /** Positions never run past the end. */
  lemma {:induction false} PositionsStay(b: Block, p: seq<Instr>, m: Machine, cs: seq<Choice>)
    requires Valid(b) && InRange(p, b.n) && Sized(b, m) && Feasible(b, p, m, cs)
    requires forall d | 0 <= d < b.n :: m.threads[d].pc <= |p|
    ensures forall d | 0 <= d < b.n :: Execute(b, p, m, cs).threads[d].pc <= |p|
    decreases |cs|
  {
    if cs != [] {
      PositionsStay(b, p, Apply(b, p, m, cs[0]), cs[1..]);
    }
  }

  // ---------------------------------------------------------------- composing race-free programs

  predicate EndsAtBarrier(p: seq<Instr>) {
    p == [] || p[|p| - 1] == Barrier
  }

  lemma {:induction false} PhaseAppend(p: seq<Instr>, p': seq<Instr>, i: nat)
    requires i <= |p| + |p'|
    ensures Phase(p + p', i) == if i <= |p| then Phase(p, i) else Phase(p, |p|) + Phase(p', i - |p|)
  {
    if i > 0 {
      PhaseAppend(p, p', i - 1);
    }
  }

  /** Positions of one barrier interval lie in the same one of two programs with a barrier between them. */
  lemma SameHalf(p: seq<Instr>, p': seq<Instr>, i: nat, j: nat)
    requires i < |p| + |p'| && j < |p| + |p'| && Phase(p + p', i) == Phase(p + p', j) && EndsAtBarrier(p)
    ensures i < |p| <==> j < |p|
    ensures if i < |p| && j < |p| then Phase(p, i) == Phase(p, j)
            else i >= |p| && j >= |p| && Phase(p', i - |p|) == Phase(p', j - |p|)
  {
    PhaseAppend(p, p', i);
    PhaseAppend(p, p', j);
    if p != [] {
      PhaseMonotone(p, |p| - 1, |p|);
      if i < |p| { PhaseMonotone(p, i, |p| - 1); }
      if j < |p| { PhaseMonotone(p, j, |p| - 1); }
    }
  }

  /** A barrier between two programs keeps their accesses apart. */
  lemma RaceFreeAppend(p: seq<Instr>, p': seq<Instr>, n: nat)
    requires RaceFree(p, n) && RaceFree(p', n) && EndsAtBarrier(p)
    ensures RaceFree(p + p', n)
  {
    hide Phase, Reads, Writes, EndsAtBarrier;
    var w := p + p';
    forall i, j, d, e | 0 <= i < |w| && 0 <= j < |w| && Phase(w, i) == Phase(w, j) && 0 <= d < n && 0 <= e < n && d != e
      ensures Writes(w[j], e) !! Reads(w[i], d) + Writes(w[i], d)
    {
      SameHalf(p, p', i, j);
    }
  }

  lemma InRangeAppend(p: seq<Instr>, p': seq<Instr>, n: nat)
    requires InRange(p, n) && InRange(p', n)
    ensures InRange(p + p', n)
  {
  }

  lemma LockstepFirst(b: Block, i: Instr, p: seq<Instr>, m: Machine)
    requires Valid(b) && InRange([i], b.n) && InRange(p, b.n) && Sized(b, m)
    ensures InRange([i] + p, b.n)
    ensures Lockstep(b, [i] + p, m) == Lockstep(b, p, Together(b, i, m))
  {
    InRangeAppend([i], p, b.n);
    assert ([i] + p)[1..] == p;
  }
}
