/** The gated delta recurrence on one (batch, value head, value row) slice.

    The forward recurrence of the source never mixes two value rows, so a row is the unit of every
    proof; the tensor module sums over rows. Time is a sequence of tokens, so cutting a sequence
    into chunks is cutting a `seq`. */
module GdnRow {
  import opened Vectors

  /** Everything one row reads at one time step. */
  datatype Token = Token(q: Vec, k: Vec, v: real, g: real, beta: real, mask: bool)

  /** A tangent of, or a cotangent on, the differentiable part of a token. */
  datatype Direction = Direction(q: Vec, k: Vec, v: real, g: real, beta: real)

  ghost predicate Fits(n: nat, xs: seq<Token>) {
    forall t | 0 <= t < |xs| :: |xs[t].q| == n && |xs[t].k| == n
  }

  ghost predicate FitsDirections(n: nat, ds: seq<Direction>) {
    forall t | 0 <= t < |ds| :: |ds[t].q| == n && |ds[t].k| == n
  }

  // ---------------------------------------------------------------- forward

  function Decayed(s: Vec, x: Token): (r: Vec)
    ensures |r| == |s|
  {
    Scale(x.g, s)
  }

  function Residual(s: Vec, x: Token): real
    requires |x.k| == |s|
  {
    x.v - Dot(Decayed(s, x), x.k)
  }

  function Delta(s: Vec, x: Token): real
    requires |x.k| == |s|
  {
    x.beta * Residual(s, x)
  }

  function Updated(s: Vec, x: Token): (r: Vec)
    requires |x.k| == |s|
    ensures |r| == |s|
  {
    Plus(Decayed(s, x), Scale(Delta(s, x), x.k))
  }

  function Next(s: Vec, x: Token): (r: Vec)
    requires |x.k| == |s|
    ensures |r| == |s|
  {
    if x.mask then Updated(s, x) else s
  }

  function Out(s: Vec, x: Token): real
    requires |x.k| == |x.q| == |s|
  {
    if x.mask then Dot(Updated(s, x), x.q) else 0.0
  }

  function Run(s: Vec, xs: seq<Token>): (r: Vec)
    requires Fits(|s|, xs)
    ensures |r| == |s|
    decreases |xs|
  {
    if xs == [] then s else Run(Next(s, xs[0]), xs[1..])
  }

  function Outs(s: Vec, xs: seq<Token>): (r: seq<real>)
    requires Fits(|s|, xs)
    ensures |r| == |xs|
    decreases |xs|
  {
    if xs == [] then [] else [Out(s, xs[0])] + Outs(Next(s, xs[0]), xs[1..])
  }

  // ---------------------------------------------------------------- reverse pass

  datatype Back = Back(grads: seq<Direction>, carry: Vec)

  /** Cotangent of the updated state, given the cotangent `c` of the state after the step. */
  function DuOf(x: Token, dy: real, c: Vec): (r: Vec)
    requires |x.q| == |c|
    ensures |r| == |c|
  {
    Plus(if x.mask then c else Zeros(|c|), Scale(if x.mask then dy else 0.0, x.q))
  }

  function DdOf(x: Token, dy: real, c: Vec): real
    requires |x.q| == |x.k| == |c|
  {
    Dot(DuOf(x, dy, c), x.k)
  }

  function DvOf(x: Token, dy: real, c: Vec): real
    requires |x.q| == |x.k| == |c|
  {
    DdOf(x, dy, c) * x.beta
  }

  function DrOf(x: Token, dy: real, c: Vec): real
    requires |x.q| == |x.k| == |c|
  {
    -DvOf(x, dy, c)
  }

  function DpOf(x: Token, dy: real, c: Vec): (r: Vec)
    requires |x.q| == |x.k| == |c|
    ensures |r| == |c|
  {
    Plus(DuOf(x, dy, c), Scale(DrOf(x, dy, c), x.k))
  }

  function DbOf(s: Vec, x: Token, dy: real, c: Vec): real
    requires |x.q| == |x.k| == |s| == |c|
  {
    DdOf(x, dy, c) * Residual(s, x)
  }

  /** The reverse step of the source: what this row adds to the cotangents of one token. */
  function StepGrad(s: Vec, x: Token, dy: real, c: Vec): (r: Direction)
    requires |x.q| == |x.k| == |s| == |c|
    ensures |r.q| == |r.k| == |s|
  {
    Direction(
      Scale(if x.mask then dy else 0.0, Updated(s, x)),
      Plus(Scale(Delta(s, x), DuOf(x, dy, c)), Scale(DrOf(x, dy, c), Decayed(s, x))),
      DvOf(x, dy, c),
      Dot(DpOf(x, dy, c), s),
      DbOf(s, x, dy, c))
  }

  function StepCarry(x: Token, dy: real, c: Vec): (r: Vec)
    requires |x.q| == |x.k| == |c|
    ensures |r| == |c|
  {
    if x.mask then Scale(x.g, DpOf(x, dy, c)) else c
  }

  /** The whole reverse-time loop for one row. */
  function Reverse(s: Vec, xs: seq<Token>, dys: seq<real>, c: Vec): (r: Back)
    requires Fits(|s|, xs) && |dys| == |xs| && |c| == |s|
    ensures |r.grads| == |xs| && |r.carry| == |s| && FitsDirections(|s|, r.grads)
    decreases |xs|
  {
    if xs == [] then Back([], c)
    else
      var later := Reverse(Next(s, xs[0]), xs[1..], dys[1..], c);
      Back([StepGrad(s, xs[0], dys[0], later.carry)] + later.grads,
           StepCarry(xs[0], dys[0], later.carry))
  }

  // ---------------------------------------------------------------- pairings

  /** Pairing on the four inputs that the state update reads; only the readout sees `q`. */
  function PairUpdate(c: Direction, d: Direction): real
    requires |c.k| == |d.k|
  {
    Dot(c.k, d.k) + c.v * d.v + c.g * d.g + c.beta * d.beta
  }

  function Pair(c: Direction, d: Direction): real
    requires |c.q| == |d.q| && |c.k| == |d.k|
  {
    Dot(c.q, d.q) + PairUpdate(c, d)
  }

  function PairAll(n: nat, cs: seq<Direction>, ds: seq<Direction>): real
    requires |cs| == |ds| && FitsDirections(n, cs) && FitsDirections(n, ds)
    decreases |cs|
  {
    if cs == [] then 0.0 else Pair(cs[0], ds[0]) + PairAll(n, cs[1..], ds[1..])
  }

  // ---------------------------------------------------------------- chunks

  /** Forward on two chunks joined by the carried state is forward on the whole. */
  lemma {:induction false} RunChunks(s: Vec, a: seq<Token>, b: seq<Token>)
    requires Fits(|s|, a) && Fits(|s|, b)
    ensures Fits(|s|, a + b)
    ensures Run(s, a + b) == Run(Run(s, a), b)
    ensures Outs(s, a + b) == Outs(s, a) + Outs(Run(s, a), b)
    decreases |a|
  {
    if a == [] {
      assert a + b == b;
    } else {
      assert (a + b)[1..] == a[1..] + b;
      RunChunks(Next(s, a[0]), a[1..], b);
    }
  }

  /** Backpropagating the second chunk first, and feeding its state cotangent to the first chunk as
      the final-state cotangent, yields exactly the gradients of the whole sequence. */
  lemma {:induction false} ReverseChunks(s: Vec, a: seq<Token>, b: seq<Token>, da: seq<real>, db: seq<real>, c: Vec)
    requires Fits(|s|, a) && Fits(|s|, b) && |da| == |a| && |db| == |b| && |c| == |s|
    ensures Fits(|s|, a + b)
    ensures var second := Reverse(Run(s, a), b, db, c);
            var first := Reverse(s, a, da, second.carry);
            Reverse(s, a + b, da + db, c) == Back(first.grads + second.grads, first.carry)
    decreases |a|
  {
    hide StepGrad, StepCarry, Next;
    if a == [] {
      assert a + b == b && da + db == db;
    } else {
      assert (a + b)[1..] == a[1..] + b && (da + db)[1..] == da[1..] + db;
      ReverseChunks(Next(s, a[0]), a[1..], b, da[1..], db, c);
    }
  }
}
