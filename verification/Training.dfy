/** The linear-regression fixture: one analytic gradient step, and resuming from a checkpoint. */
module Training {
  import opened Vectors
  import opened Sums
  import opened Tensors
  import opened Json
  import opened ReferenceDocument

  /** `x` by rows (samples), `w` and `y` by columns (outputs). */
  datatype Problem = Problem(x: seq<Vec>, y: seq<Vec>)

  ghost predicate Shaped(p: Problem, w: seq<Vec>, features: nat) {
    && (forall i | 0 <= i < |p.x| :: |p.x[i]| == features)
    && |w| == |p.y| && (forall j | 0 <= j < |w| :: |w[j]| == features && |p.y[j]| == |p.x|)
  }

  /** `x @ c` for one column. */
  function Apply(x: seq<Vec>, c: Vec): (r: Vec)
    requires forall i | 0 <= i < |x| :: |x[i]| == |c|
    ensures |r| == |x|
    ensures forall i | 0 <= i < |x| :: r[i] == Dot(x[i], c)
  {
    seq(|x|, i requires 0 <= i < |x| => Dot(x[i], c))
  }

  /** `x.T @ e` for one column. */
  function ApplyTransposed(x: seq<Vec>, e: Vec, features: nat): (r: Vec)
    requires |e| == |x| && forall i | 0 <= i < |x| :: |x[i]| == features
    ensures |r| == features
  {
    if x == [] then Zeros(features) else Plus(Scale(e[0], x[0]), ApplyTransposed(x[1..], e[1..], features))
  }

  /** One column of `x @ w - y`. */
  function Error(x: seq<Vec>, c: Vec, y: Vec): (r: Vec)
    requires |y| == |x| && forall i | 0 <= i < |x| :: |x[i]| == |c|
    ensures |r| == |x|
    ensures forall i | 0 <= i < |x| :: r[i] == Dot(x[i], c) - y[i]
  {
    Plus(Apply(x, c), Scale(-1.0, y))
  }

  /** `error.size`. */
  function Size(p: Problem): nat {
    |p.x| * |p.y|
  }

  /** One column of the gradient the code subtracts, `(2 / error.size) * (x.T @ error)`. */
  function Gradient(p: Problem, c: Vec, y: Vec): (r: Vec)
    requires Size(p) > 0 && |y| == |p.x| && forall i | 0 <= i < |p.x| :: |p.x[i]| == |c|
    ensures |r| == |c|
  {
    Scale(2.0 / Size(p) as real, ApplyTransposed(p.x, Error(p.x, c, y), |c|))
  }

  function Gradients(p: Problem, w: seq<Vec>, features: nat): (r: seq<Vec>)
    requires Shaped(p, w, features) && Size(p) > 0
    ensures |r| == |w| && forall j | 0 <= j < |w| :: |r[j]| == features && r[j] == Gradient(p, w[j], p.y[j])
  {
    seq(|w|, j requires 0 <= j < |w| => Gradient(p, w[j], p.y[j]))
  }

  /** `w + t * u`, column by column. */
  function Moved(w: seq<Vec>, t: real, u: seq<Vec>): (r: seq<Vec>)
    requires |u| == |w| && forall j | 0 <= j < |w| :: |u[j]| == |w[j]|
    ensures |r| == |w| && forall j | 0 <= j < |w| :: r[j] == Plus(w[j], Scale(t, u[j]))
  {
    seq(|w|, j requires 0 <= j < |w| => Plus(w[j], Scale(t, u[j])))
  }

  /** `analytic_sgd`; an empty error matrix divides by zero. */
  function AnalyticSgd(p: Problem, w: seq<Vec>, features: nat, lr: real): (r: Option<seq<Vec>>)
    requires Shaped(p, w, features)
    ensures r.None? <==> |p.x| == 0 || |p.y| == 0
    ensures r.Some? ==> Shaped(p, r.value, features) && r.value == Moved(w, -lr, Gradients(p, w, features))
  {
    if Size(p) == 0 then None
    else
      var next := seq(|w|, j requires 0 <= j < |w| => Plus(w[j], Scale(-lr, Gradient(p, w[j], p.y[j]))));
      assert next == Moved(w, -lr, Gradients(p, w, features));
      Some(next)
  }

  // ---------------------------------------------------------------- the loss the fixture minimises

  function ColumnNorm(m: seq<Vec>, j: int): real {
    if 0 <= j < |m| then Norm2(m[j]) else 0.0
  }

  /** Sum over the columns of a matrix of their squared norms. */
  function SquaredNorm(m: seq<Vec>): real {
    Sum(|m|, j => ColumnNorm(m, j))
  }

  function ColumnDot(m: seq<Vec>, u: seq<Vec>, j: int): real {
    if 0 <= j < |m| && j < |u| && |m[j]| == |u[j]| then Dot(m[j], u[j]) else 0.0
  }

  /** Inner product of two matrices. */
  function MatrixDot(m: seq<Vec>, u: seq<Vec>): real {
    Sum(|m|, j => ColumnDot(m, u, j))
  }

  function Errors(p: Problem, w: seq<Vec>, features: nat): (r: seq<Vec>)
    requires Shaped(p, w, features)
    ensures |r| == |w| && forall j | 0 <= j < |w| :: r[j] == Error(p.x, w[j], p.y[j])
  {
    seq(|w|, j requires 0 <= j < |w| => Error(p.x, w[j], p.y[j]))
  }

  function Images(x: seq<Vec>, g: seq<Vec>, features: nat): (r: seq<Vec>)
    requires (forall i | 0 <= i < |x| :: |x[i]| == features) && forall j | 0 <= j < |g| :: |g[j]| == features
    ensures |r| == |g| && forall j | 0 <= j < |g| :: r[j] == Apply(x, g[j])
  {
    seq(|g|, j requires 0 <= j < |g| => Apply(x, g[j]))
  }

  /** Squared error of output j on sample i. */
  function SquaredError(p: Problem, w: seq<Vec>, j: int, i: int): real {
    if 0 <= j < |w| && j < |p.y| && 0 <= i < |p.x| && i < |p.y[j]| && |p.x[i]| == |w[j]|
    then (Dot(p.x[i], w[j]) - p.y[j][i]) * (Dot(p.x[i], w[j]) - p.y[j][i])
    else 0.0
  }

  /** `np.mean((x @ w - y) ** 2)`: the mean over all outputs and samples. */
  function Loss(p: Problem, w: seq<Vec>, features: nat): real
    requires Shaped(p, w, features) && |p.x| > 0 && |p.y| > 0
  {
    Sum(|p.y|, j => Sum(|p.x|, i => SquaredError(p, w, j, i))) / (|p.x| * |p.y|) as real
  }

  lemma ColumnError(p: Problem, w: seq<Vec>, features: nat, j: nat)
    requires Shaped(p, w, features) && j < |w|
    ensures Sum(|p.x|, i => SquaredError(p, w, j, i)) == ColumnNorm(Errors(p, w, features), j)
  {
    hide Dot, Sum, Error;
    var e := Errors(p, w, features)[j];
    var f := i => SquaredError(p, w, j, i);
    forall i | 0 <= i < |p.x|
      ensures f(i) == e[i] * e[i]
    {
      SquareEqual(Dot(p.x[i], w[j]) - p.y[j][i], e[i]);
    }
    SumDot(e, e, f);
  }

  lemma SquareEqual(x: real, y: real)
    requires x == y
    ensures x * x == y * y
  {
  }

  /** The loss through the columns of the error matrix. */
  lemma LossByColumns(p: Problem, w: seq<Vec>, features: nat)
    requires Shaped(p, w, features) && Size(p) > 0
    ensures |p.x| > 0 && |p.y| > 0
    ensures Loss(p, w, features) == SquaredNorm(Errors(p, w, features)) / Size(p) as real
  {
    hide Sum, SquaredError, ColumnNorm, Errors;
    var e := Errors(p, w, features);
    assert |e| == |p.y| by { ErrorsLength(p, w, features); }
    forall j | 0 <= j < |p.y|
      ensures Sum(|p.x|, i => SquaredError(p, w, j, i)) == ColumnNorm(e, j)
    {
      ColumnError(p, w, features, j);
    }
    SumEqual(|p.y|, j => Sum(|p.x|, i => SquaredError(p, w, j, i)), j => ColumnNorm(e, j));
  }

  lemma ErrorsLength(p: Problem, w: seq<Vec>, features: nat)
    requires Shaped(p, w, features)
    ensures |Errors(p, w, features)| == |p.y|
  {
  }

  // ---------------------------------------------------------------- one column

  /** The transpose moves across the inner product. */
  lemma {:induction false} Transpose(x: seq<Vec>, e: Vec, c: Vec)
    requires |e| == |x| && forall i | 0 <= i < |x| :: |x[i]| == |c|
    ensures Dot(e, Apply(x, c)) == Dot(ApplyTransposed(x, e, |c|), c)
    decreases |x|
  {
    hide Dot;
    if x == [] {
      DotZeros(|c|, c);
      assert e == Zeros(0) && Apply(x, c) == [];
      DotZeros(0, Apply(x, c));
    } else {
      Transpose(x[1..], e[1..], c);
      DotFirst(e, Apply(x, c));
      assert Apply(x, c)[1..] == Apply(x[1..], c);
      DotPlus(Scale(e[0], x[0]), ApplyTransposed(x[1..], e[1..], |c|), c);
      DotScale(e[0], x[0], c);
      MulEqual(e[0], Apply(x, c)[0], Dot(x[0], c));
    }
  }

  lemma ApplyLinear(x: seq<Vec>, c: Vec, t: real, g: Vec)
    requires |c| == |g| && forall i | 0 <= i < |x| :: |x[i]| == |c|
    ensures Apply(x, Plus(c, Scale(t, g))) == Plus(Apply(x, c), Scale(t, Apply(x, g)))
  {
    hide Dot;
    var moved := Plus(c, Scale(t, g));
    forall i | 0 <= i < |x|
      ensures Apply(x, moved)[i] == Plus(Apply(x, c), Scale(t, Apply(x, g)))[i]
    {
      DotAxpy(c, t, g, x[i]);
      MulEqual(t, Apply(x, g)[i], Dot(x[i], g));
    }
  }

  /** Moving one column along any direction `u` changes its squared error by an exact quadratic, whose
      linear term is the inner product with the gradient. */
  lemma ColumnStep(p: Problem, c: Vec, y: Vec, t: real, u: Vec)
    requires Size(p) > 0 && |y| == |p.x| && |u| == |c| && forall i | 0 <= i < |p.x| :: |p.x[i]| == |c|
    ensures Norm2(Error(p.x, Plus(c, Scale(t, u)), y))
            == Norm2(Error(p.x, c, y)) + t * Size(p) as real * Dot(Gradient(p, c, y), u) + t * t * Norm2(Apply(p.x, u))
  {
    hide Dot, Apply, ApplyTransposed;
    var (e, v, n) := (Error(p.x, c, y), Apply(p.x, u), Size(p) as real);
    ErrorMoves(p.x, c, y, t, u);
    var moved := Plus(e, Scale(t, v));
    DotAxpy(e, t, v, moved);
    DotAxpy(e, t, v, e);
    DotAxpy(e, t, v, v);
    DotComm(v, e);
    Transpose(p.x, e, u);
    var z := ApplyTransposed(p.x, e, |c|);
    DotScale(2.0 / n, z, u);
    GradientPairing(n, Dot(z, u), Dot(Gradient(p, c, y), u));
    QuadraticScalars(t, n, Norm2(e), Dot(e, v), Dot(v, e), Norm2(v), Dot(Gradient(p, c, y), u),
                     Dot(e, moved), Dot(v, moved), Norm2(moved));
  }

  lemma ErrorMoves(x: seq<Vec>, c: Vec, y: Vec, t: real, g: Vec)
    requires |c| == |g| && |y| == |x| && forall i | 0 <= i < |x| :: |x[i]| == |c|
    ensures Error(x, Plus(c, Scale(t, g)), y) == Plus(Error(x, c, y), Scale(t, Apply(x, g)))
  {
    hide Apply, Dot;
    ApplyLinear(x, c, t, g);
    forall i | 0 <= i < |x|
      ensures Error(x, Plus(c, Scale(t, g)), y)[i] == Plus(Error(x, c, y), Scale(t, Apply(x, g)))[i]
    {
    }
  }

  lemma GradientPairing(n: real, zu: real, gu: real)
    requires n > 0.0 && gu == (2.0 / n) * zu
    ensures zu + zu == n * gu
  {
    var q := 2.0 / n;
    assert q * n == 2.0;
    assert n * gu == (q * n) * zu;
  }

  lemma QuadraticScalars(t: real, n: real, ee: real, ev: real, ve: real, vv: real, gu: real, em: real, vm: real, mm: real)
    requires ve == ev && ev + ev == n * gu
    requires mm == em + t * vm && em == ee + t * ev && vm == ve + t * vv
    ensures mm == ee + t * n * gu + t * t * vv
  {
    assert t * (ev + ev) == t * n * gu;
    assert t * vm == t * ve + t * t * vv;
  }

  // ---------------------------------------------------------------- the whole step

  ghost predicate Direction(w: seq<Vec>, u: seq<Vec>, features: nat) {
    |u| == |w| && forall j | 0 <= j < |w| :: |w[j]| == |u[j]| == features
  }

  lemma MovedShaped(p: Problem, w: seq<Vec>, features: nat, t: real, u: seq<Vec>)
    requires Shaped(p, w, features) && Direction(w, u, features)
    ensures Shaped(p, Moved(w, t, u), features) && |w| == |p.y| && forall i | 0 <= i < |p.x| :: |p.x[i]| == features
    ensures Size(p) > 0 ==> Direction(w, Gradients(p, w, features), features)
  {
  }

  /** Along every line the loss is exactly quadratic, and its slope is the inner product with the matrix
      the code subtracts: that matrix is the gradient of the loss. */
  lemma LossAlong(p: Problem, w: seq<Vec>, features: nat, t: real, u: seq<Vec>)
    requires Shaped(p, w, features) && Size(p) > 0 && Direction(w, u, features)
    ensures Shaped(p, Moved(w, t, u), features)
    ensures Loss(p, Moved(w, t, u), features)
            == Loss(p, w, features) + t * MatrixDot(Gradients(p, w, features), u)
               + (t * t / Size(p) as real) * SquaredNorm(Images(p.x, u, features))
  {
    hide Norm2, ColumnNorm, ColumnDot, Gradients, Moved, Errors, Images, Sum, Shaped, Loss;
    MovedShaped(p, w, features, t, u);
    var (g, w', n) := (Gradients(p, w, features), Moved(w, t, u), Size(p) as real);
    var (e, e', v) := (Errors(p, w, features), Errors(p, w', features), Images(p.x, u, features));
    var fe, fe' := j => ColumnNorm(e, j), j => ColumnNorm(e', j);
    var fg, fv := j => ColumnDot(g, u, j), j => ColumnNorm(v, j);
    var sg, sv := j => (t * n) * fg(j), j => (t * t) * fv(j);
    var plus := j => fe(j) + sg(j);
    forall j | 0 <= j < |w|
      ensures fe'(j) == plus(j) + sv(j)
    {
      ColumnBalance(p, w, features, t, u, j);
    }
    SumPlus(|w|, fe, sg, plus);
    SumPlus(|w|, plus, sv, fe');
    SumScale(|w|, t * n, fg, sg);
    SumScale(|w|, t * t, fv, sv);
    DivideBySize(t, n, SquaredNorm(e'), SquaredNorm(e), MatrixDot(g, u), SquaredNorm(v));
    LossByColumns(p, w, features);
    LossByColumns(p, w', features);
  }

  lemma ColumnBalance(p: Problem, w: seq<Vec>, features: nat, t: real, u: seq<Vec>, j: nat)
    requires Shaped(p, w, features) && Size(p) > 0 && Direction(w, u, features) && j < |w|
    requires Shaped(p, Moved(w, t, u), features)
    ensures ColumnNorm(Errors(p, Moved(w, t, u), features), j)
            == ColumnNorm(Errors(p, w, features), j) + (t * Size(p) as real) * ColumnDot(Gradients(p, w, features), u, j)
               + (t * t) * ColumnNorm(Images(p.x, u, features), j)
  {
    hide Norm2, Error, Gradient, Apply, Sum, Dot;
    ColumnStep(p, w[j], p.y[j], t, u[j]);
  }

  lemma DivideBySize(t: real, n: real, after: real, before: real, gu: real, vv: real)
    requires n > 0.0 && after == before + (t * n) * gu + (t * t) * vv
    ensures after / n == before / n + t * gu + (t * t / n) * vv
  {
    var (a, b, c) := (after / n, before / n, t * t / n);
    assert a * n == after && b * n == before && c * n == t * t;
    assert (t * n) * gu == n * (t * gu);
    assert (t * t) * vv == n * (c * vv);
    assert n * (a - t * gu - b - c * vv) == 0.0;
  }

  lemma NormIsDot(m: seq<Vec>)
    ensures MatrixDot(m, m) == SquaredNorm(m)
  {
    hide Sum;
    SumEqual(|m|, j => ColumnDot(m, m, j), j => ColumnNorm(m, j));
  }

  /** Exact step identity: with G the gradient the code uses,
      loss(w') = loss(w) - lr * |G|^2 + (lr^2 / size) * |x G|^2. */
  lemma StepIdentity(p: Problem, w: seq<Vec>, features: nat, lr: real)
    requires Shaped(p, w, features) && Size(p) > 0
    ensures var (g, w') := (Gradients(p, w, features), AnalyticSgd(p, w, features, lr).value);
            && (forall i | 0 <= i < |p.x| :: |p.x[i]| == features) && (forall j | 0 <= j < |g| :: |g[j]| == features)
            && Loss(p, w', features)
               == Loss(p, w, features) - lr * SquaredNorm(g)
                  + (lr * lr / Size(p) as real) * SquaredNorm(Images(p.x, g, features))
  {
    hide Loss, Gradients, Moved, Images, MatrixDot, SquaredNorm, AnalyticSgd;
    var g := Gradients(p, w, features);
    LossAlong(p, w, features, -lr, g);
    NormIsDot(g);
    StepScalars(lr, Size(p) as real, SquaredNorm(g), SquaredNorm(Images(p.x, g, features)));
  }

  lemma StepScalars(lr: real, n: real, gg: real, vv: real)
    requires n > 0.0
    ensures -lr * gg == -(lr * gg) && (-lr * -lr / n) * vv == (lr * lr / n) * vv
  {
    assert -lr * -lr == lr * lr;
  }

  /** The loss does not rise exactly when the step is short enough for this gradient. */
  lemma DescentExactly(p: Problem, w: seq<Vec>, features: nat, lr: real)
    requires Shaped(p, w, features) && Size(p) > 0
    ensures var (g, w') := (Gradients(p, w, features), AnalyticSgd(p, w, features, lr).value);
            Loss(p, w', features) <= Loss(p, w, features)
            <==> lr * lr * SquaredNorm(Images(p.x, g, features)) <= lr * Size(p) as real * SquaredNorm(g)
  {
    hide SquaredNorm, Loss;
    var (g, n) := (Gradients(p, w, features), Size(p) as real);
    StepIdentity(p, w, features, lr);
    DescentScalars(lr, n, SquaredNorm(g), SquaredNorm(Images(p.x, g, features)));
  }

  lemma DescentScalars(lr: real, n: real, gg: real, uu: real)
    requires n > 0.0
    ensures (lr * lr / n) * uu <= lr * gg <==> lr * lr * uu <= lr * n * gg
  {
    var c := lr * lr / n;
    assert c * n == lr * lr;
    assert lr * n * gg - lr * lr * uu == n * (lr * gg - c * uu);
    var gap := lr * gg - c * uu;
    assert gap >= 0.0 ==> n * gap >= 0.0;
    assert gap < 0.0 ==> n * gap < 0.0;
  }

  // ---------------------------------------------------------------- resuming

  function Steps(p: Problem, w: seq<Vec>, features: nat, lr: real, n: nat): (r: seq<Vec>)
    requires Shaped(p, w, features) && Size(p) > 0
    ensures Shaped(p, r, features)
    decreases n
  {
    if n == 0 then w else Steps(p, AnalyticSgd(p, w, features, lr).value, features, lr, n - 1)
  }

  /** The weight matrix as the array the caller passes to `save_reference`. */
  function ArrayOf(w: seq<Vec>, features: nat): NdArray
    requires forall j | 0 <= j < |w| :: |w[j]| == features
  {
    NdArray([features, |w|],
            Row(seq(features, i requires 0 <= i < features => Row(seq(|w|, j requires 0 <= j < |w| => Cell(w[j][i]))))))
  }

  /** The columns of a two-dimensional array. */
  function ColumnsOf(a: NdArray): seq<Vec>
    requires |a.shape| == 2 && Fits(a.content, a.shape)
  {
    assert Grid(a.content, a.shape[0], a.shape[1]) by { GridFits(a.content, a.shape[0], a.shape[1]); }
    seq(a.shape[1], j requires 0 <= j < a.shape[1] =>
      seq(a.shape[0], i requires 0 <= i < a.shape[0] => a.content.items[i].items[j].r))
  }

  ghost predicate Grid(x: Nested, rows: nat, columns: nat) {
    && x.Row? && |x.items| == rows
    && (forall i | 0 <= i < rows :: x.items[i].Row? && |x.items[i].items| == columns)
    && (forall i, j | 0 <= i < rows && 0 <= j < columns :: x.items[i].items[j].Cell?)
  }

  lemma GridFits(x: Nested, rows: nat, columns: nat)
    ensures Fits(x, [rows, columns]) <==> Grid(x, rows, columns)
    ensures forall s: seq<nat> | |s| == 2 && s[0] == rows && s[1] == columns :: s == [rows, columns]
  {
    assert [rows, columns][1..] == [columns] && [columns][1..] == [];
    if x.Row? && |x.items| == rows {
      forall i | 0 <= i < rows
        ensures Fits(x.items[i], [columns]) <==>
                x.items[i].Row? && |x.items[i].items| == columns && forall j | 0 <= j < columns :: x.items[i].items[j].Cell?
      {
        if x.items[i].Row? && |x.items[i].items| == columns {
          forall j | 0 <= j < columns
            ensures Fits(x.items[i].items[j], []) <==> x.items[i].items[j].Cell?
          {
          }
        }
      }
    }
  }

  lemma ArrayRoundTrip(w: seq<Vec>, features: nat)
    requires forall j | 0 <= j < |w| :: |w[j]| == features
    ensures var a := ArrayOf(w, features); Fits(a.content, a.shape) && ColumnsOf(a) == w
  {
    var a := ArrayOf(w, features);
    GridFits(a.content, features, |w|);
    assert forall j | 0 <= j < |w| :: ColumnsOf(a)[j] == w[j];
  }

  /** A checkpoint gives the weights back if and only if there is at least one feature: with none, the
      list form of the matrix no longer shows how many outputs there were. */
  lemma CheckpointKeepsWeights(w: seq<Vec>, features: nat, step: int, convert: Scalar -> Option<real>)
    requires Converts(convert) && forall j | 0 <= j < |w| :: |w[j]| == features
    ensures Load(Save(ArrayOf(w, features), step), convert) == Loaded(ArrayOf(w, features), Atom(Number(step as real)))
            <==> features > 0
  {
    ArrayRoundTrip(w, features);
    var a := ArrayOf(w, features);
    CheckpointExact(a, step, convert);
    assert a.shape == [features, |w|];
  }

  /** One step of training is one call of the gradient step, none leaves the weights alone. */
  lemma FewSteps(p: Problem, w: seq<Vec>, features: nat, lr: real)
    requires Shaped(p, w, features) && Size(p) > 0
    ensures Steps(p, w, features, lr, 0) == w
    ensures Steps(p, w, features, lr, 1) == AnalyticSgd(p, w, features, lr).value
  {
    hide AnalyticSgd, Shaped;
    assert Steps(p, AnalyticSgd(p, w, features, lr).value, features, lr, 0) == AnalyticSgd(p, w, features, lr).value;
  }

  lemma {:induction false} StepsCompose(p: Problem, w: seq<Vec>, features: nat, lr: real, n: nat, m: nat)
    requires Shaped(p, w, features) && Size(p) > 0
    ensures Steps(p, w, features, lr, n + m) == Steps(p, Steps(p, w, features, lr, n), features, lr, m)
    decreases n
  {
    hide AnalyticSgd, Shaped;
    if n > 0 {
      StepsCompose(p, AnalyticSgd(p, w, features, lr).value, features, lr, n - 1, m);
    }
  }

  /** Training n + m steps is training n, saving, loading and training m more. */
  lemma ResumeContinues(p: Problem, w: seq<Vec>, features: nat, lr: real, n: nat, m: nat, convert: Scalar -> Option<real>)
    requires Shaped(p, w, features) && Size(p) > 0 && features > 0 && Converts(convert)
    ensures var loaded := Load(Save(ArrayOf(Steps(p, w, features, lr, n), features), n), convert);
            && loaded.Loaded? && loaded.step == Atom(Number(n as real))
            && |loaded.weights.shape| == 2 && Fits(loaded.weights.content, loaded.weights.shape)
            && Shaped(p, ColumnsOf(loaded.weights), features)
            && Steps(p, w, features, lr, n + m) == Steps(p, ColumnsOf(loaded.weights), features, lr, m)
  {
    hide Load, Save, AnalyticSgd, Fits, ColumnsOf, ArrayOf;
    var mid := Steps(p, w, features, lr, n);
    StepsCompose(p, w, features, lr, n, m);
    ArrayRoundTrip(mid, features);
    CheckpointKeepsWeights(mid, features, n, convert);
    assert |ArrayOf(mid, features).shape| == 2 by { ArrayShape(mid, features); }
  }

  lemma ArrayShape(w: seq<Vec>, features: nat)
    requires forall j | 0 <= j < |w| :: |w[j]| == features
    ensures |ArrayOf(w, features).shape| == 2
  {
  }
}
