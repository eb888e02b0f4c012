/** Real vectors as sequences: the inner (last) axis of every tensor in the model. */
module Vectors {

  type Vec = seq<real>

  function Total(a: Vec): real {
    if |a| == 0 then 0.0 else a[0] + Total(a[1..])
  }

  function Times(a: Vec, b: Vec): (r: Vec)
    requires |a| == |b|
    ensures |r| == |a|
    ensures forall i | 0 <= i < |a| :: r[i] == a[i] * b[i]
  {
    seq(|a|, i requires 0 <= i < |a| => a[i] * b[i])
  }

  function Dot(a: Vec, b: Vec): real
    requires |a| == |b|
  {
    Total(Times(a, b))
  }

  function Plus(a: Vec, b: Vec): (r: Vec)
    requires |a| == |b|
    ensures |r| == |a|
    ensures forall i | 0 <= i < |a| :: r[i] == a[i] + b[i]
  {
    seq(|a|, i requires 0 <= i < |a| => a[i] + b[i])
  }

  function Scale(c: real, a: Vec): (r: Vec)
    ensures |r| == |a|
    ensures forall i | 0 <= i < |a| :: r[i] == c * a[i]
  {
    seq(|a|, i requires 0 <= i < |a| => c * a[i])
  }

  function Zeros(n: nat): (r: Vec)
    ensures |r| == n
    ensures forall i | 0 <= i < n :: r[i] == 0.0
  {
    seq(n, i => 0.0)
  }

  function Norm2(a: Vec): real {
    Dot(a, a)
  }

  // ---------------------------------------------------------------- totals

  lemma {:induction false} TotalPlus(a: Vec, b: Vec)
    requires |a| == |b|
    ensures Total(Plus(a, b)) == Total(a) + Total(b)
  {
    if |a| > 0 {
      assert Plus(a, b)[1..] == Plus(a[1..], b[1..]);
      TotalPlus(a[1..], b[1..]);
    }
  }

  lemma {:induction false} TotalScale(x: real, a: Vec)
    ensures Total(Scale(x, a)) == x * Total(a)
  {
    if |a| > 0 {
      assert Scale(x, a)[1..] == Scale(x, a[1..]) by {
        forall i | 0 <= i < |a| - 1
          ensures Scale(x, a)[1..][i] == Scale(x, a[1..])[i]
        {
          assert Scale(x, a)[1..][i] == Scale(x, a)[i + 1] == x * a[i + 1];
        }
      }
      TotalScale(x, a[1..]);
    }
  }

  lemma {:induction false} TotalZeros(n: nat)
    ensures Total(Zeros(n)) == 0.0
  {
    if n > 0 {
      assert Zeros(n)[1..] == Zeros(n - 1);
      TotalZeros(n - 1);
    }
  }

  lemma {:induction false} TotalAppend(a: Vec, b: Vec)
    ensures Total(a + b) == Total(a) + Total(b)
  {
    if |a| == 0 {
      assert a + b == b;
    } else {
      assert (a + b)[1..] == a[1..] + b;
      TotalAppend(a[1..], b);
    }
  }

  // ---------------------------------------------------------------- inner products

  lemma DotFirst(a: Vec, b: Vec)
    requires |a| == |b| > 0
    ensures Dot(a, b) == a[0] * b[0] + Dot(a[1..], b[1..])
  {
    forall i | 0 <= i < |a| - 1
      ensures Times(a, b)[1..][i] == Times(a[1..], b[1..])[i]
    {
      assert Times(a, b)[1..][i] == Times(a, b)[i + 1] == a[i + 1] * b[i + 1];
    }
    assert Times(a, b)[1..] == Times(a[1..], b[1..]);
  }

  lemma DotComm(a: Vec, b: Vec)
    requires |a| == |b|
    ensures Dot(a, b) == Dot(b, a)
  {
    assert Times(a, b) == Times(b, a);
  }

  lemma DotPlus(a: Vec, b: Vec, c: Vec)
    requires |a| == |b| == |c|
    ensures Dot(Plus(a, b), c) == Dot(a, c) + Dot(b, c)
    ensures Dot(c, Plus(a, b)) == Dot(c, a) + Dot(c, b)
  {
    forall i | 0 <= i < |a|
      ensures Times(Plus(a, b), c)[i] == Plus(Times(a, c), Times(b, c))[i]
    {
      MulPlus(a[i], b[i], c[i], Plus(a, b)[i]);
    }
    assert Times(Plus(a, b), c) == Plus(Times(a, c), Times(b, c));
    TotalPlus(Times(a, c), Times(b, c));
    DotComm(Plus(a, b), c);
    DotComm(a, c);
    DotComm(b, c);
  }

  lemma MulPlus(x: real, y: real, z: real, s: real)
    requires s == x + y
    ensures s * z == x * z + y * z
  {
  }

  lemma DotScaleLeft(x: real, a: Vec, b: Vec)
    requires |a| == |b|
    ensures Dot(Scale(x, a), b) == x * Dot(a, b)
  {
    ScaleTimes(x, a, b);
    TotalScale(x, Times(a, b));
  }

  lemma DotScale(x: real, a: Vec, b: Vec)
    requires |a| == |b|
    ensures Dot(Scale(x, a), b) == x * Dot(a, b)
    ensures Dot(a, Scale(x, b)) == x * Dot(a, b)
  {
    hide Dot;
    DotScaleLeft(x, a, b);
    DotScaleLeft(x, b, a);
    DotComm(a, Scale(x, b));
    DotComm(a, b);
    MulEqual(x, Dot(a, b), Dot(b, a));
  }

  lemma MulEqual(x: real, y: real, z: real)
    requires y == z
    ensures x * y == x * z
  {
  }

  lemma ScaleTimes(x: real, a: Vec, b: Vec)
    requires |a| == |b|
    ensures Times(Scale(x, a), b) == Scale(x, Times(a, b))
  {
    forall i | 0 <= i < |a|
      ensures Times(Scale(x, a), b)[i] == Scale(x, Times(a, b))[i]
    {
      MulAssoc(x, a[i], b[i], Scale(x, a)[i], Times(a, b)[i]);
    }
  }

  lemma MulAssoc(x: real, y: real, z: real, xy: real, yz: real)
    requires xy == x * y && yz == y * z
    ensures xy * z == x * yz
  {
    assert xy * z == x * y * z;
    assert x * yz == x * y * z;
  }

  /** The two lemmas above, for the `a + x * b` shape every update has. */
  lemma DotAxpy(a: Vec, x: real, b: Vec, c: Vec)
    requires |a| == |b| == |c|
    ensures Dot(Plus(a, Scale(x, b)), c) == Dot(a, c) + x * Dot(b, c)
    ensures Dot(c, Plus(a, Scale(x, b))) == Dot(c, a) + x * Dot(c, b)
  {
    hide Dot;
    DotPlus(a, Scale(x, b), c);
    DotScale(x, b, c);
    DotScale(x, c, b);
  }

  lemma DotAppend(a: Vec, b: Vec, x: Vec, y: Vec)
    requires |a| == |b| && |x| == |y|
    ensures Dot(a + x, b + y) == Dot(a, b) + Dot(x, y)
  {
    forall i | 0 <= i < |a| + |x|
      ensures Times(a + x, b + y)[i] == (Times(a, b) + Times(x, y))[i]
    {
      if i < |a| {
        assert (a + x)[i] == a[i] && (b + y)[i] == b[i];
      } else {
        assert (a + x)[i] == x[i - |a|] && (b + y)[i] == y[i - |a|];
      }
    }
    assert Times(a + x, b + y) == Times(a, b) + Times(x, y);
    TotalAppend(Times(a, b), Times(x, y));
  }

  lemma DotZeros(n: nat, b: Vec)
    requires n == |b|
    ensures Dot(Zeros(n), b) == 0.0
  {
    forall i | 0 <= i < n
      ensures Times(Zeros(n), b)[i] == 0.0
    {
      assert Zeros(n)[i] == 0.0;
    }
    assert Times(Zeros(n), b) == Zeros(n);
    TotalZeros(n);
  }

  lemma ScaleZero(a: Vec)
    ensures Scale(0.0, a) == Zeros(|a|)
  {
  }

  lemma ScaleZeros(x: real, n: nat)
    ensures Scale(x, Zeros(n)) == Zeros(n)
  {
    forall i | 0 <= i < n
      ensures Scale(x, Zeros(n))[i] == 0.0
    {
      assert Scale(x, Zeros(n))[i] == x * Zeros(n)[i];
    }
  }

  // ---------------------------------------------------------------- norms

  lemma SquarePositive(x: real, square: real)
    requires square == x * x
    ensures square >= 0.0
    ensures x == 0.0 || square > 0.0
  {
    if x > 0.0 {
      ProductPositive(x, x, square);
    } else if x < 0.0 {
      ProductPositive(-x, -x, square);
    }
  }

  lemma ProductPositive(x: real, y: real, xy: real)
    requires x > 0.0 && y > 0.0 && xy == x * y
    ensures xy > 0.0
  {
  }

  lemma {:induction false} TotalNonNegative(a: Vec)
    requires forall i | 0 <= i < |a| :: a[i] >= 0.0
    ensures Total(a) >= 0.0
    ensures forall i | 0 <= i < |a| :: a[i] <= Total(a)
  {
    if |a| > 0 {
      TotalNonNegative(a[1..]);
      forall i | 0 <= i < |a|
        ensures a[i] <= Total(a)
      {
        assert i > 0 ==> a[i] == a[1..][i - 1];
      }
    }
  }

  lemma Norm2NonNegative(a: Vec)
    ensures Norm2(a) >= 0.0
  {
    forall i | 0 <= i < |a|
      ensures Times(a, a)[i] >= 0.0
    {
      SquarePositive(a[i], Times(a, a)[i]);
    }
    TotalNonNegative(Times(a, a));
  }

  /** A vector is orthogonal to everything, or has positive norm. */
  lemma Norm2Zero(a: Vec, b: Vec)
    requires |a| == |b|
    ensures Norm2(a) > 0.0 || Dot(a, b) == 0.0
  {
    forall i | 0 <= i < |a|
      ensures Times(a, a)[i] >= 0.0
      ensures a[i] == 0.0 || Times(a, a)[i] > 0.0
    {
      SquarePositive(a[i], Times(a, a)[i]);
    }
    TotalNonNegative(Times(a, a));
    if i :| 0 <= i < |a| && a[i] != 0.0 {
      assert Times(a, a)[i] <= Norm2(a);
    } else {
      assert a == Zeros(|a|);
      DotZeros(|a|, b);
    }
  }
}
