/** Finite sums over an index, the form every `einsum` and `np.sum` of the source takes. */
module Sums {
  import opened Vectors

  function Sum(n: nat, f: int -> real): real {
    Total(seq(n, i requires 0 <= i < n => f(i)))
  }

  lemma SumEqual(n: nat, f: int -> real, g: int -> real)
    requires forall i | 0 <= i < n :: f(i) == g(i)
    ensures Sum(n, f) == Sum(n, g)
  {
    assert seq(n, i requires 0 <= i < n => f(i)) == seq(n, i requires 0 <= i < n => g(i));
  }

  /** An inner product is the sum of its entries. */
  lemma SumDot(a: Vec, b: Vec, f: int -> real)
    requires |a| == |b| && forall i | 0 <= i < |a| :: f(i) == a[i] * b[i]
    ensures Sum(|a|, f) == Dot(a, b)
  {
    assert seq(|a|, i requires 0 <= i < |a| => f(i)) == Times(a, b);
  }

  lemma SumLast(n: nat, f: int -> real)
    requires n > 0
    ensures Sum(n, f) == Sum(n - 1, f) + f(n - 1)
  {
    var a := seq(n - 1, i requires 0 <= i < n - 1 => f(i));
    assert seq(n, i requires 0 <= i < n => f(i)) == a + [f(n - 1)];
    TotalAppend(a, [f(n - 1)]);
    assert [f(n - 1)][1..] == [];
  }

  lemma SumPlus(n: nat, f: int -> real, g: int -> real, h: int -> real)
    requires forall i | 0 <= i < n :: h(i) == f(i) + g(i)
    ensures Sum(n, h) == Sum(n, f) + Sum(n, g)
  {
    var a := seq(n, i requires 0 <= i < n => f(i));
    var b := seq(n, i requires 0 <= i < n => g(i));
    assert seq(n, i requires 0 <= i < n => h(i)) == Plus(a, b);
    TotalPlus(a, b);
  }

  lemma SumScale(n: nat, x: real, f: int -> real, h: int -> real)
    requires forall i | 0 <= i < n :: h(i) == x * f(i)
    ensures Sum(n, h) == x * Sum(n, f)
  {
    var a := seq(n, i requires 0 <= i < n => f(i));
    forall i | 0 <= i < n
      ensures h(i) == Scale(x, a)[i]
    {
      MulEqual(x, f(i), a[i]);
    }
    assert seq(n, i requires 0 <= i < n => h(i)) == Scale(x, a);
    TotalScale(x, a);
  }

  lemma SumZero(n: nat, f: int -> real)
    requires forall i | 0 <= i < n :: f(i) == 0.0
    ensures Sum(n, f) == 0.0
  {
    assert seq(n, i requires 0 <= i < n => f(i)) == Zeros(n);
    TotalZeros(n);
  }

  lemma {:induction false} SumLe(n: nat, f: int -> real, g: int -> real)
    requires forall i | 0 <= i < n :: f(i) <= g(i)
    ensures Sum(n, f) <= Sum(n, g)
  {
    if n > 0 {
      SumLast(n, f);
      SumLast(n, g);
      SumLe(n - 1, f, g);
    }
  }

  /** Double sums may be taken in either order. */
  lemma {:induction false} SumSwap(n: nat, m: nat, f: (int, int) -> real)
    ensures Sum(n, i => Sum(m, j => f(i, j))) == Sum(m, j => Sum(n, i => f(i, j)))
  {
    var rows := i => Sum(m, j => f(i, j));
    var columns := j => Sum(n, i => f(i, j));
    if n == 0 {
      SumZero(0, rows);
      forall j | 0 <= j < m
        ensures columns(j) == 0.0
      {
        SumZero(0, i => f(i, j));
      }
      SumZero(m, columns);
    } else {
      var earlier := j => Sum(n - 1, i => f(i, j));
      var last := j => f(n - 1, j);
      SumSwap(n - 1, m, f);
      SumLast(n, rows);
      SumEqual(m, j => f(n - 1, j), last);
      assert rows(n - 1) == Sum(m, last);
      forall j | 0 <= j < m
        ensures columns(j) == earlier(j) + last(j)
      {
        SumLast(n, i => f(i, j));
      }
      SumPlus(m, earlier, last, columns);
    }
  }

  lemma {:induction false} SumSplit(n: nat, m: nat, f: int -> real)
    ensures Sum(n + m, f) == Sum(n, f) + Sum(m, j => f(n + j))
  {
    if m == 0 {
      SumZero(0, j => f(n + j));
    } else {
      SumSplit(n, m - 1, f);
      SumLast(n + m, f);
      SumLast(m, j => f(n + j));
    }
  }

  /** A sum over `groups * size` heads is a sum over groups of sums inside each group. */
  lemma {:induction false} SumGroups(groups: nat, size: nat, f: int -> real)
    ensures groups * size >= 0
    ensures Sum(groups * size, f) == Sum(groups, i => Sum(size, j => f(i * size + j)))
  {
    if groups == 0 {
      SumZero(0, i => Sum(size, j => f(i * size + j)));
      SumZero(0, f);
    } else {
      SumGroups(groups - 1, size, f);
      SumLast(groups, i => Sum(size, j => f(i * size + j)));
      SumSplit((groups - 1) * size, size, f);
      assert (groups - 1) * size + size == groups * size;
      SumEqual(size, j => f((groups - 1) * size + j), j => f((groups - 1) * size + j));
    }
  }

  /** Entrywise sum of a family of vectors. */
  function VecSum(n: nat, len: nat, f: int -> Vec): (r: Vec)
    requires forall i | 0 <= i < n :: |f(i)| == len
    ensures |r| == len
  {
    if n == 0 then Zeros(len) else Plus(VecSum(n - 1, len, f), f(n - 1))
  }

  lemma {:induction false} DotVecSum(n: nat, f: int -> Vec, x: Vec, h: int -> real)
    requires forall i | 0 <= i < n :: |f(i)| == |x| && h(i) == Dot(f(i), x)
    ensures Dot(VecSum(n, |x|, f), x) == Sum(n, h)
  {
    hide Dot;
    if n == 0 {
      DotZeros(|x|, x);
      SumZero(0, h);
    } else {
      DotVecSum(n - 1, f, x, h);
      DotPlus(VecSum(n - 1, |x|, f), f(n - 1), x);
      SumLast(n, h);
    }
  }

  lemma {:induction false} VecSumEntry(n: nat, len: nat, f: int -> Vec, k: nat, h: int -> real)
    requires forall i | 0 <= i < n :: |f(i)| == len && (k < len ==> h(i) == f(i)[k])
    requires k < len
    ensures VecSum(n, len, f)[k] == Sum(n, h)
  {
    if n == 0 {
      SumZero(0, h);
    } else {
      VecSumEntry(n - 1, len, f, k, h);
      SumLast(n, h);
    }
  }

  /** The innermost of three sums may be moved outermost. */
  lemma SumRotate(n: nat, m: nat, l: nat, f: (int, int, int) -> real)
    ensures Sum(n, t => Sum(m, h => Sum(l, d => f(t, h, d)))) == Sum(m, h => Sum(l, d => Sum(n, t => f(t, h, d))))
  {
    hide Sum;
    var inner := (t, h) => Sum(l, d => f(t, h, d));
    var before := t => Sum(m, h => Sum(l, d => f(t, h, d)));
    var after := h => Sum(l, d => Sum(n, t => f(t, h, d)));
    forall t | 0 <= t < n
      ensures before(t) == Sum(m, h => inner(t, h))
    {
      SumEqual(m, h => Sum(l, d => f(t, h, d)), h => inner(t, h));
    }
    SumEqual(n, before, t => Sum(m, h => inner(t, h)));
    SumSwap(n, m, inner);
    forall h | 0 <= h < m
      ensures Sum(n, t => inner(t, h)) == after(h)
    {
      var slice := (t, d) => f(t, h, d);
      forall t | 0 <= t < n
        ensures inner(t, h) == Sum(l, d => slice(t, d))
      {
        SumEqual(l, d => f(t, h, d), d => slice(t, d));
      }
      SumEqual(n, t => inner(t, h), t => Sum(l, d => slice(t, d)));
      SumSwap(n, l, slice);
      var left, right := d => Sum(n, t => slice(t, d)), d => Sum(n, t => f(t, h, d));
      forall d | 0 <= d < l
        ensures left(d) == right(d)
      {
        SumEqual(n, t => slice(t, d), t => f(t, h, d));
      }
      SumEqual(l, left, right);
    }
    SumEqual(m, h => Sum(n, t => inner(t, h)), after);
  }

  lemma SumFive(n: nat, f0: int -> real, f1: int -> real, f2: int -> real, f3: int -> real, f4: int -> real, h: int -> real)
    requires forall i | 0 <= i < n :: h(i) == f0(i) + f1(i) + f2(i) + f3(i) + f4(i)
    ensures Sum(n, h) == Sum(n, f0) + Sum(n, f1) + Sum(n, f2) + Sum(n, f3) + Sum(n, f4)
  {
    hide Sum;
    var g1, g2, g3 := i => f0(i) + f1(i), i => f0(i) + f1(i) + f2(i), i => f0(i) + f1(i) + f2(i) + f3(i);
    SumPlus(n, f0, f1, g1);
    SumPlus(n, g1, f2, g2);
    SumPlus(n, g2, f3, g3);
    SumPlus(n, g3, f4, h);
  }

  /** A two-by-two balance that holds entrywise holds for the sums. */
  lemma SumBalance(n: nat, f0: int -> real, f1: int -> real, g0: int -> real, g1: int -> real)
    requires forall i | 0 <= i < n :: f0(i) + f1(i) == g0(i) + g1(i)
    ensures Sum(n, f0) + Sum(n, f1) == Sum(n, g0) + Sum(n, g1)
  {
    hide Sum;
    var f, g := i => f0(i) + f1(i), i => g0(i) + g1(i);
    SumPlus(n, f0, f1, f);
    SumPlus(n, g0, g1, g);
    SumEqual(n, f, g);
  }

  lemma {:induction false} VecSumEqual(n: nat, len: nat, f: int -> Vec, g: int -> Vec)
    requires forall i | 0 <= i < n :: |f(i)| == len && f(i) == g(i)
    ensures VecSum(n, len, f) == VecSum(n, len, g)
  {
    if n > 0 {
      VecSumEqual(n - 1, len, f, g);
    }
  }

  lemma {:induction false} VecSumZero(n: nat, len: nat, f: int -> Vec)
    requires forall i | 0 <= i < n :: |f(i)| == len && f(i) == Zeros(len)
    ensures VecSum(n, len, f) == Zeros(len)
  {
    if n > 0 {
      VecSumZero(n - 1, len, f);
    }
  }
}
