/** `checked_product`: the element count of a tensor, in 64-bit arithmetic. */
module Contracts {

  newtype uint64 = x: int | 0 <= x < 0x1_0000_0000_0000_0000

  const MAX: uint64 := 0xFFFF_FFFF_FFFF_FFFF

  datatype Count = Elements(n: uint64) | Overflow

  /** The mathematical product; an empty list is a scalar. */
  ghost function Product(dims: seq<uint64>): nat {
    if dims == [] then 1 else dims[0] as int * Product(dims[1..])
  }

  /** What the function is meant to return: the product if 64 bits hold it, and overflow otherwise. */
  ghost function Exact(dims: seq<uint64>): Count {
    if Product(dims) < 0x1_0000_0000_0000_0000 then Elements(Product(dims) as uint64) else Overflow
  }

  lemma {:induction false} ProductAppend(a: seq<uint64>, b: seq<uint64>)
    ensures Product(a + b) == Product(a) * Product(b)
  {
    if a == [] {
      assert a + b == b;
    } else {
      assert (a + b)[1..] == a[1..] + b;
      ProductAppend(a[1..], b);
      Associate(a[0] as int, Product(a[1..]), Product(b));
    }
  }

  lemma Associate(x: int, y: int, z: int)
    ensures x * (y * z) == (x * y) * z
  {
  }

  lemma {:induction false} ProductPositive(dims: seq<uint64>)
    requires forall i | 0 <= i < |dims| :: dims[i] > 0
    ensures Product(dims) > 0
  {
    if dims != [] {
      ProductPositive(dims[1..]);
    }
  }

  lemma {:induction false} ProductZero(dims: seq<uint64>, i: nat)
    requires i < |dims| && dims[i] == 0
    ensures Product(dims) == 0
  {
    if i > 0 {
      ProductZero(dims[1..], i - 1);
    }
  }

  /** The division test is exact: it fires when and only when the multiplication would not fit. */
  lemma DivisionTest(p: nat, n: nat, max: nat)
    requires n > 0
    ensures p > max / n <==> p * n > max
  {
    var q, r := max / n, max % n;
    assert max == n * q + r && 0 <= r < n;
    if p > q {
      assert (p - q - 1) * n >= 0;
      assert p * n == (p - q - 1) * n + q * n + n;
    } else {
      assert (q - p) * n >= 0;
      assert p * n == q * n - (q - p) * n;
    }
  }

  /** A prefix that overflows makes the whole overflow, as every dimension is at least one. */
  lemma PrefixOverflows(a: seq<uint64>, b: seq<uint64>)
    requires Product(a) > MAX as int && forall i | 0 <= i < |b| :: b[i] > 0
    ensures Product(a + b) > MAX as int
  {
    ProductAppend(a, b);
    ProductPositive(b);
    assert Product(a) * (Product(b) - 1) >= 0;
  }

  /** `checked_product`: exact on every list of dimensions. */
  method CheckedProduct(dims: seq<uint64>) returns (r: Count)
    ensures r == Exact(dims)
  {
    for i := 0 to |dims|
      invariant forall j | 0 <= j < i :: dims[j] > 0
    {
      if dims[i] == 0 {
        ProductZero(dims, i);
        return Elements(0);
      }
    }
    var product: uint64 := 1;
    for i := 0 to |dims|
      invariant product as int == Product(dims[..i])
    {
      var n := dims[i];
      assert dims[..i + 1] == dims[..i] + [n] && [n][1..] == [];
      assert dims == dims[..i + 1] + dims[i + 1..];
      ProductAppend(dims[..i], [n]);
      DivisionTest(product as int, n as int, MAX as int);
      if product > MAX / n {
        PrefixOverflows(dims[..i + 1], dims[i + 1..]);
        return Overflow;
      }
      product := product * n;
    }
    assert dims[..|dims|] == dims;
    return Elements(product);
  }

  lemma {:induction false} ProductOfPermutation(a: seq<uint64>, b: seq<uint64>)
    requires multiset(a) == multiset(b)
    ensures Product(a) == Product(b)
    decreases |a|
  {
    if a == [] {
      assert |multiset(b)| == 0;
      assert b == [];
    } else {
      assert a[0] in multiset(b);
      var i :| 0 <= i < |b| && b[i] == a[0];
      var rest := b[..i] + b[i + 1..];
      assert b == b[..i] + ([b[i]] + b[i + 1..]);
      assert a == [a[0]] + a[1..];
      assert multiset(a[1..]) == multiset(a) - multiset{a[0]};
      assert multiset(b) == multiset(b[..i]) + (multiset{b[i]} + multiset(b[i + 1..]));
      assert multiset(rest) == multiset(b[..i]) + multiset(b[i + 1..]);
      ProductOfPermutation(a[1..], rest);
      ProductAppend(b[..i], b[i + 1..]);
      ProductAppend(b[..i], [b[i]] + b[i + 1..]);
      assert ([b[i]] + b[i + 1..])[1..] == b[i + 1..];
      Rotate(Product(b[..i]), b[i] as int, Product(b[i + 1..]));
    }
  }

  lemma Rotate(x: int, y: int, z: int)
    ensures x * (y * z) == y * (x * z)
  {
  }

  /** The outcome does not depend on the order of the dimensions. */
  lemma OrderIrrelevant(a: seq<uint64>, b: seq<uint64>)
    requires multiset(a) == multiset(b)
    ensures Exact(a) == Exact(b)
  {
    ProductOfPermutation(a, b);
  }
}
