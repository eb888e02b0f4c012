/** Quotient and remainder of flat indices, for head grouping and for the kernel's row decode. */
module IntDiv {

  lemma DivMod(x: nat, r: nat)
    requires r > 0
    ensures x == r * (x / r) + x % r && 0 <= x % r < r
  {
  }

  lemma MultipleFar(r: int, e: int)
    requires r >= 0
    ensures e >= 1 ==> r * e >= r
    ensures e <= -1 ==> r * e <= -r
  {
    if e >= 1 {
      assert r * (e - 1) >= 0;
    } else if e <= -1 {
      assert r * (-1 - e) >= 0;
    }
  }

  /** A flat index has one decomposition. */
  lemma Flatten(q: nat, r: nat, m: nat)
    requires m < r
    ensures (q * r + m) / r == q && (q * r + m) % r == m
  {
    var x := q * r + m;
    DivMod(x, r);
    var e := x / r - q;
    assert r * e == r * (x / r) - q * r;
    MultipleFar(r, e);
  }

  /** A flat index below `n * r` has its quotient below `n`. */
  lemma Unflatten(x: nat, n: nat, r: nat)
    requires x < n * r && r > 0
    ensures 0 <= x / r < n && 0 <= x % r < r && (x / r) * r + x % r == x
  {
    DivMod(x, r);
    var e := x / r - n;
    assert r * e == r * (x / r) - n * r;
    MultipleFar(r, e);
  }

  /** Group `q` of `n` groups of size `r` ends within the flat range. */
  lemma GroupFits(q: nat, r: nat, n: nat)
    requires q < n
    ensures q * r + r <= n * r
  {
    assert (n - q - 1) * r >= 0;
    assert n * r == q * r + r + (n - q - 1) * r;
  }
}
