/** The launch guard and the index arithmetic of the decode kernel, at machine-integer width. */
module DecodeLaunch {
  import opened IntDiv
  import opened DecodeKernel

  newtype int32 = x: int | -0x8000_0000 <= x < 0x8000_0000
  newtype int64 = x: int | -0x8000_0000_0000_0000 <= x < 0x8000_0000_0000_0000

  const INT_MAX: int64 := 0x7FFF_FFFF

  datatype Dims = Dims(B: int32, Hk: int32, Hv: int32, Dk: int32, Dv: int32)

  /** Device addresses; zero is null. */
  datatype Addresses = Addresses(q: nat, k: nat, v: nat, g: nat, beta: nat, state: nat, mask: nat, y: nat, next: nat)

  datatype Status = Success(rows: int64) | InvalidValue

  lemma RowsBounded(b: int, hv: int, dv: int)
    requires 0 < b <= 65535 && 0 < hv <= 65535 && 0 < dv <= 65535
    ensures 0 < b * hv <= 65535 * 65535
    ensures 0 < b * hv * dv <= 65535 * 65535 * 65535
  {
    Monotone(b, 65535, hv);
    Monotone(hv, 65535, 65535);
    Monotone(b * hv, 65535 * 65535, dv);
    Monotone(dv, 65535, 65535 * 65535);
  }

  lemma Monotone(x: int, y: int, z: int)
    requires 0 < x <= y && 0 < z
    ensures 0 < x * z <= y * z && z * x == x * z && z * y == y * z
  {
  }

  /** `static_cast<std::int64_t>(B) * Hv * Dv`. */
  function RowCount(d: Dims): (r: int64)
    requires 0 < d.B <= 65535 && 0 < d.Hv <= 65535 && 0 < d.Dv <= 65535
    ensures 0 < r as int == d.B as int * d.Hv as int * d.Dv as int
  {
    RowsBounded(d.B as int, d.Hv as int, d.Dv as int);
    (d.B as int64 * d.Hv as int64) * d.Dv as int64
  }

  /** The checks before the launch, in source order; the row count is computed in 64 bits. */
  function Guard(p: Addresses, d: Dims): (r: Status)
    ensures r.Success? ==> 0 < r.rows as int == d.B as int * d.Hv as int * d.Dv as int < 0x8000_0000
  {
    if p.q == 0 || p.k == 0 || p.v == 0 || p.g == 0 || p.beta == 0 || p.state == 0 || p.y == 0 || p.next == 0
       || d.B <= 0 || d.Hk <= 0 || d.Hv <= 0 || d.Dv <= 0 || d.Hv % d.Hk != 0 then InvalidValue
    else if d.Dk != 32 && d.Dk != 64 && d.Dk != 128 && d.Dk != 256 then InvalidValue
    else if p.next == p.state || p.y == p.v || p.next == p.y then InvalidValue
    else if d.B > 65535 || d.Hv > 65535 || d.Dv > 65535 then InvalidValue
    else
      var rows := RowCount(d);
      if rows > INT_MAX then InvalidValue else Success(rows)
  }

  /** Every block size the guard lets through is a power of two, as the tree reductions need. */
  lemma AdmittedPower(Dk: nat)
    requires Dk == 32 || Dk == 64 || Dk == 128 || Dk == 256
    ensures PowerOfTwo(Dk)
  {
    assert PowerOfTwo(1) && PowerOfTwo(2) && PowerOfTwo(4) && PowerOfTwo(8) && PowerOfTwo(16);
    assert PowerOfTwo(32) && PowerOfTwo(64) && PowerOfTwo(128);
  }

  lemma GroupsFit(hv: nat, hk: nat)
    requires hv > 0 && hk > 0 && hv % hk == 0
    ensures hk <= hv && hv / hk > 0 && hk * (hv / hk) == hv
  {
    DivMod(hv, hk);
    MultipleFar(hk, hv / hk);
  }

  /** Dimensions the guard lets through, as unbounded integers. */
  ghost predicate Admitted(B: nat, Hk: nat, Hv: nat, Dk: nat, Dv: nat) {
    && B > 0 && Hk > 0 && Hv > 0 && Dv > 0 && Hv % Hk == 0
    && (Dk == 32 || Dk == 64 || Dk == 128 || Dk == 256)
    && B <= 65535 && Hv <= 65535 && Dv <= 65535 && B * Hv * Dv < 0x8000_0000
  }

  /** The guard accepts exactly the admitted dimensions on usable, non-clashing addresses. */
  lemma GuardExact(p: Addresses, d: Dims)
    ensures Guard(p, d).Success? <==>
            && 0 !in {p.q, p.k, p.v, p.g, p.beta, p.state, p.y, p.next}
            && p.next != p.state && p.y != p.v && p.next != p.y
            && d.B >= 0 && d.Hk >= 0 && d.Hv >= 0 && d.Dk >= 0 && d.Dv >= 0
            && Admitted(d.B as int, d.Hk as int, d.Hv as int, d.Dk as int, d.Dv as int)
  {
    if d.Hk > 0 && d.Hv > 0 {
      assert (d.Hv % d.Hk) as int == d.Hv as int % d.Hk as int;
    }
  }

  // ---------------------------------------------------------------- index decode inside the kernel

  datatype Indices = Indices(dv: int32, hv: int32, b: int32, hk: int32, si: int64, qi: int64, gi: int64)

  /** Index arithmetic of thread `t` of block `row`, every operation at its declared width: that this
      is well-typed is the proof that nothing overflows or is truncated. */
  function Decode(d: Dims, row: int64, t: int32): (r: Indices)
    requires d.B > 0 && d.Hk > 0 && d.Hv > 0 && d.Dk > 0 && d.Dv > 0
    requires Admitted(d.B as int, d.Hk as int, d.Hv as int, d.Dk as int, d.Dv as int)
    requires 0 <= row as int < d.B as int * d.Hv as int * d.Dv as int && 0 <= t < d.Dk
    ensures 0 <= r.b < d.B && 0 <= r.hv < d.Hv && 0 <= r.dv < d.Dv && 0 <= r.hk < d.Hk
    ensures (r.b as int * d.Hv as int + r.hv as int) * d.Dv as int + r.dv as int == row as int
    ensures r.hk as int == r.hv as int / (d.Hv as int / d.Hk as int)
    ensures r.si as int == row as int * d.Dk as int + t as int
    ensures r.qi as int == (r.b as int * d.Hk as int + r.hk as int) * d.Dk as int + t as int
    ensures r.gi as int == r.b as int * d.Hv as int + r.hv as int
  {
    DecodeRanges(d.B as int, d.Hk as int, d.Hv as int, d.Dk as int, d.Dv as int, row as int);
    AdmittedParts(d.B as int, d.Hk as int, d.Hv as int, d.Dk as int, d.Dv as int);
    var dv := (row % d.Dv as int64) as int32;
    var hv := ((row / d.Dv as int64) % d.Hv as int64) as int32;
    var b := (row / (d.Hv as int64 * d.Dv as int64)) as int32;
    var hk := hv / (d.Hv / d.Hk);
    IndexBounds(d.B as int, d.Hk as int, d.Hv as int, d.Dk as int, d.B as int * d.Hv as int * d.Dv as int,
                row as int, t as int, b as int, hv as int, hk as int);
    var si := row * d.Dk as int64 + t as int64;
    var qi := (b as int64 * d.Hk as int64 + hk as int64) * d.Dk as int64 + t as int64;
    var gi := b as int64 * d.Hv as int64 + hv as int64;
    Indices(dv, hv, b, hk, si, qi, gi)
  }

  /** Where a row lies. */
  lemma DecodeRanges(B: nat, Hk: nat, Hv: nat, Dk: nat, Dv: nat, row: nat)
    requires Admitted(B, Hk, Hv, Dk, Dv) && row < B * Hv * Dv
    ensures 0 < Hv * Dv <= 65535 * 65535 && Hv / Hk > 0
    ensures var (dv, hv, b) := (row % Dv, (row / Dv) % Hv, row / (Hv * Dv));
            && 0 <= dv < Dv && 0 <= hv < Hv && 0 <= b < B && 0 <= hv / (Hv / Hk) < Hk
            && (b * Hv + hv) * Dv + dv == row
  {
    hide Admitted;
    AdmittedParts(B, Hk, Hv, Dk, Dv);
    Products(Hv, Dv, 65535, 65535);
    GroupsFit(Hv, Hk);
    SplitRow(B, Hv, Dv, row);
    Unflatten((row / Dv) % Hv, Hk, Hv / Hk);
  }

  lemma AdmittedParts(B: nat, Hk: nat, Hv: nat, Dk: nat, Dv: nat)
    requires Admitted(B, Hk, Hv, Dk, Dv)
    ensures 0 < B <= 65535 && 0 < Hv <= 65535 && 0 < Dv <= 65535 && 0 < Hk <= 65535 && Hv % Hk == 0 && Dk <= 256
    ensures B * Hv * Dv < 0x8000_0000
  {
    GroupsFit(Hv, Hk);
  }

  /** Each index stays below the size of the buffer it addresses. */
  lemma IndexBounds(B: nat, Hk: nat, Hv: nat, Dk: nat, rows: nat, row: nat, t: nat, b: nat, hv: nat, hk: nat)
    requires b < B <= 65535 && hk < Hk <= 65535 && hv < Hv <= 65535 && row < rows < 0x8000_0000 && t < Dk <= 256
    ensures 0 <= b * Hk <= 65535 * 65535 && 0 <= b * Hv <= 65535 * 65535
    ensures 0 <= row * Dk <= 0x8000_0000 * 256
    ensures 0 <= (b * Hk + hk) * Dk <= (65535 * 65535 + 65535) * 256
    ensures row * Dk + t < rows * Dk && (b * Hk + hk) * Dk + t < B * Hk * Dk && b * Hv + hv < B * Hv
  {
    Products(b, Hk, 65535, 65535);
    Products(b, Hv, 65535, 65535);
    Products(row, Dk, 0x8000_0000, 256);
    Products(b * Hk + hk, Dk, 65535 * 65535 + 65535, 256);
    GroupFits(row, Dk, rows);
    GroupFits(b, Hk, B);
    GroupFits(b * Hk + hk, Dk, B * Hk);
    GroupFits(b, Hv, B);
  }

  lemma Products(x: nat, y: nat, m: nat, n: nat)
    requires x <= m && y <= n
    ensures 0 <= x * y <= m * n
  {
    assert x * y <= m * y;
    assert m * y <= m * n;
  }

  /** `row % Dv`, `(row / Dv) % Hv`, `row / (Hv * Dv)` are the three coordinates of a row. */
  lemma SplitRow(B: nat, Hv: nat, Dv: nat, row: nat)
    requires Hv > 0 && Dv > 0 && row < B * Hv * Dv
    ensures Hv * Dv > 0
    ensures var (dv, hv, b) := (row % Dv, (row / Dv) % Hv, row / (Hv * Dv));
            0 <= dv < Dv && 0 <= hv < Hv && 0 <= b < B && (b * Hv + hv) * Dv + dv == row
  {
    Unflatten(row, B * Hv, Dv);
    var head := row / Dv;
    Unflatten(head, B, Hv);
    var (b, hv, dv) := (head / Hv, head % Hv, row % Dv);
    assert (b * Hv + hv) * Dv + dv == row;
    GroupFits(hv, Dv, Hv);
    assert b * (Hv * Dv) + (hv * Dv + dv) == row;
    Flatten(b, Hv * Dv, hv * Dv + dv);
  }

  /** The row number of a (batch, value head, value row) triple. */
  function RowOf(Hv: nat, Dv: nat, b: nat, hv: nat, dv: nat): nat {
    (b * Hv + hv) * Dv + dv
  }

  /** The decode is the inverse of row numbering: rows and triples are in bijection. */
  lemma RowBijection(B: nat, Hv: nat, Dv: nat, b: nat, hv: nat, dv: nat)
    requires b < B && hv < Hv && dv < Dv
    ensures var row := RowOf(Hv, Dv, b, hv, dv);
            row < B * Hv * Dv && Hv * Dv > 0 && row % Dv == dv && (row / Dv) % Hv == hv && row / (Hv * Dv) == b
  {
    var head := b * Hv + hv;
    GroupFits(b, Hv, B);
    GroupFits(head, Dv, B * Hv);
    Flatten(b, Hv, hv);
    Flatten(head, Dv, dv);
    GroupFits(hv, Dv, Hv);
    assert RowOf(Hv, Dv, b, hv, dv) == b * (Hv * Dv) + (hv * Dv + dv);
    Flatten(b, Hv * Dv, hv * Dv + dv);
  }
}
