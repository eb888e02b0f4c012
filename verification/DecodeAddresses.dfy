/** What the kernel's index arithmetic addresses, and which overlaps of its buffers are harmless. */
module DecodeAddresses {
  import opened IntDiv
  import opened Vectors
  import opened Tensors
  import opened GdnRow
  import opened BlockMachine
  import opened DecodeKernel
  import opened DecodeLaunch
  import opened DecodeRefinement

  // ---------------------------------------------------------------- guard and index decode

  function ShapeFrom(d: Dims): Shape
    requires d.B >= 0 && d.Hk >= 0 && d.Hv >= 0 && d.Dk >= 0 && d.Dv >= 0
  {
    Shape(d.B as int, d.Hk as int, d.Hv as int, d.Dk as int, d.Dv as int)
  }

  /** A launch the guard lets through is one the refinement theorems speak about, with one block a row. */
  lemma GuardLaunches(p: Addresses, d: Dims)
    requires Guard(p, d).Success?
    ensures d.B > 0 && d.Hk > 0 && d.Hv > 0 && d.Dk > 0 && d.Dv > 0
    ensures Launchable(ShapeFrom(d)) && Guard(p, d).rows as int == ShapeFrom(d).Rows()
  {
    hide Guard;
    GuardExact(p, d);
    GuardRows(p, d);
  }

  lemma GuardRows(p: Addresses, d: Dims)
    requires Guard(p, d).Success?
    ensures Guard(p, d).rows as int == d.B as int * d.Hv as int * d.Dv as int
  {
  }

  /** The coordinates of a row are the ones the kernel decodes at machine width. */
  lemma PlaceIsDecoded(p: Addresses, d: Dims, row: int64, t: int32)
    requires Guard(p, d).Success? && 0 <= row < Guard(p, d).rows && 0 <= t < d.Dk
    ensures Launchable(ShapeFrom(d)) && row as int < ShapeFrom(d).Rows()
    ensures d.B > 0 && d.Hk > 0 && d.Hv > 0 && d.Dv > 0
    ensures Admitted(d.B as int, d.Hk as int, d.Hv as int, d.Dk as int, d.Dv as int)
    ensures var i := Decode(d, row, t);
            PlaceOf(ShapeFrom(d), row as int) == Place(i.b as int, i.hv as int, i.dv as int, i.hk as int)
  {
    GuardLaunches(p, d);
    hide Guard, Admitted;
    var i := Decode(d, row, t);
    RowBijection(d.B as int, d.Hv as int, d.Dv as int, i.b as int, i.hv as int, i.dv as int);
  }

  lemma SpanEntry(x: Vec, index: nat, n: nat, t: nat)
    requires index * n + n <= |x| && t < n
    ensures index * n + t < |x| && Span(x, index, n)[t] == x[index * n + t]
  {
  }

  /** Flat indices of the cells that thread `t` of block `row` reads. */
  ghost predicate Addressed(s: Shape, row: nat, t: nat, qi: int, si: int, gi: int)
    requires Launchable(s) && row < s.Rows()
  {
    var p := PlaceOf(s, row);
    qi == (p.b * s.Hk + p.hk) * s.Dk + t && si == row * s.Dk + t && gi == p.b * s.Hv + p.hv
  }

  ghost predicate ReadsCells(s: Shape, u: Buffers, row: nat, t: nat, qi: int, si: int, gi: int)
    requires Launchable(s) && Allocated(s, u) && row < s.Rows() && t < s.Dk
  {
    var b := BlockOf(s, u, row);
    && 0 <= qi < |u.q| == |u.k| && b.q[t] == u.q[qi] && b.k[t] == u.k[qi]
    && 0 <= si < |u.state| && b.state[t] == u.state[si]
    && 0 <= gi < |u.g| == |u.beta| && b.g == u.g[gi] && b.beta == u.beta[gi]
    && row < |u.v| && b.v == u.v[row]
  }

  /** The fields of a block as parts of the buffers. */
  lemma BlockParts(s: Shape, u: Buffers, row: nat)
    requires Launchable(s) && Allocated(s, u) && row < s.Rows()
    ensures var (p, b) := (PlaceOf(s, row), BlockOf(s, u, row));
            && (p.b * s.Hk + p.hk) * s.Dk + s.Dk <= |u.q| == |u.k| && row * s.Dk + s.Dk <= |u.state|
            && p.b * s.Hv + p.hv < |u.g| == |u.beta| && row < |u.v|
            && b.q == Span(u.q, p.b * s.Hk + p.hk, s.Dk) && b.k == Span(u.k, p.b * s.Hk + p.hk, s.Dk)
            && b.state == Span(u.state, row, s.Dk)
            && b.g == u.g[p.b * s.Hv + p.hv] && b.beta == u.beta[p.b * s.Hv + p.hv] && b.v == u.v[row]
  {
    hide Launchable, PlaceOf, Span;
    InBounds(s, u, row);
  }

  lemma BlockCells(s: Shape, u: Buffers, row: nat, t: nat, qi: int, si: int, gi: int)
    requires Launchable(s) && Allocated(s, u) && row < s.Rows() && t < s.Dk && Addressed(s, row, t, qi, si, gi)
    ensures ReadsCells(s, u, row, t, qi, si, gi)
  {
    hide Launchable, Allocated, PlaceOf, Span, BlockOf;
    BlockParts(s, u, row);
    var head := PlaceOf(s, row).b * s.Hk + PlaceOf(s, row).hk;
    SpanEntry(u.q, head, s.Dk, t);
    SpanEntry(u.k, head, s.Dk, t);
    SpanEntry(u.state, row, s.Dk, t);
    assert qi == head * s.Dk + t && si == row * s.Dk + t;
  }

  lemma DecodedAddresses(p: Addresses, d: Dims, row: int64, t: int32)
    requires Guard(p, d).Success? && 0 <= row < Guard(p, d).rows && 0 <= t < d.Dk
    ensures Launchable(ShapeFrom(d)) && row as int < ShapeFrom(d).Rows()
    ensures d.B > 0 && d.Hk > 0 && d.Hv > 0 && d.Dv > 0
    ensures Admitted(d.B as int, d.Hk as int, d.Hv as int, d.Dk as int, d.Dv as int)
    ensures var i := Decode(d, row, t);
            Addressed(ShapeFrom(d), row as int, t as int, i.qi as int, i.si as int, i.gi as int)
  {
    PlaceIsDecoded(p, d, row, t);
    hide Guard, Admitted, PlaceOf;
  }

  /** Thread `t` of block `row` reads exactly the cells the decoded indices address. */
  lemma BlockReadsDecoded(p: Addresses, d: Dims, u: Buffers, row: int64, t: int32)
    requires Guard(p, d).Success? && 0 <= row < Guard(p, d).rows && 0 <= t < d.Dk
    requires d.B > 0 && d.Hk > 0 && d.Hv > 0 && d.Dv > 0 && Allocated(ShapeFrom(d), u)
    ensures Launchable(ShapeFrom(d)) && row as int < ShapeFrom(d).Rows()
    ensures Admitted(d.B as int, d.Hk as int, d.Hv as int, d.Dk as int, d.Dv as int)
    ensures var i := Decode(d, row, t);
            ReadsCells(ShapeFrom(d), u, row as int, t as int, i.qi as int, i.si as int, i.gi as int)
  {
    hide Guard, Admitted, Allocated, Addressed, ReadsCells, Launchable;
    DecodedAddresses(p, d, row, t);
    var i := Decode(d, row, t);
    BlockCells(ShapeFrom(d), u, row as int, t as int, i.qi as int, i.si as int, i.gi as int);
  }
}
