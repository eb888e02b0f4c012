/** Tensors of the reference code as values: a shape and a total reading function.

    The source rebinds whole arrays (`s = np.where(...)`) and never writes into an input, so inputs
    and rebound temporaries are values; what it writes in place is a Dafny array in the methods. */
module Tensors {
  import opened Vectors

  datatype Option<+T> = None | Some(value: T)

  datatype Result<+T> = Success(value: T) | ContractError

  datatype Tensor3 = Tensor3(n0: nat, n1: nat, n2: nat, at: (int, int, int) -> real)

  datatype Tensor4 = Tensor4(n0: nat, n1: nat, n2: nat, n3: nat, at: (int, int, int, int) -> real)

  datatype Mask = Mask(n0: nat, n1: nat, at: (int, int) -> bool)

  predicate SameShape3(x: Tensor3, y: Tensor3) {
    x.n0 == y.n0 && x.n1 == y.n1 && x.n2 == y.n2
  }

  predicate SameShape4(x: Tensor4, y: Tensor4) {
    x.n0 == y.n0 && x.n1 == y.n1 && x.n2 == y.n2 && x.n3 == y.n3
  }

  /** The last axis at fixed leading indices. */
  function Fiber3(x: Tensor3, i: int, j: int): (r: Vec)
    ensures |r| == x.n2
  {
    seq(x.n2, l requires 0 <= l < x.n2 => x.at(i, j, l))
  }

  function Fiber4(x: Tensor4, i: int, j: int, k: int): (r: Vec)
    ensures |r| == x.n3
  {
    seq(x.n3, l requires 0 <= l < x.n3 => x.at(i, j, k, l))
  }

  /** `np.repeat(x, r, axis=2)`. */
  function Repeat(x: Tensor4, r: nat): (y: Tensor4)
    requires r > 0
    ensures y.n3 == x.n3
    ensures forall i, j, k :: Fiber4(y, i, j, k) == Fiber4(x, i, j, k / r)
  {
    Tensor4(x.n0, x.n1, x.n2 * r, x.n3, (i, j, k, l) => x.at(i, j, k / r, l))
  }

  function Zeros4(n0: nat, n1: nat, n2: nat, n3: nat): (r: Tensor4)
    ensures r.n0 == n0 && r.n1 == n1 && r.n2 == n2 && r.n3 == n3 && forall i, j, k, l :: r.at(i, j, k, l) == 0.0
  {
    Tensor4(n0, n1, n2, n3, (i, j, k, l) => 0.0)
  }
}
