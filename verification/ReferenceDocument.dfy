/** The checkpoint document of `save_reference` and `load_reference`, as a JSON tree. */
module ReferenceDocument {
  import opened Tensors
  import opened Json

  /** A NumPy array: its shape, and what `tolist` shows of it. */
  datatype NdArray = NdArray(shape: seq<nat>, content: Nested)

  datatype Nested = Cell(r: real) | Row(items: seq<Nested>)

  ghost predicate Fits(x: Nested, shape: seq<nat>)
    decreases |shape|
  {
    if shape == [] then x.Cell?
    else x.Row? && |x.items| == shape[0] && forall i | 0 <= i < |x.items| :: Fits(x.items[i], shape[1..])
  }

  /** `.tolist()`. */
  function ToList(x: Nested): Json {
    match x
    case Cell(r) => Atom(Number(r))
    case Row(items) => Arr(seq(|items|, i requires 0 <= i < |items| => ToList(items[i])))
  }

  /** What NumPy makes of a leaf; a number is itself. */
  ghost predicate Converts(convert: Scalar -> Option<real>) {
    forall r :: convert(Number(r)) == Some(r)
  }

  /** `np.array(j, dtype=np.float64)`; ragged lists and objects are refused. */
  function ToArray(j: Json, convert: Scalar -> Option<real>): Option<NdArray>
    decreases j, 1, 0
  {
    match j
    case Atom(v) => if convert(v).Some? then Some(NdArray([], Cell(convert(v).value))) else None
    case Obj(_) => None
    case Arr(items) =>
      if items == [] then Some(NdArray([0], Row([])))
      else
        var parts := ToArrays(j, |items|, convert);
        if parts.None? then None
        else Some(NdArray([|items|] + parts.value[0].shape,
                          Row(seq(|items|, i requires 0 <= i < |items| => parts.value[i].content))))
  }

  /** The first `n` items, when each of them is an array and all have the same shape. */
  function ToArrays(j: Json, n: nat, convert: Scalar -> Option<real>): (r: Option<seq<NdArray>>)
    requires j.Arr? && 0 < n <= |j.items|
    ensures r.Some? ==> |r.value| == n
    decreases j, 0, n
  {
    var last := ToArray(j.items[n - 1], convert);
    if last.None? then None
    else if n == 1 then Some([last.value])
    else
      var before := ToArrays(j, n - 1, convert);
      if before.None? || before.value[0].shape != last.value.shape then None else Some(before.value + [last.value])
  }

  const KIND := "analytic_numpy_reference"

  /** What `save_reference` writes. */
  function Save(w: NdArray, step: int): (j: Json)
    ensures j.Obj? && j.fields.Keys == {"schema", "kind", "step", "weights"}
    ensures j.fields["schema"] == Atom(Number(1.0)) && j.fields["kind"] == Atom(Text("analytic_numpy_reference"))
    ensures j.fields["step"] == Atom(Number(step as real))
  {
    Obj(map["schema" := Atom(Number(1.0)), "kind" := Atom(Text(KIND)), "step" := Atom(Number(step as real)),
            "weights" := ToList(w.content)])
  }

  datatype Loaded = Loaded(weights: NdArray, step: Json) | NotRecognized | OtherError

  /** `load_reference`, on any JSON document. */
  function Load(j: Json, convert: Scalar -> Option<real>): Loaded {
    if !j.Obj? then OtherError
    else if "schema" !in j.fields || j.fields["schema"] != Atom(Number(1.0))
            || "kind" !in j.fields || j.fields["kind"] != Atom(Text(KIND)) then NotRecognized
    else if "weights" !in j.fields || ToArray(j.fields["weights"], convert).None? || "step" !in j.fields then OtherError
    else Loaded(ToArray(j.fields["weights"], convert).value, j.fields["step"])
  }

  // ---------------------------------------------------------------- what survives

  /** The axes a nested list still shows: nothing is left below an axis of length zero. */
  function Visible(shape: seq<nat>): seq<nat> {
    if shape == [] || shape[0] == 0 then shape[..if shape == [] then 0 else 1] else [shape[0]] + Visible(shape[1..])
  }

  lemma {:induction false} VisibleExactly(shape: seq<nat>)
    ensures Visible(shape) == shape <==> forall i | 0 <= i < |shape| - 1 :: shape[i] > 0
    decreases |shape|
  {
    if shape != [] {
      var rest := shape[1..];
      VisibleExactly(rest);
      assert shape == [shape[0]] + rest;
      if shape[0] > 0 {
        if Visible(shape) == shape {
          assert Visible(shape)[1..] == Visible(rest);
          forall i | 0 <= i < |shape| - 1
            ensures shape[i] > 0
          {
            if i > 0 { assert rest[i - 1] > 0; }
          }
        } else {
          var i :| 0 <= i < |rest| - 1 && rest[i] == 0;
          assert shape[i + 1] == 0;
        }
      } else {
        assert Visible(shape) == [shape[0]];
      }
    }
  }

  /** Writing an array and reading it back keeps the content and the visible axes. */
  lemma {:induction false} ListRoundTrip(x: Nested, shape: seq<nat>, convert: Scalar -> Option<real>)
    requires Fits(x, shape) && Converts(convert)
    ensures ToArray(ToList(x), convert) == Some(NdArray(Visible(shape), x))
    decreases |shape|
  {
    if shape != [] {
      var j := ToList(x);
      if x.items != [] {
        ItemsRoundTrip(x, shape, convert, |x.items|);
        var parts := ToArrays(j, |x.items|, convert).value;
        assert parts[0].shape == Visible(shape[1..]);
        assert seq(|x.items|, i requires 0 <= i < |x.items| => parts[i].content) == x.items;
      } else {
        assert shape[..1] == [0];
      }
    }
  }

  lemma {:induction false} ItemsRoundTrip(x: Nested, shape: seq<nat>, convert: Scalar -> Option<real>, n: nat)
    requires Fits(x, shape) && Converts(convert) && shape != [] && 0 < n <= |x.items|
    ensures var r := ToArrays(ToList(x), n, convert);
            r.Some? && forall i | 0 <= i < n :: r.value[i] == NdArray(Visible(shape[1..]), x.items[i])
    decreases |shape|, n
  {
    ListRoundTrip(x.items[n - 1], shape[1..], convert);
    if n > 1 {
      ItemsRoundTrip(x, shape, convert, n - 1);
    }
  }

  /** Only leaves that are numbers convert, each to itself. */
  ghost predicate NumbersOnly(convert: Scalar -> Option<real>) {
    Converts(convert) && forall v :: convert(v).Some? ==> v == Number(convert(v).value)
  }

  /** What becomes an array is a regular nested list of numbers, and the array shows that very list. */
  lemma {:induction false} ArrayShows(j: Json, convert: Scalar -> Option<real>)
    requires ToArray(j, convert).Some? && NumbersOnly(convert)
    ensures var a := ToArray(j, convert).value; Fits(a.content, a.shape) && ToList(a.content) == j
    decreases j, 1, 0
  {
    var a := ToArray(j, convert).value;
    if j.Arr? && j.items != [] {
      ArraysShow(j, |j.items|, convert);
      var parts := ToArrays(j, |j.items|, convert).value;
      assert a.shape[1..] == parts[0].shape;
      forall i | 0 <= i < |j.items|
        ensures Fits(a.content.items[i], a.shape[1..]) && ToList(a.content.items[i]) == j.items[i]
      {
        assert a.content.items[i] == parts[i].content;
      }
    }
  }

  lemma {:induction false} ArraysShow(j: Json, n: nat, convert: Scalar -> Option<real>)
    requires j.Arr? && 0 < n <= |j.items| && ToArrays(j, n, convert).Some? && NumbersOnly(convert)
    ensures var r := ToArrays(j, n, convert).value;
            forall i | 0 <= i < n ::
              r[i].shape == r[0].shape && Fits(r[i].content, r[i].shape) && ToList(r[i].content) == j.items[i]
    decreases j, 0, n
  {
    ArrayShows(j.items[n - 1], convert);
    if n > 1 {
      ArraysShow(j, n - 1, convert);
    }
  }

  /** Saving and loading returns the step, the content, and the visible axes of the weights. */
  lemma LoadOfSave(w: NdArray, step: int, convert: Scalar -> Option<real>)
    requires Fits(w.content, w.shape) && Converts(convert)
    ensures Load(Save(w, step), convert) == Loaded(NdArray(Visible(w.shape), w.content), Atom(Number(step as real)))
  {
    ListRoundTrip(w.content, w.shape, convert);
  }

  /** So the weights come back as they were exactly when no axis but the last has length zero. */
  lemma CheckpointExact(w: NdArray, step: int, convert: Scalar -> Option<real>)
    requires Fits(w.content, w.shape) && Converts(convert)
    ensures Load(Save(w, step), convert) == Loaded(w, Atom(Number(step as real)))
            <==> forall i | 0 <= i < |w.shape| - 1 :: w.shape[i] > 0
  {
    LoadOfSave(w, step, convert);
    VisibleExactly(w.shape);
  }

  /** Anything else than a document of schema 1 and this kind is refused; an object that is not one raises
      the contract's own error. */
  lemma ForeignRefused(j: Json, convert: Scalar -> Option<real>)
    ensures Load(j, convert).NotRecognized? <==>
        j.Obj? && !("schema" in j.fields && j.fields["schema"] == Atom(Number(1.0))
                    && "kind" in j.fields && j.fields["kind"] == Atom(Text("analytic_numpy_reference")))
    ensures Load(j, convert).Loaded? <==>
        && j.Obj? && !Load(j, convert).NotRecognized?
        && "weights" in j.fields && ToArray(j.fields["weights"], convert).Some? && "step" in j.fields
    ensures Load(j, convert).Loaded? ==>
        && Load(j, convert) == Loaded(ToArray(j.fields["weights"], convert).value, j.fields["step"])
    ensures Load(j, convert).Loaded? ==>
        && j.Obj? && {"schema", "kind", "weights", "step"} <= j.fields.Keys
        && j.fields["schema"] == Atom(Number(1.0)) && j.fields["kind"] == Atom(Text("analytic_numpy_reference"))
  {
  }
}
