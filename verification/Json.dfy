/** JSON trees as Python's `json.loads` builds them. */
module Json {

  /** Leaves, up to Python's equality: `true` is the number one and `false` the number zero. */
  datatype Scalar = Null | Number(r: real) | Text(s: string)

  /** Objects ignore the order of their fields. */
  datatype Json = Atom(value: Scalar) | Arr(items: seq<Json>) | Obj(fields: map<string, Json>)
}
