/** Small value types shared by the evaluation harness model. */
module Values {

  /** A key that may be absent from a record, or a value that may be JSON null. */
  datatype Option<+T> = None | Some(value: T)

  /** A JSON value, for the parts of a council output that the harness copies
      without looking inside them (the stage-2 ranking aggregate). Numbers are
      integers: floating point is not modelled. */
  datatype Json =
    | Null
    | Bool(b: bool)
    | Number(n: int)
    | Str(s: string)
    | Array(items: seq<Json>)
    | Object(fields: map<string, Json>)

  function Min(a: nat, b: nat): (m: nat)
    ensures m <= a && m <= b
    ensures m == a || m == b
  {
    if a <= b then a else b
  }
}
