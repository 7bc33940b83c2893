/** Small shared datatypes: optional values, results, and the JSON-like values the system stores. */
module Prelude {
  datatype Option<+T> = None | Some(value: T)

  datatype Result<+T, +E> = Ok(value: T) | Err(error: E)

  /** A UUID, as the 128-bit number it denotes; a fresh one is a parameter of the operation that draws it. */
  type Uuid = nat

  /** A field value: whatever JSON can carry. */
  datatype Value =
    | Null
    | Bool(b: bool)
    | Number(n: real)
    | Text(s: string)
    | List(items: seq<Value>)
    | Object(fields: map<string, Value>)

  /** The field assignments of one request, in the order they are read; no field occurs twice. */
  type FieldChanges = s: seq<(string, Value)> | forall i, j :: 0 <= i < j < |s| ==> s[i].0 != s[j].0

  function AsMap(changes: seq<(string, Value)>): map<string, Value> {
    if changes == [] then map[]
    else
      var last := |changes| - 1;
      AsMap(changes[..last])[changes[last].0 := changes[last].1]
  }

  lemma {:induction false} AsMapKey(changes: seq<(string, Value)>, f: string)
    ensures f in AsMap(changes) <==> exists i :: 0 <= i < |changes| && changes[i].0 == f
  {
    if changes == [] {
    } else {
      AsMapKey(changes[..|changes| - 1], f);
    }
  }
}
