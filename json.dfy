/**
  A small model of `serde_json::Value`: the values the server reads from requests and
  writes into responses. Objects are maps from keys to values; numbers are integers,
  which is every number the modelled code produces or inspects.
*/
module Json {
  import opened Results

  datatype Value =
    | Null
    | Bool(b: bool)
    | Number(n: int)
    | Str(s: string)
    | Array(items: seq<Value>)
    | Object(fields: map<string, Value>)

  /** serde_json's read-only `value[key]`: the member when `v` is an object holding `key`,
      `Null` for a missing key and for every value that is not an object. */
  function Get(v: Value, key: string): (r: Value)
    ensures v.Object? && key in v.fields ==> r == v.fields[key]
    ensures !(v.Object? && key in v.fields) ==> r == Null
  {
    if v.Object? && key in v.fields then v.fields[key] else Null
  }

  /** `Value::as_str`. */
  function AsStr(v: Value): Option<string> {
    if v.Str? then Some(v.s) else None
  }

  /** An array of JSON strings, as `json!` builds from a `Vec<String>`. */
  function StrArray(xs: seq<string>): (r: Value)
    ensures r.Array? && |r.items| == |xs|
    ensures forall i :: 0 <= i < |xs| ==> r.items[i] == Str(xs[i])
  {
    Array(seq(|xs|, i requires 0 <= i < |xs| => Str(xs[i])))
  }

  /** An `Option<String>` as serde writes it: the string, or `null`. */
  function OptStr(o: Option<string>): Value {
    match o
    case Some(s) => Str(s)
    case None => Null
  }

  /** The empty object `{}`. */
  const EmptyObject: Value := Object(map[])
}
