/** JSON values as the quiz backend and the frontend exchange them. Numbers are integers here. */
module Json {
  import opened Basics

  datatype Value =
    | Null
    | Bool(b: bool)
    | Num(n: int)
    | Str(s: string)
    | Arr(items: seq<Value>)
    | Obj(fields: map<string, Value>)

  /** Python's `v[key]`: the field of a dict, or None where Python raises (not a dict, or no such key). */
  function Field(v: Value, key: string): (r: Option<Value>)
    ensures r.Some? <==> v.Obj? && key in v.fields
    ensures r.Some? ==> r.value == v.fields[key]
  {
    if v.Obj? && key in v.fields then Some(v.fields[key]) else None
  }

  /** Python's `n == v` for an integer `n` and a decoded JSON value: `bool` is a subclass of `int`,
      so `1 == True` and `0 == False` hold as well. */
  predicate EqualsInt(v: Value, n: int) {
    match v
    case Num(m) => m == n
    case Bool(b) => (b && n == 1) || (!b && n == 0)
    case _ => false
  }
}
