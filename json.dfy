/** JavaScript values as the frontend handles them: the parsed JSON that comes
    back from the server or from a settings file, form values, and the plain
    objects that hold React state.  An object is a map from property names to
    values; the spread `{...a, ...b}` is then the right-biased map union `a + b`. */
module Json {

  import opened Options

  datatype Value =
    | Null
    | Bool(b: bool)
    | Num(n: real)
    | Str(s: string)
    | Arr(items: seq<Value>)
    | Obj(fields: map<string, Value>)

  type Object = map<string, Value>

  /** JavaScript truthiness: `false`, `0`, `""` and `null` are falsy; every
      array and object, even an empty one, is truthy. */
  predicate Truthy(v: Value) {
    match v
    case Null => false
    case Bool(b) => b
    case Num(n) => n != 0.0
    case Str(s) => s != ""
    case Arr(_) => true
    case Obj(_) => true
  }

  /** The own enumerable properties that `...v` copies into an object literal:
      the fields of an object, nothing for `null`, booleans and numbers. */
  function SpreadFields(v: Value): (m: Object)
    ensures v.Obj? ==> m == v.fields
    ensures v.Null? ==> m == map[]
  {
    if v.Obj? then v.fields else map[]
  }

  /** Property access `o.k`, with `None` for `undefined`. */
  function Get(o: Object, k: string): (r: Option<Value>)
    ensures r.Some? <==> k in o
    ensures r.Some? ==> r.value == o[k]
  {
    if k in o then Some(o[k]) else None
  }

  /** `o.k === v` for a primitive `v`: the property exists and holds `v`. */
  predicate PropIs(o: Object, k: string, v: Value) {
    k in o && o[k] == v
  }
}
