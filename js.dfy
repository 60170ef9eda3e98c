/** JSON-shaped values as the browser code sees them once `response.json()`
    has run, with JavaScript's truthiness. Numbers are integers here. */
module Js {
  import opened Wrappers

  datatype Value =
    | Undefined
    | Null
    | Bool(b: bool)
    | Num(n: int)
    | Str(s: string)
    | Arr(items: seq<Value>)
    | Obj(entries: seq<(string, Value)>)

  /** `!!v` */
  predicate Truthy(v: Value) {
    match v
    case Undefined => false
    case Null => false
    case Bool(b) => b
    case Num(n) => n != 0
    case Str(s) => s != ""
    case Arr(_) => true
    case Obj(_) => true
  }

  /** `Array.isArray(v)` */
  predicate IsArray(v: Value) {
    v.Arr?
  }

  /** Property lookup `o[k]` on an object's own entries (an object holds each
      key once): the entry with that key, `undefined` when there is none. */
  function Lookup(entries: seq<(string, Value)>, k: string): (r: Value)
    ensures (forall i :: 0 <= i < |entries| ==> entries[i].0 != k) ==> r == Undefined
    ensures r != Undefined ==> exists i :: 0 <= i < |entries| && entries[i] == (k, r)
    decreases |entries|
  {
    if entries == [] then Undefined
    else if entries[0].0 == k then entries[0].1
    else Lookup(entries[1..], k)
  }

  /** `o[k]` for any value: only objects have properties in this model. */
  function Get(v: Value, k: string): Value {
    if v.Obj? then Lookup(v.entries, k) else Undefined
  }

  /** `a || b` */
  function Or(a: Value, b: Value): Value {
    if Truthy(a) then a else b
  }
}
