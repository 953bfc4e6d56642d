/**
 * The JavaScript values the extension stores in `chrome.storage` (log entries, settings):
 * plain objects with string keys whose values are strings, numbers, booleans, string
 * arrays, nested objects, `null` or `undefined`. Object spread `{ ...a, ...b }` is map union, right wins.
 */
module Js {
  import opened Text

  datatype Value =
    | Undefined
    | Null
    | Bool(b: bool)
    | Num(n: int)
    | Str(s: string)
    | StrList(items: seq<string>)
    | Obj(fields: map<string, Value>)

  type Object = map<string, Value>

  /** `o[k]`: a missing property reads as `undefined`. */
  function Get(o: Object, k: string): Value {
    if k in o then o[k] else Undefined
  }

  /** ECMAScript ToBoolean. */
  predicate Truthy(v: Value) {
    match v
    case Undefined => false
    case Null => false
    case Bool(b) => b
    case Num(n) => n != 0
    case Str(s) => s != ""
    case StrList(_) => true
    case Obj(_) => true
  }

  /** `a || b`. */
  function Or(a: Value, b: Value): (r: Value)
    ensures Truthy(a) ==> r == a
    ensures !Truthy(a) ==> r == b
  {
    if Truthy(a) then a else b
  }

  /** `{ ...base, ...over }`: every property of `over` wins, the rest come from `base`. */
  function Spread(base: Object, over: Object): (r: Object)
    ensures r.Keys == base.Keys + over.Keys
    ensures forall k :: k in over ==> r[k] == over[k]
    ensures forall k :: k in base && k !in over ==> r[k] == base[k]
  {
    base + over
  }

  /** `String(v)`. Arrays render as their items joined by ",". */
  function ToJsString(v: Value): string {
    match v
    case Undefined => "undefined"
    case Null => "null"
    case Bool(b) => if b then "true" else "false"
    case Num(n) => IntToString(n)
    case Str(s) => s
    case StrList(items) => Join(items, ",")
    case Obj(_) => "[object Object]"
  }

  /** `{ ...v }` for a value stored where an object is expected: non-objects contribute no properties. */
  function Fields(v: Value): Object {
    if v.Obj? then v.fields else map[]
  }
}
