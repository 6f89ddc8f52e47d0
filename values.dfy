/** Python values as they cross the channel between two processes, and the few
    built-in operations on them that the dispatch code relies on. */
module Values {

  datatype Option<+T> = None | Some(value: T)

  /** A Python value: the records exchanged over a channel are dictionaries keyed
      by strings; arguments and results are arbitrary values. `VObject` stands for
      any other object (a function, an instance) by its identity. */
  datatype Value =
    | VNone
    | VBool(b: bool)
    | VInt(i: int)
    | VFloat(x: real)
    | VStr(s: string)
    | VList(items: seq<Value>)
    | VDict(entries: map<string, Value>)
    | VObject(id: nat)

  /** `d.get(key, default)` */
  function Get(d: map<string, Value>, key: string, default: Value): Value
  {
    if key in d then d[key] else default
  }

  /** `d.pop(key, default)`: the value stored under `key` (or `default` when there is
      none) together with the dictionary as it is after the removal. */
  function Pop(d: map<string, Value>, key: string, default: Value): (r: (Value, map<string, Value>))
    ensures key in d ==> r.0 == d[key]
    ensures key !in d ==> r.0 == default
    ensures r.1.Keys == d.Keys - {key}
    ensures forall k :: k in r.1 ==> r.1[k] == d[k]
  {
    (Get(d, key, default), d - {key})
  }

  /** Python truthiness (`bool(v)`); objects without `__bool__` or `__len__` are true. */
  predicate Truthy(v: Value)
  {
    match v
    case VNone => false
    case VBool(b) => b
    case VInt(i) => i != 0
    case VFloat(x) => x != 0.0
    case VStr(s) => s != ""
    case VList(items) => items != []
    case VDict(entries) => entries != map[]
    case VObject(_) => true
  }
}
