/** The JavaScript values that the library inspects with `typeof`,
    `Array.isArray` and property lookup, and the `TypeError` it throws. */
module Js {
  import opened StatusEnum

  /** A JavaScript value, as far as the library can tell values apart.
      - `Func(fid)` is a function, identified by an opaque token.
      - `Obj(oid, methods)` is a non-null, non-array object; `methods` holds
        the property names (own or inherited) whose value is a function, so
        `o[name]` is callable exactly when `name in methods`.
      - `StatusCode(s)` is a member of the `STATUS` enum. */
  datatype Value =
    | Undefined
    | Null
    | Bool(b: bool)
    | Num(n: int)
    | Str(s: string)
    | Func(fid: nat)
    | Obj(oid: nat, methods: set<string>)
    | Array(items: seq<Value>)
    | StatusCode(status: Status)

  /** `typeof v === 'object' && v !== null`. */
  predicate IsObject(v: Value) {
    v.Obj? || v.Array?
  }

  /** The names under which `v[name]` is a function. Arrays' inherited
      `Array.prototype` methods are not modelled. */
  function Callable(v: Value): set<string> {
    if v.Obj? then v.methods else {}
  }

  datatype Error = TypeError(message: string)
}
