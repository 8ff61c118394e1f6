/**
 * The values `JSON.parse` can produce, and the two JavaScript behaviours the
 * chat route relies on: reading a property and calling `map`.
 * Numbers are kept as integers; the route never looks at them.
 */
module JsValues {

  datatype Value =
    | Null
    | Bool(b: bool)
    | Number(n: int)
    | Str(s: string)
    | Array(elements: seq<Value>)
    | Object(fields: map<string, Value>)

  /** What `v.key` evaluates to: a TypeError on null, `undefined` when absent. */
  datatype Access = TypeError | Undefined | Defined(value: Value)

  /**
   * Property read `v.key` for a key that no built-in prototype defines
   * (`messages`, `role` and `content`, the keys the route reads with a plain
   * property access; the call `messages.map` is `HasMap`): only an object's
   * own field is found, every other non-null value yields `undefined`.
   */
  function Property(v: Value, key: string): (a: Access)
    ensures a.TypeError? <==> v.Null?
    ensures a.Defined? <==> v.Object? && key in v.fields
    ensures a.Defined? ==> a.value == v.fields[key]
  {
    match v
    case Null => TypeError
    case Object(fields) => if key in fields then Defined(fields[key]) else Undefined
    case _ => Undefined
  }

  /** `x.map(f)` can be called only on an array; on anything else it throws. */
  predicate HasMap(a: Access): (b: bool)
    ensures a.TypeError? || a.Undefined? ==> !b
    ensures a.Defined? ==> (b <==> a.value.Array?)
  {
    a.Defined? && a.value.Array?
  }
}
