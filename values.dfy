/** JavaScript values as the core passes them to trackers, to `fetch` and to the message
    loader: the seven shapes it uses and the engine's truthiness. */
module Values {

  import Text

  datatype Value =
    | Undefined
    | Null
    | Bool(b: bool)
    | Num(n: real)
    | Str(s: string)
    /** A `Date` object, by its time in milliseconds since the epoch. */
    | Date(ms: int)
    | Arr(items: seq<Value>)
    | Obj(fields: map<string, Value>)

  /** JavaScript truthiness (`NaN` is not a value of this model). */
  predicate Truthy(v: Value) {
    match v
    case Undefined => false
    case Null => false
    case Bool(b) => b
    case Num(n) => n != 0.0
    case Str(s) => s != ""
    case _ => true
  }

  /** `v.key` read off a parsed JSON value: `undefined` unless `v` is an object that has
      the key. (On `null` the engine throws instead; every caller here catches that and
      falls back to what it does for `undefined`.) */
  function Prop(v: Value, key: string): Value {
    if v.Obj? && key in v.fields then v.fields[key] else Undefined
  }

  /** `{ ...v }`: the own enumerable properties a spread copies out of a value.
      A string spreads to its characters under the keys "0", "1", ..., an array to its
      elements, an object to its fields, and everything else to nothing. */
  function Spread(v: Value): (r: map<string, Value>)
    ensures v.Obj? ==> r == v.fields
    ensures !v.Obj? && !v.Arr? && !v.Str? ==> r == map[]
  {
    match v
    case Obj(f) => f
    case Arr(items) => IndexMap(items)
    case Str(s) => IndexMap(seq(|s|, i requires 0 <= i < |s| => Str([s[i]])))
    case _ => map[]
  }

  /** The index-keyed properties of a list of values: "0" to the first, and so on. */
  function IndexMap(items: seq<Value>): map<string, Value>
    decreases |items|
  {
    if |items| == 0 then map[]
    else IndexMap(items[..|items| - 1])[Text.NatText(|items| - 1) := items[|items| - 1]]
  }
}
