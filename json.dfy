/** Decoded JSON values, as `JSON.parse` hands them to the webhook handler, and
    the two pieces of JavaScript semantics the handler applies to them: reading a
    property and testing a value for truthiness. */
module Json {
  import opened Wrappers

  /** A value produced by `JSON.parse`. Numbers are the finite doubles it yields,
      taken as reals; an object is a map from member name to value (a repeated
      member name keeps its last value, as `JSON.parse` does). */
  datatype Value =
    | Null
    | Bool(b: bool)
    | Num(n: real)
    | Str(s: string)
    | Array(items: seq<Value>)
    | Object(fields: map<string, Value>)

  /** `typeof v === 'object' && v !== null`: holds for arrays as well as objects. */
  predicate IsObjectLike(v: Value) {
    v.Array? || v.Object?
  }

  /** The property read `v[key]` for the member names this core reads
      (`message_handle`, `from_number`, `is_outbound`); `None` is `undefined`.
      Arrays and scalars carry none of these names. */
  function Get(v: Value, key: string): Option<Value> {
    if v.Object? && key in v.fields then Some(v.fields[key]) else None
  }

  /** JavaScript truthiness of a property read: `undefined`, `null`, `false`,
      `0` and `""` are falsy, everything else is truthy. */
  predicate Truthy(x: Option<Value>) {
    match x
    case None => false
    case Some(Null) => false
    case Some(Bool(b)) => b
    case Some(Num(n)) => n != 0.0
    case Some(Str(s)) => s != ""
    case Some(Array(_)) => true
    case Some(Object(_)) => true
  }

  /** The falsy values are exactly the five JavaScript ones a JSON value can be. */
  lemma FalsyValues(x: Option<Value>)
    ensures !Truthy(x) <==>
      x == None || x == Some(Null) || x == Some(Bool(false)) || x == Some(Num(0.0)) || x == Some(Str(""))
  {
  }
}
