/**
 * The flat JSON records exchanged between the backend and the search page.
 * A record is a map from keys to scalar values; nested arrays and objects
 * never occur in these records.
 */
module Json {
  import opened Wrappers

  datatype Value = Null | Bool(b: bool) | Num(x: real) | Str(s: string)

  type Object = map<string, Value>

  /** Property access: `None` stands for a missing key (`undefined` in JavaScript). */
  function Get(o: Object, key: string): (v: Option<Value>)
    ensures v.Some? <==> key in o
    ensures v.Some? ==> v.value == o[key]
  {
    if key in o then Some(o[key]) else None
  }

  /**
   * Truthiness of a possibly missing value. JavaScript (`&&`, `||`) and
   * Python (`or`) agree on these values: missing, null, false, 0 and the
   * empty string are falsy, everything else is truthy.
   */
  predicate Truthy(v: Option<Value>)
    ensures !Truthy(v) <==>
              v == None || v == Some(Null) || v == Some(Bool(false)) || v == Some(Num(0.0)) || v == Some(Str(""))
  {
    match v
    case None => false
    case Some(Null) => false
    case Some(Bool(b)) => b
    case Some(Num(x)) => x != 0.0
    case Some(Str(s)) => s != ""
  }
}
