/** The JSON values that request bodies and the authentication service's replies carry. */
module Json {
  import opened Wrappers

  /** Numbers are exact reals (no floating-point rounding); arrays and objects nested inside
      a body are never inspected by the service, so their contents are not modelled. */
  datatype Value = JNull | JBool(b: bool) | JNumber(n: real) | JString(s: string) | JComposite

  /** A JSON object: member name to value. */
  type Object = map<string, Value>

  /** Every member of `a` is a member of `b` with the same value. */
  predicate Within(a: Object, b: Object)
  {
    forall k :: k in a ==> k in b && a[k] == b[k]
  }

  /** `obj.get(key)`: the member's value, or None when the member is absent. */
  function Get(obj: Object, key: string): Option<Value>
  {
    if key in obj then Some(obj[key]) else None
  }
}
