/** JavaScript values as the server and client see them: JSON payloads,
    decoded token claims, request bodies and `req.user` objects.

    Numbers are modelled as integers (every number the core handles is a
    UNIX time or a small count); NaN, fractions and the properties every
    object inherits from its prototype are not modelled. */
module Json {
  import opened Wrappers
  import opened Text

  datatype Value =
    | Undefined
    | Null
    | Bool(b: bool)
    | Num(n: int)
    | Str(s: string)
    | Arr(items: seq<Value>)
    | Obj(fields: map<string, Value>)

  /** JavaScript truthiness: `!v` is `!Truthy(v)`. */
  predicate Truthy(v: Value) {
    match v
    case Undefined => false
    case Null => false
    case Bool(b) => b
    case Num(n) => n != 0
    case Str(s) => s != ""
    case Arr(_) => true
    case Obj(_) => true
  }

  /** `typeof v === 'object'` (true of `null` and of arrays too). */
  predicate IsObjectType(v: Value) {
    v.Null? || v.Arr? || v.Obj?
  }

  /** An own named property of a plain object: `'k' in v` holds exactly
      when this is `Some`, and then `v.k` is its value. */
  function Field(v: Value, k: string): Option<Value> {
    if v.Obj? && k in v.fields then Some(v.fields[k]) else None
  }

  /** `v?.k`: `undefined` for a missing property and for a nullish `v`. */
  function Prop(v: Value, k: string): Value {
    match Field(v, k)
    case Some(x) => x
    case None => Undefined
  }

  /** `'k' in v && typeof v.k === 'string'` */
  predicate HasString(v: Value, k: string) {
    Field(v, k).Some? && Field(v, k).value.Str?
  }

  /** `'k' in v && typeof v.k === 'number'` */
  predicate HasNumber(v: Value, k: string) {
    Field(v, k).Some? && Field(v, k).value.Num?
  }

  /** The own enumerable properties `{...v}` copies from an object or an
      array (an array's are its indices); other values contribute none. */
  function Spread(v: Value): (m: map<string, Value>)
    ensures v.Obj? ==> m == v.fields
    ensures v.Arr? ==> forall i :: 0 <= i < |v.items| ==> NatToString(i) in m && m[NatToString(i)] == v.items[i]
  {
    match v
    case Obj(fields) => fields
    case Arr(items) => IndexMap(items, |items|)
    case _ => map[]
  }

  /** The first `n` elements of `items` keyed by their decimal index. */
  function IndexMap(items: seq<Value>, n: nat): (m: map<string, Value>)
    requires n <= |items|
    ensures |m| <= n
    ensures forall i :: 0 <= i < n ==> NatToString(i) in m && m[NatToString(i)] == items[i]
  {
    if n == 0 then map[]
    else
      var m := IndexMap(items, n - 1);
      forall i | 0 <= i < n - 1
        ensures NatToString(i) != NatToString(n - 1)
      {
        if NatToString(i) == NatToString(n - 1) {
          NatToStringInjective(i, n - 1);
        }
      }
      m[NatToString(n - 1) := items[n - 1]]
  }
}
