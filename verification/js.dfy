/** JavaScript values as the facades see them: the response bodies the SDKs
    hand back, the truthiness that `||` tests, the property and index reads
    (`a.b`, `a[0]`, `a?.b`) the facades perform on those bodies, and the
    outcome of an awaited call, which either returns or throws.
 */
module Js {
  import opened Optional
  import opened Numbers

  /** A JavaScript value as it appears in a decoded response body. Numbers
      are exact reals; `NaN` is not represented. */
  datatype Json =
    | JUndefined
    | JNull
    | JBool(b: bool)
    | JNum(n: real)
    | JStr(s: string)
    | JArr(elems: seq<Json>)
    | JObj(fields: map<string, Json>)

  /** What a call can throw: a `TypeError` raised by the language itself, an
      `Error` raised by the facade, or any value raised by a collaborator. */
  datatype Exception =
    | TypeError(message: string)
    | Error(message: string)
    | Raised(value: Json)

  /** The settled state of an awaited call. */
  datatype Outcome<+T> = Returned(value: T) | Threw(exception: Exception)

  predicate FalsyString(s: string) {
    s == ""
  }

  predicate FalsyNumber(n: real) {
    n == 0.0
  }

  /** ECMAScript ToBoolean: `undefined`, `null`, `false`, `0` and `''` are
      falsy; every array and every object, even an empty one, is truthy. */
  predicate Truthy(v: Json) {
    match v
    case JUndefined => false
    case JNull => false
    case JBool(b) => b
    case JNum(n) => !FalsyNumber(n)
    case JStr(s) => !FalsyString(s)
    case JArr(_) => true
    case JObj(_) => true
  }

  /** `a || b`: the left operand when it is truthy, the right one otherwise. */
  function Or(a: Json, b: Json): Json {
    if Truthy(a) then a else b
  }

  /** `v || d` for an optional string field of an options object. */
  function StringOr(v: Option<string>, d: string): (r: string)
    ensures r == d || (v == Some(r) && r != "")
  {
    match v
    case Some(s) => if FalsyString(s) then d else s
    case None => d
  }

  /** `v || d` for an optional number field of an options object. */
  function NumberOr(v: Option<real>, d: real): (r: real)
    ensures r == d || (v == Some(r) && r != 0.0)
  {
    match v
    case Some(n) => if FalsyNumber(n) then d else n
    case None => d
  }

  function StringField(v: Option<string>): Json {
    match v
    case Some(s) => JStr(s)
    case None => JUndefined
  }

  function NumberField(v: Option<real>): Json {
    match v
    case Some(n) => JNum(n)
    case None => JUndefined
  }

  /** The typed defaulting of option fields is JavaScript's `||` on the
      field's value, with an absent field read as `undefined`. */
  lemma TypedDefaultingIsOr(s: Option<string>, d: string, n: Option<real>, e: real)
    ensures JStr(StringOr(s, d)) == Or(StringField(s), JStr(d))
    ensures JNum(NumberOr(n, e)) == Or(NumberField(n), JNum(e))
  {
  }

  predicate IsNullish(v: Json) {
    v.JUndefined? || v.JNull?
  }

  /** `v.key` for a key that names neither an array index nor a built-in
      property (none of the keys the facades read does). Reading a property
      of `null` or `undefined` throws a `TypeError`; a missing property reads
      as `undefined`. */
  function Get(v: Json, key: string): (r: Outcome<Json>)
    ensures r.Threw? <==> IsNullish(v)
    ensures v.JObj? && key in v.fields ==> r == Returned(v.fields[key])
    ensures v.JObj? && key !in v.fields ==> r == Returned(JUndefined)
  {
    match v
    case JUndefined => Threw(TypeError("Cannot read properties of undefined"))
    case JNull => Threw(TypeError("Cannot read properties of null"))
    case JObj(fields) => Returned(if key in fields then fields[key] else JUndefined)
    case _ => Returned(JUndefined)
  }

  /** `v?.key`: optional chaining reads `undefined` off a nullish base instead of throwing. */
  function GetOptional(v: Json, key: string): (r: Json)
    ensures IsNullish(v) ==> r == JUndefined
    ensures !IsNullish(v) ==> Get(v, key) == Returned(r)
  {
    if IsNullish(v) then JUndefined else Get(v, key).value
  }

  /** `v[i]`: an array element, a one-character string, or the property named
      by the decimal text of `i`; out of range reads as `undefined`, and
      indexing `null` or `undefined` throws a `TypeError`. */
  function Index(v: Json, i: nat): (r: Outcome<Json>)
    ensures r.Threw? <==> IsNullish(v)
    ensures v.JArr? && i < |v.elems| ==> r == Returned(v.elems[i])
    ensures v.JArr? && i >= |v.elems| ==> r == Returned(JUndefined)
  {
    match v
    case JUndefined => Threw(TypeError("Cannot read properties of undefined"))
    case JNull => Threw(TypeError("Cannot read properties of null"))
    case JArr(es) => Returned(if i < |es| then es[i] else JUndefined)
    case JStr(s) => Returned(if i < |s| then JStr([s[i]]) else JUndefined)
    case JObj(fields) => Returned(if Decimal(i) in fields then fields[Decimal(i)] else JUndefined)
    case _ => Returned(JUndefined)
  }

  /** `typeof v === 'number'`. */
  predicate IsNumber(v: Json) {
    v.JNum?
  }

  /** `Array.isArray(v)`. */
  predicate IsArray(v: Json) {
    v.JArr?
  }

  /** A list of numbers as a JavaScript array's elements. */
  function NumberElems(xs: seq<real>): (r: seq<Json>)
    ensures |r| == |xs|
    ensures forall i :: 0 <= i < |xs| ==> r[i] == JNum(xs[i])
  {
    seq(|xs|, i requires 0 <= i < |xs| => JNum(xs[i]))
  }

  /** A list of strings as a JavaScript array's elements. */
  function StringElems(ss: seq<string>): (r: seq<Json>)
    ensures |r| == |ss|
    ensures forall i :: 0 <= i < |ss| ==> r[i] == JStr(ss[i])
  {
    seq(|ss|, i requires 0 <= i < |ss| => JStr(ss[i]))
  }

  /** An awaited SDK call whose response is then handled, inside a `try`
      whose `catch` logs the error and throws it again: whatever the call or
      the handling throws reaches the caller unchanged, with no retry and no
      translation. The log line is not modelled. */
  function Rethrowing<Q, T>(request: Q, call: Q -> Outcome<Json>, handle: Json -> Outcome<T>): (r: Outcome<T>)
    ensures call(request).Threw? ==> r == Threw(call(request).exception)
    ensures call(request).Returned? ==> r == handle(call(request).value)
  {
    match call(request)
    case Threw(e) => Threw(e)
    case Returned(response) => handle(response)
  }
}
