/** JSON values as the source handles them after `JSON.parse`, with
    JavaScript's truthiness and the optional-chaining property reads
    (`v?.key`, `v?.[i]`) used on them. `JSON.parse` and `JSON.stringify`
    themselves stay abstract: they are parameters wherever they occur. */
module Js {
  import opened Common

  datatype Json =
    | JNull
    | JBool(b: bool)
    | JNumber(n: real)
    | JString(s: string)
    | JArray(items: seq<Json>)
    | JObject(fields: map<string, Json>)

  /** JavaScript truthiness of a JSON value. */
  predicate Truthy(v: Json) {
    match v
    case JNull => false
    case JBool(b) => b
    case JNumber(n) => n != 0.0
    case JString(s) => s != ""
    case _ => true
  }

  /** Truthiness of a value that may be `undefined`. */
  predicate Present(v: Option<Json>) {
    v.Some? && Truthy(v.value)
  }

  /** `v?.[key]`: `undefined` stays `undefined`, and so does any property
      other than an object member or an array or string index. */
  function Member(v: Option<Json>, key: string): (r: Option<Json>)
    ensures r.Some? ==> v.Some? && (v.value.JObject? || v.value.JArray? || v.value.JString?)
  {
    match v
    case Some(JObject(f)) => if key in f then Some(f[key]) else None
    case Some(JArray(items)) => Index(items, key)
    case Some(JString(s)) =>
      var e := Index(s, key);
      if e.Some? then Some(JString([e.value])) else None
    case _ => None
  }

  /** `v?.[i]` for an integer index. */
  function Element(v: Option<Json>, i: nat): (r: Option<Json>)
    ensures v.Some? && v.value.JArray? ==>
              r == (if i < |v.value.items| then Some(v.value.items[i]) else None)
  {
    Member(v, Decimal(i))
  }

  /** The element a canonical decimal array index names. */
  function Index<T>(xs: seq<T>, key: string): (r: Option<T>)
    ensures r.Some? ==> r.value in xs
    ensures forall i: nat :: key == Decimal(i) ==> r == (if i < |xs| then Some(xs[i]) else None)
  {
    if |key| > 0 && AllDigits(key) && (|key| == 1 || key[0] != '0') && DecimalValue(key) < |xs| then
      CanonicalIndex(key);
      Some(xs[DecimalValue(key)])
    else
      CanonicalIndex(key);
      None
  }

  /** A decimal key names at most one index: the one it denotes. */
  lemma CanonicalIndex(key: string)
    ensures forall i: nat :: key == Decimal(i) ==>
              && |key| > 0 && AllDigits(key) && (|key| == 1 || key[0] != '0')
              && DecimalValue(key) == i
  {
    forall i: nat | key == Decimal(i)
      ensures |key| > 0 && AllDigits(key) && (|key| == 1 || key[0] != '0') && DecimalValue(key) == i
    {
      DecimalRoundTrip(i);
    }
  }
}
