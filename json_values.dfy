/** Values that `JSON.parse` can produce, and the few JavaScript operations
    the application applies to them without knowing their shape: truthiness,
    optional-chained property access (`v?.name`, `v?.[0]`) and object
    spread (`{...v}`). */
module JsonValues {
  import opened Options
  import JsStrings

  /** A parsed JSON value. An object is a map because `JSON.parse` keeps
      only the last of two equal keys. */
  datatype Json =
    | JNull
    | JBool(b: bool)
    | JNumber(x: real)
    | JString(s: string)
    | JArray(items: seq<Json>)
    | JObject(fields: map<string, Json>)

  /** An object's own properties, as `{...img}` copies them. */
  type Record = map<string, Json>

  /** JavaScript truthiness; `None` is `undefined`. Undefined and null are
      always falsy, arrays and objects always truthy, even when empty. */
  predicate Truthy(v: Option<Json>)
    ensures Truthy(v) ==> v.Some? && !v.value.JNull?
    ensures v.Some? && (v.value.JArray? || v.value.JObject?) ==> Truthy(v)
    ensures v.Some? && v.value.JString? ==> (Truthy(v) <==> v.value.s != "")
  {
    match v
    case None => false
    case Some(JNull) => false
    case Some(JBool(b)) => b
    case Some(JNumber(x)) => x != 0.0
    case Some(JString(s)) => s != ""
    case Some(JArray(_)) => true
    case Some(JObject(_)) => true
  }

  /** `v?.name` for a property name that is not an array index, not
      `length` and not a member of Object, Array or String prototypes (all
      names the application reads are of this kind): only an object's own
      property is found; every other value yields `undefined`. */
  function Field(v: Option<Json>, name: string): (r: Option<Json>)
    ensures r.Some? <==> v.Some? && v.value.JObject? && name in v.value.fields
    ensures r.Some? ==> r.value == v.value.fields[name]
  {
    if v.Some? && v.value.JObject? && name in v.value.fields then Some(v.value.fields[name]) else None
  }

  /** `v?.[0]`: the first element of an array, the property "0" of an
      object, the first character of a string. */
  function Index0(v: Option<Json>): (r: Option<Json>)
    ensures v.Some? && v.value.JArray? ==> r == (if v.value.items == [] then None else Some(v.value.items[0]))
    ensures v.Some? && v.value.JObject? ==> r == Field(v, "0")
    ensures v.Some? && v.value.JString? ==> r == (if v.value.s == "" then None else Some(JString([v.value.s[0]])))
    ensures v.None? || v.value.JNull? || v.value.JBool? || v.value.JNumber? ==> r.None?
  {
    match v
    case Some(JArray(items)) => if items == [] then None else Some(items[0])
    case Some(JObject(fields)) => if "0" in fields then Some(fields["0"]) else None
    case Some(JString(s)) => if s == [] then None else Some(JString([s[0]]))
    case _ => None
  }

  /** The own enumerable properties `{...v}` copies: an object's fields,
      the indexed elements of an array or characters of a string, and
      nothing for `null`, a boolean or a number. */
  function Spread(v: Json): (r: Record)
    ensures v.JObject? ==> r == v.fields
    ensures v.JArray? ==> r == Indexed(v.items)
    ensures v.JString? ==> r.Keys == IndexKeys(|v.s|) && forall i :: 0 <= i < |v.s| ==> JsStrings.NatToDecimal(i) in r && r[JsStrings.NatToDecimal(i)] == JString([v.s[i]])
    ensures v.JNull? || v.JBool? || v.JNumber? ==> r == map[]
  {
    match v
    case JObject(fields) => fields
    case JArray(items) => Indexed(items)
    case JString(s) => Indexed(seq(|s|, i requires 0 <= i < |s| => JString([s[i]])))
    case _ => map[]
  }

  /** The keys "0", "1", ... of the first n indices. */
  ghost function IndexKeys(n: nat): set<string> {
    set i | 0 <= i < n :: JsStrings.NatToDecimal(i)
  }

  /** The map from "0", "1", ... to the elements of `items`: the key of
      element i is i in decimal, there are no other keys, and so every
      property is an element. */
  function Indexed(items: seq<Json>): (r: Record)
    ensures r.Keys == IndexKeys(|items|)
    ensures forall i :: 0 <= i < |items| ==> JsStrings.NatToDecimal(i) in r && r[JsStrings.NatToDecimal(i)] == items[i]
    ensures forall k :: k in r ==> r[k] in items
  {
    assert forall i, j :: 0 <= i < |items| && 0 <= j < |items| && JsStrings.NatToDecimal(i) == JsStrings.NatToDecimal(j) ==> i == j by {
      forall i, j | 0 <= i < |items| && 0 <= j < |items| && JsStrings.NatToDecimal(i) == JsStrings.NatToDecimal(j)
        ensures i == j
      {
        JsStrings.NatToDecimalInjective(i, j);
      }
    }
    map i | 0 <= i < |items| :: JsStrings.NatToDecimal(i) := items[i]
  }
}
