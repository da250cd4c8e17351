/**
 * The JSON values that serde_json hands to the log decoder, and the handful of
 * `Value` accessors the decoder uses (`v["key"]`, `as_str`, `as_u64`, `as_bool`,
 * `as_array`, and `unwrap_or` on their results).
 *
 * Turning log text into a `Json` is serde_json's business and is not modelled:
 * the decoder receives it as a parameter `parse: string -> Option<Json>`.
 */
module Json {
  import opened Wrappers

  /** Largest value of a Rust `u64`. */
  const U64Max: int := 0xFFFF_FFFF_FFFF_FFFF

  /**
   * A parsed JSON value. Numbers are split the way serde_json stores them:
   * an integral number keeps its value, any other number is a float whose
   * value the decoder never reads.
   */
  datatype Json =
    | JNull
    | JBool(b: bool)
    | JInt(i: int)
    | JFloat(text: string)
    | JString(s: string)
    | JArray(items: seq<Json>)
    | JObject(fields: map<string, Json>)

  /** `v["key"]`: the field of an object, and `Null` for a missing key or a non-object. */
  function Get(v: Json, key: string): Json
  {
    if v.JObject? && key in v.fields then v.fields[key] else JNull
  }

  /** `as_str()`. */
  function AsStr(v: Json): Option<string>
  {
    if v.JString? then Some(v.s) else None
  }

  /** `as_u64()`: only a non-negative integral number that fits in 64 bits. */
  function AsU64(v: Json): Option<nat>
  {
    if v.JInt? && 0 <= v.i <= U64Max then Some(v.i) else None
  }

  /** `as_bool()`. */
  function AsBool(v: Json): Option<bool>
  {
    if v.JBool? then Some(v.b) else None
  }

  /** `as_array()`. */
  function AsArray(v: Json): Option<seq<Json>>
  {
    if v.JArray? then Some(v.items) else None
  }

  /** `v["key"].as_str().unwrap_or(default)`. */
  function StrOr(v: Json, key: string, default: string): string
  {
    match AsStr(Get(v, key))
    case Some(s) => s
    case None => default
  }

  /** `v["key"].as_bool().unwrap_or(default)`. */
  function BoolOr(v: Json, key: string, default: bool): bool
  {
    match AsBool(Get(v, key))
    case Some(b) => b
    case None => default
  }

  /**
   * `array.iter().map(|c| c.as_str().unwrap())`: every element must be a
   * string; the strings keep their array order.
   */
  function StringItems(items: seq<Json>): (r: Option<seq<string>>)
    ensures r.Some? <==> forall i :: 0 <= i < |items| ==> items[i].JString?
    ensures r.Some? ==> |r.value| == |items| && forall i :: 0 <= i < |items| ==> items[i] == JString(r.value[i])
  {
    if items == [] then Some([])
    else if !items[0].JString? then None
    else match StringItems(items[1..])
      case None => None
      case Some(rest) => Some([items[0].s] + rest)
  }

  /** The inverse of `StringItems`: a list of strings as a JSON array's items. */
  function StringsJson(ss: seq<string>): (r: seq<Json>)
    ensures |r| == |ss|
    ensures forall i :: 0 <= i < |ss| ==> r[i] == JString(ss[i])
  {
    if ss == [] then [] else [JString(ss[0])] + StringsJson(ss[1..])
  }

  lemma {:induction false} StringItemsRoundTrip(ss: seq<string>)
    ensures StringItems(StringsJson(ss)) == Some(ss)
  {
    var items := StringsJson(ss);
    var r := StringItems(items);
    assert r.Some?;
    assert |r.value| == |ss|;
    forall i | 0 <= i < |ss| ensures r.value[i] == ss[i] {
      assert items[i] == JString(r.value[i]);
    }
    assert r.value == ss;
  }
}
