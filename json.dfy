/**
 * A JSON tree, standing for what `JSONSerialization.jsonObject` yields in Floreboard/AIService.swift, and
 * the `as?` casts the OpenRouter reply reader applies to it.
 */
module JsonTree {
  import opened Prelude

  datatype Json =
    | JNull
    | JBool(b: bool)
    | JNumber(n: real)
    | JString(s: string)
    | JArray(items: seq<Json>)
    | JObject(fields: map<string, Json>)

  /** `dict[key]` */
  function Field(o: map<string, Json>, key: string): (r: Option<Json>)
    ensures r.Some? <==> key in o
    ensures r.Some? ==> r.value == o[key]
  {
    if key in o then Some(o[key]) else None
  }

  /** `as? [String: Any]` */
  function AsObject(j: Option<Json>): (r: Option<map<string, Json>>)
    ensures r.Some? <==> j.Some? && j.value.JObject?
    ensures r.Some? ==> j.value == JObject(r.value)
  {
    if j.Some? && j.value.JObject? then Some(j.value.fields) else None
  }

  /** `as? String` */
  function AsString(j: Option<Json>): (r: Option<string>)
    ensures r.Some? <==> j.Some? && j.value.JString?
    ensures r.Some? ==> j.value == JString(r.value)
  {
    if j.Some? && j.value.JString? then Some(j.value.s) else None
  }

  predicate AllObjects(items: seq<Json>) {
    forall i :: 0 <= i < |items| ==> items[i].JObject?
  }

  predicate AllStrings(items: seq<Json>) {
    forall i :: 0 <= i < |items| ==> items[i].JString?
  }

  /** `as? [[String: Any]]`: an array every element of which is an object. */
  function AsObjectArray(j: Option<Json>): (r: Option<seq<map<string, Json>>>)
    ensures r.Some? <==> j.Some? && j.value.JArray? && AllObjects(j.value.items)
    ensures r.Some? ==> |r.value| == |j.value.items|
    ensures r.Some? ==> forall i :: 0 <= i < |r.value| ==> j.value.items[i] == JObject(r.value[i])
  {
    if j.Some? && j.value.JArray? && AllObjects(j.value.items) then
      var items := j.value.items;
      Some(seq(|items|, i requires 0 <= i < |items| => items[i].fields))
    else None
  }

  /** `as? [String]`: an array every element of which is a string. */
  function AsStringArray(j: Option<Json>): (r: Option<seq<string>>)
    ensures r.Some? <==> j.Some? && j.value.JArray? && AllStrings(j.value.items)
    ensures r.Some? ==> |r.value| == |j.value.items|
    ensures r.Some? ==> forall i :: 0 <= i < |r.value| ==> j.value.items[i] == JString(r.value[i])
  {
    if j.Some? && j.value.JArray? && AllStrings(j.value.items) then
      var items := j.value.items;
      Some(seq(|items|, i requires 0 <= i < |items| => items[i].s))
    else None
  }

  /** A non-empty array cannot be both an array of objects and an array of strings. */
  lemma CastsExclusive(j: Option<Json>)
    requires AsObjectArray(j).Some? && |AsObjectArray(j).value| > 0
    ensures AsStringArray(j).None?
  {
    assert j.value.items[0].JObject?;
  }
}
