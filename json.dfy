/** The part of Vert.x `JsonObject` the core reads and writes. */
module Json {
  import opened Wrappers
  import opened Errors

  datatype Json =
    | JNull
    | JBool(b: bool)
    | JNumber(n: int)
    | JString(s: string)
    | JArray(items: seq<Json>)
    | JObject(fields: JsonObject)

  type JsonObject = map<string, Json>

  /** `getString(key)`: the string stored under `key`, null when it is absent or not a string. */
  function GetString(o: JsonObject, key: string): Option<string> {
    if key in o && o[key].JString? then Some(o[key].s) else None
  }

  /** The JSON value `put(key, s)` stores for a possibly-null string. */
  function OfNullable(s: Option<string>): Json {
    if s.Some? then JString(s.value) else JNull
  }

  /** The object built by `put`ting the first `n` entries, in order, onto an empty object. */
  function PutAll(entries: seq<(string, Json)>, n: nat): JsonObject
    requires n <= |entries|
  {
    if n == 0 then map[] else PutAll(entries, n - 1)[entries[n - 1].0 := entries[n - 1].1]
  }

  /** `getJsonArray(key)`: the array stored under `key`, null when it is absent or not an array. */
  function GetArray(o: JsonObject, key: string): Option<seq<Json>> {
    if key in o && o[key].JArray? then Some(o[key].items) else None
  }

  /**
   * `extractItems`: the elements of the "items" array as objects; an absent
   * array gives the empty list, and an element that is not an object fails the cast.
   */
  function ExtractItems(o: JsonObject): (r: Result<seq<JsonObject>, Failure>)
    ensures GetArray(o, "items").None? ==> r == Ok([])
    ensures GetArray(o, "items").Some? ==> var a := GetArray(o, "items").value;
      && (r.Ok? <==> forall i :: 0 <= i < |a| ==> a[i].JObject?)
      && (r.Ok? ==> |r.value| == |a| && forall i :: 0 <= i < |a| ==> a[i] == JObject(r.value[i]))
  {
    match GetArray(o, "items")
    case None => Ok([])
    case Some(a) => CastObjects(a)
  }

  function CastObjects(a: seq<Json>): (r: Result<seq<JsonObject>, Failure>)
    ensures r.Ok? <==> forall i :: 0 <= i < |a| ==> a[i].JObject?
    ensures r.Ok? ==> |r.value| == |a| && forall i :: 0 <= i < |a| ==> a[i] == JObject(r.value[i])
    ensures r.Err? ==> r.error == ClassCast
  {
    if a == [] then Ok([])
    else match CastObjects(a[1..])
      case Err(e) => Err(e)
      case Ok(rest) => if a[0].JObject? then Ok([a[0].fields] + rest) else Err(ClassCast)
  }

  /**
   * `getFirstObjectFromResponse`: the first element of the array under
   * `property`; an absent or empty array fails with "no records of property".
   */
  function FirstObject(response: JsonObject, property: string): (r: Result<JsonObject, Failure>)
    ensures r.Ok? <==> var a := GetArray(response, property); a.Some? && |a.value| > 0 && a.value[0].JObject?
    ensures r.Ok? ==> GetArray(response, property).value[0] == JObject(r.value)
    ensures (GetArray(response, property).None? || GetArray(response, property).value == []) ==>
      r == Err(NoRecords(property))
  {
    match GetArray(response, property)
    case None => Err(NoRecords(property))
    case Some(a) =>
      if a == [] then Err(NoRecords(property))
      else if a[0].JObject? then Ok(a[0].fields)
      else if a[0].JNull? then Err(NullReference)
      else Err(ClassCast)
  }
}
