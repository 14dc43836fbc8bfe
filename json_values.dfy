/** Already-parsed JSON, as `JSONSerialization.jsonObject` hands it to the
    decoders, and the `as?` casts they apply to a dictionary entry. */
module JsonValues {
  import opened Wrappers

  /** A JSON value. `JInt` stands for every value whose `as? Int` cast
      succeeds; `JOther` for everything else that is neither an object, an
      array nor a string (null, booleans, fractional numbers). */
  datatype Json =
    | JObject(fields: map<string, Json>)
    | JArray(items: seq<Json>)
    | JString(str: string)
    | JInt(num: int)
    | JOther

  /** Swift's `typealias JSON = [String: Any]`. */
  type JsonObject = map<string, Json>

  /** `json[key] as? String` */
  function AsString(json: JsonObject, key: string): Option<string> {
    if key in json && json[key].JString? then Some(json[key].str) else None
  }

  /** `json[key] as? Int` */
  function AsInt(json: JsonObject, key: string): Option<int> {
    if key in json && json[key].JInt? then Some(json[key].num) else None
  }

  /** `json[key] as? JSON` */
  function AsObject(json: JsonObject, key: string): Option<JsonObject> {
    if key in json && json[key].JObject? then Some(json[key].fields) else None
  }

  /** `json[key] as? [Any]` */
  function AsArray(json: JsonObject, key: string): Option<seq<Json>> {
    if key in json && json[key].JArray? then Some(json[key].items) else None
  }

  predicate AllObjects(items: seq<Json>) {
    forall i :: 0 <= i < |items| ==> items[i].JObject?
  }

  lemma AllObjectsAppend(a: seq<Json>, b: seq<Json>)
    ensures AllObjects(a + b) <==> AllObjects(a) && AllObjects(b)
  {
    if AllObjects(a) && AllObjects(b) {
      forall i | 0 <= i < |a + b| ensures (a + b)[i].JObject? {
        if i >= |a| {
          assert (a + b)[i] == b[i - |a|];
        }
      }
    }
    if AllObjects(a + b) {
      forall i | 0 <= i < |a| ensures a[i].JObject? {
        assert (a + b)[i] == a[i];
      }
      forall i | 0 <= i < |b| ensures b[i].JObject? {
        assert (a + b)[|a| + i] == b[i];
      }
    }
  }

  /** `json[key] as? [JSON]`: the cast of an array to an array of
      dictionaries succeeds only when every element is a dictionary. The
      elements are returned as they sit in the document, so that a decoder
      recursing into them can show it descends. */
  function AsObjectArray(json: JsonObject, key: string): (r: Option<seq<Json>>)
    ensures r.Some? <==> key in json && json[key].JArray? && AllObjects(json[key].items)
    ensures r.Some? ==> json[key] == JArray(r.value) && AllObjects(r.value)
  {
    if key in json && json[key].JArray? && AllObjects(json[key].items) then Some(json[key].items)
    else None
  }
}
