/**
 * `MediaAsset.toJSONObject` on Android, over a model of `org.json.JSONObject`:
 * a map from keys to values where `put(key, null)` removes the key.
 */
module MediaAssetJson {
  import opened Wrappers
  import opened Decimal
  import opened AndroidModel

  /** The Kotlin `MediaAsset` data class. */
  datatype MediaAsset = MediaAsset(
    id: int,
    dateAdded: int,
    orientation: int,
    duration: Option<real>,
    mediaType: MediaType,
    isLivePhoto: bool)

  datatype Json = JString(s: string) | JInt(n: int) | JDouble(d: real) | JBool(b: bool)

  type JsonObject = map<string, Json>

  /** `JSONObject.put`: a null value removes the key, any other value replaces it. */
  function Put(o: JsonObject, key: string, value: Option<Json>): (r: JsonObject)
    ensures value.None? ==> key !in r
    ensures value.Some? ==> key in r && r[key] == value.value
    ensures forall k :: k != key ==> (k in r <==> k in o) && (k in o ==> r[k] == o[k])
  {
    match value
    case None => o - {key}
    case Some(v) => o[key := v]
  }

  /** `MediaType.ordinal`. */
  function Ordinal(t: MediaType): int {
    match t
    case Image => 0
    case Video => 1
  }

  function FromOrdinal(n: int): Option<MediaType> {
    if n == 0 then Some(Image) else if n == 1 then Some(Video) else None
  }

  const Keys: set<string> := {"id", "dateAdded", "orientation", "duration", "type", "isLivePhoto"}

  /** The six key names differ pairwise: by their first character or, failing that, by their length. */
  lemma KeysDistinct()
    ensures "id" != "dateAdded" && "id" != "orientation" && "id" != "duration" && "id" != "type" && "id" != "isLivePhoto"
    ensures "dateAdded" != "orientation" && "dateAdded" != "duration" && "dateAdded" != "type" && "dateAdded" != "isLivePhoto"
    ensures "orientation" != "duration" && "orientation" != "type" && "orientation" != "isLivePhoto"
    ensures "duration" != "type" && "duration" != "isLivePhoto"
    ensures "type" != "isLivePhoto"
  {
    assert "id"[0] == 'i' && |"id"| == 2;
    assert "dateAdded"[0] == 'd' && |"dateAdded"| == 9;
    assert "orientation"[0] == 'o';
    assert "duration"[0] == 'd' && |"duration"| == 8;
    assert "type"[0] == 't';
    assert "isLivePhoto"[0] == 'i' && |"isLivePhoto"| == 11;
  }

  /** The six puts of `toJSONObject` in source order, starting from an empty object, with `id` rendered as `idString`. */
  function PutFields(a: MediaAsset, idString: string): (o: JsonObject)
    ensures o.Keys == Keys - (if a.duration.None? then {"duration"} else {})
    ensures o["id"] == JString(idString)
    ensures o["dateAdded"] == JInt(a.dateAdded) && o["orientation"] == JInt(a.orientation)
    ensures a.duration.Some? ==> o["duration"] == JDouble(a.duration.value)
    ensures o["type"] == JInt(if a.mediaType == Image then 0 else 1)
    ensures o["isLivePhoto"] == JBool(a.isLivePhoto)
  {
    KeysDistinct();
    var o := Put(map[], "id", Some(JString(idString)));
    var o := Put(o, "dateAdded", Some(JInt(a.dateAdded)));
    var o := Put(o, "orientation", Some(JInt(a.orientation)));
    var o := Put(o, "duration", match a.duration case None => None case Some(d) => Some(JDouble(d)));
    var o := Put(o, "type", Some(JInt(Ordinal(a.mediaType))));
    Put(o, "isLivePhoto", Some(JBool(a.isLivePhoto)))
  }

  /**
   * `toJSONObject`: the object has the six keys, without `duration` when it
   * is null; `id` is the decimal string of the id, `type` the enum ordinal,
   * and the other keys hold their field unchanged.
   */
  function ToJSONObject(a: MediaAsset): (o: JsonObject)
    ensures o.Keys == Keys - (if a.duration.None? then {"duration"} else {})
    ensures o["id"] == JString(IntToString(a.id))
    ensures o["dateAdded"] == JInt(a.dateAdded) && o["orientation"] == JInt(a.orientation)
    ensures a.duration.Some? ==> o["duration"] == JDouble(a.duration.value)
    ensures o["type"] == JInt(if a.mediaType == Image then 0 else 1)
    ensures o["isLivePhoto"] == JBool(a.isLivePhoto)
  {
    PutFields(a, IntToString(a.id))
  }

  /** Reads a `MediaAsset` back from its JSON object; `None` when a key is missing or ill-typed. */
  function FromJSONObject(o: JsonObject): Option<MediaAsset> {
    if "id" in o && o["id"].JString? && Parse(o["id"].s).Some?
       && "dateAdded" in o && o["dateAdded"].JInt?
       && "orientation" in o && o["orientation"].JInt?
       && ("duration" !in o || o["duration"].JDouble?)
       && "type" in o && o["type"].JInt? && FromOrdinal(o["type"].n).Some?
       && "isLivePhoto" in o && o["isLivePhoto"].JBool?
    then Some(MediaAsset(
      Parse(o["id"].s).value,
      o["dateAdded"].n,
      o["orientation"].n,
      if "duration" in o then Some(o["duration"].d) else None,
      FromOrdinal(o["type"].n).value,
      o["isLivePhoto"].b))
    else None
  }

  /** The JSON object carries every field of the asset: reading it back gives the asset. */
  lemma JsonRoundTrip(a: MediaAsset)
    ensures FromJSONObject(ToJSONObject(a)) == Some(a)
  {
    ParseIntToString(a.id);
  }
}
