/**
 * Response-shape normalisation of the utils package: `IsValidApiResponse`
 * detects which of the known origin shapes a body has and rewrites it into
 * `{data: {items: ...}}`, and `EnrichThumbFromDatabase` overwrites stale
 * `thumb_url`s with the database's current value.
 */
module Normalize {
  import opened Wrappers
  import opened Json
  import opened Models

  // ------------------------------------------------- EnrichThumbFromDatabase

  /** The item's `_id` when it is an object holding a non-empty string `_id`. */
  function ItemId(item: Json): (r: Option<string>)
    ensures r.Some? ==> r.value != ""
  {
    if item.JObj? && "_id" in item.fields && item.fields["_id"].JStr? && item.fields["_id"].s != ""
    then Some(item.fields["_id"].s) else None
  }

  /** The thumbnail the database holds for the item, when it holds a non-empty one. */
  function DbThumb(movies: map<string, Movie>, item: Json): (r: Option<string>)
    ensures r.Some? ==> r.value != ""
  {
    match ItemId(item)
    case Some(id) => if id in movies && movies[id].thumbUrl != "" then Some(movies[id].thumbUrl) else None
    case None => None
  }

  /** One item after enrichment. */
  function Retouch(movies: map<string, Movie>, item: Json): (r: Json)
    ensures DbThumb(movies, item).None? ==> r == item
    ensures DbThumb(movies, item).Some? ==>
              r == JObj(item.fields["thumb_url" := JStr(DbThumb(movies, item).value)])
  {
    match DbThumb(movies, item)
    case Some(t) => JObj(item.fields["thumb_url" := JStr(t)])
    case None => item
  }

  /**
   * What `EnrichThumbFromDatabase` returns: a non-list, or any list when the
   * database query fails, comes back unchanged; otherwise every item is retouched.
   */
  function Enriched(items: Json, movies: map<string, Movie>, dbDown: bool): (r: Json)
    ensures !items.JArr? || dbDown ==> r == items
    ensures items.JArr? ==> r.JArr? && |r.items| == |items.items|
    ensures items.JArr? && !dbDown ==>
              forall i :: 0 <= i < |items.items| ==> r.items[i] == Retouch(movies, items.items[i])
  {
    if !items.JArr? || dbDown then items
    else JArr(seq(|items.items|, i requires 0 <= i < |items.items| => Retouch(movies, items.items[i])))
  }

  /** Enrichment only ever rewrites `thumb_url`, and only to a non-empty database value. */
  lemma EnrichedTouchesOnlyThumbs(items: Json, movies: map<string, Movie>, dbDown: bool, i: int)
    requires items.JArr? && 0 <= i < |items.items|
    ensures var before := items.items[i];
            var after := Enriched(items, movies, dbDown).items[i];
            after == before ||
            (before.JObj? && after.JObj? &&
             after.fields.Keys == before.fields.Keys + {"thumb_url"} &&
             (forall k :: k in before.fields && k != "thumb_url" ==> after.fields[k] == before.fields[k]) &&
             ItemId(before).Some? && ItemId(before).value in movies &&
             after.fields["thumb_url"] == JStr(movies[ItemId(before).value].thumbUrl) &&
             movies[ItemId(before).value].thumbUrl != "")
  {
  }

  /** `EnrichThumbFromDatabase`, over the `movies` table (id to row) and whether the query fails. */
  method EnrichThumbFromDatabase(items: Json, movies: map<string, Movie>, dbDown: bool) returns (r: Json)
    ensures r == Enriched(items, movies, dbDown)
  {
    if !items.JArr? {
      return items;
    }
    var list := items.items;

    // Step 1: the non-empty string ids of the object items.
    var ids: seq<string> := [];
    var i := 0;
    while i < |list|
      invariant 0 <= i <= |list|
      invariant forall k :: 0 <= k < i && ItemId(list[k]).Some? ==> ItemId(list[k]).value in ids
      invariant forall t :: 0 <= t < |ids| ==> ids[t] != ""
    {
      var id := ItemId(list[i]);
      if id.Some? {
        ids := ids + [id.value];
      }
      i := i + 1;
    }

    if |ids| == 0 {
      assert forall k :: 0 <= k < |list| ==> Retouch(movies, list[k]) == list[k];
      assert Enriched(items, movies, dbDown).items == list;
      return items;
    }
    if dbDown {
      return items;
    }

    // Steps 2 and 3: the rows of `id IN ids`, kept when their thumbnail is non-empty.
    var thumbMap: map<string, string> := map[];
    var j := 0;
    while j < |ids|
      invariant 0 <= j <= |ids|
      invariant forall id :: id in thumbMap <==> id in ids[..j] && id in movies && movies[id].thumbUrl != ""
      invariant forall id :: id in thumbMap ==> thumbMap[id] == movies[id].thumbUrl
    {
      var id := ids[j];
      if id in movies && movies[id].thumbUrl != "" {
        thumbMap := thumbMap[id := movies[id].thumbUrl];
      }
      assert ids[..j + 1] == ids[..j] + [id];
      j := j + 1;
    }
    assert ids[..j] == ids;

    // Step 4: overwrite `thumb_url` where the database had a value.
    var out: seq<Json> := [];
    var k := 0;
    while k < |list|
      invariant 0 <= k <= |list|
      invariant |out| == k
      invariant forall t :: 0 <= t < k ==> out[t] == Retouch(movies, list[t])
    {
      var item := list[k];
      if item.JObj? && "_id" in item.fields && item.fields["_id"].JStr? && item.fields["_id"].s in thumbMap {
        item := JObj(item.fields["thumb_url" := JStr(thumbMap[item.fields["_id"].s])]);
      }
      out := out + [item];
      k := k + 1;
    }
    r := JArr(out);
  }

  // ------------------------------------------------------ IsValidApiResponse

  /** The shapes `IsValidApiResponse` recognises, in the order it tries them. */
  datatype Shape = DataItems | RootItems | Listed(key: string)

  /** The alternate root keys, in the order they are tried. */
  const Candidates: seq<string> := ["episodes", "movies", "list", "data"]

  /** The index of the first key of `keys[from..]` present in `raw`. */
  function FirstPresent(raw: Object, keys: seq<string>, from: nat): (r: Option<nat>)
    requires from <= |keys|
    ensures r.Some? ==> from <= r.value < |keys| && keys[r.value] in raw &&
                        forall t :: from <= t < r.value ==> keys[t] !in raw
    ensures r.None? ==> forall t :: from <= t < |keys| ==> keys[t] !in raw
    decreases |keys| - from
  {
    if from == |keys| then None
    else if keys[from] in raw then Some(from)
    else FirstPresent(raw, keys, from + 1)
  }

  predicate DataHasItems(raw: Object) {
    "data" in raw && raw["data"].JObj? && "items" in raw["data"].fields
  }

  /** The shape of a parsed body; none of them matches exactly when no known key is present. */
  function ShapeOf(raw: Object): (r: Option<Shape>)
    ensures r.Some? <==> "data" in raw || "items" in raw || "episodes" in raw || "movies" in raw || "list" in raw
    ensures r == Some(DataItems) <==> DataHasItems(raw)
    ensures r == Some(RootItems) <==> !DataHasItems(raw) && "items" in raw
    ensures r.Some? && r.value.Listed? ==>
              !DataHasItems(raw) && "items" !in raw && r.value.key in raw &&
              exists i :: 0 <= i < |Candidates| && Candidates[i] == r.value.key &&
                          forall t :: 0 <= t < i ==> Candidates[t] !in raw
  {
    if DataHasItems(raw) then Some(DataItems)
    else if "items" in raw then Some(RootItems)
    else
      var k := FirstPresent(raw, Candidates, 0);
      assert Candidates[0] == "episodes" && Candidates[1] == "movies" && Candidates[2] == "list" && Candidates[3] == "data";
      if k.Some? then Some(Listed(Candidates[k.value])) else None
  }

  /** The normalised body, when the shape is known. */
  function Normalized(raw: Object, movies: map<string, Movie>, dbDown: bool): (r: Option<Object>)
    ensures r.Some? <==> ShapeOf(raw).Some?
    ensures r.Some? ==> "data" in r.value && r.value["data"].JObj? && "items" in r.value["data"].fields
  {
    match ShapeOf(raw)
    case None => None
    case Some(DataItems) =>
      var d := raw["data"].fields;
      Some(raw["data" := JObj(d["items" := Enriched(d["items"], movies, dbDown)])])
    case Some(RootItems) =>
      var items := map["items" := Enriched(raw["items"], movies, dbDown)];
      var data := if "pagination" in raw && !raw["pagination"].JNull?
                  then items["pagination" := raw["pagination"]] else items;
      Some(map["data" := JObj(data)])
    case Some(Listed(k)) =>
      Some(map["data" := JObj(map["items" := JObj(map[k := Enriched(raw[k], movies, dbDown)])])])
  }

  /** In the `data.items` shape the body is kept, with only `data.items` replaced by its enrichment. */
  lemma DataItemsKeepsBody(raw: Object, movies: map<string, Movie>, dbDown: bool)
    requires DataHasItems(raw)
    ensures var n := Normalized(raw, movies, dbDown).value;
            n.Keys == raw.Keys &&
            (forall k :: k in raw && k != "data" ==> n[k] == raw[k]) &&
            n["data"].fields.Keys == raw["data"].fields.Keys &&
            (forall k :: k in raw["data"].fields && k != "items" ==> n["data"].fields[k] == raw["data"].fields[k]) &&
            n["data"].fields["items"] == Enriched(raw["data"].fields["items"], movies, dbDown)
  {
  }

  /** In the root `items` shape, `pagination` is carried under `data` exactly when it is present and not null. */
  lemma RootItemsPagination(raw: Object, movies: map<string, Movie>, dbDown: bool)
    requires !DataHasItems(raw) && "items" in raw
    ensures var data := Normalized(raw, movies, dbDown).value["data"].fields;
            ("pagination" in data <==> "pagination" in raw && raw["pagination"] != JNull) &&
            ("pagination" in data ==> data["pagination"] == raw["pagination"]) &&
            data["items"] == Enriched(raw["items"], movies, dbDown) &&
            data.Keys <= {"items", "pagination"}
  {
  }

  /** `IsValidApiResponse`: tries the known shapes in order; Go's nil map is `map[]` here. */
  method IsValidApiResponse(raw: Object, movies: map<string, Movie>, dbDown: bool) returns (normalized: Object, ok: bool)
    ensures ok <==> ShapeOf(raw).Some?
    ensures ok ==> Normalized(raw, movies, dbDown) == Some(normalized)
    ensures !ok ==> normalized == map[]
  {
    if "data" in raw && raw["data"].JObj? && "items" in raw["data"].fields {
      var dmap := raw["data"].fields;
      var enriched := EnrichThumbFromDatabase(dmap["items"], movies, dbDown);
      dmap := dmap["items" := enriched];
      return raw["data" := JObj(dmap)], true;
    }

    if "items" in raw {
      var enriched := EnrichThumbFromDatabase(raw["items"], movies, dbDown);
      var data := map["items" := enriched];
      if "pagination" in raw && raw["pagination"] != JNull {
        data := data["pagination" := raw["pagination"]];
      }
      return map["data" := JObj(data)], true;
    }

    var i := 0;
    while i < |Candidates|
      invariant 0 <= i <= |Candidates|
      invariant forall t :: 0 <= t < i ==> Candidates[t] !in raw
    {
      var key := Candidates[i];
      if key in raw {
        assert FirstPresent(raw, Candidates, 0) == Some(i);
        var enriched := EnrichThumbFromDatabase(raw[key], movies, dbDown);
        return map["data" := JObj(map["items" := JObj(map[key := enriched])])], true;
      }
      i := i + 1;
    }
    return map[], false;
  }

  /** The metadata every fresh list-like result carries. */
  function WithMetadata(doc: Object, url: string, now: int): (r: Object)
    ensures r.Keys == doc.Keys + {"from_cache", "request_url", "timestamp"}
    ensures "from_cache" in r && "request_url" in r && "timestamp" in r
    ensures r["from_cache"] == JBool(false) && r["request_url"] == JStr(url) && r["timestamp"] == JNum(now)
    ensures forall k :: k in doc && k !in {"from_cache", "request_url", "timestamp"} ==> r[k] == doc[k]
  {
    doc["from_cache" := JBool(false)]["request_url" := JStr(url)]["timestamp" := JNum(now)]
  }
}
