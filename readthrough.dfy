/**
 * The read-through shape shared by the list-like resolvers (`GetMovieList`,
 * `GetSearchMovies`, `GetListNewestMovies`, `ListMoviesByCategory`,
 * `ListMoviesByCountry`): cache, then origin, then normalisation, then a
 * write-through to the cache and to the family's tag set.  The resolvers
 * differ only in the constants gathered in a `Family`.
 */
module ReadThrough {
  import opened Wrappers
  import opened Json
  import opened Models
  import opened Stores
  import opened Normalize

  /** What distinguishes one resolver from another. */
  datatype Family = Family(
    /** The tag set every cached key of the family is added to. */
    tag: string,
    /** TTL of a cached result, in hours. */
    ttl: nat,
    /** TTL the tag set is given after each write, in hours. */
    tagTtl: nat,
    /** Whether an unparsable origin body is a soft result (else a hard error). */
    parseErrorIsSoft: bool,
    /** The message of the soft result for an unknown shape. */
    shapeError: string,
    /** The text of the error returned when the origin does not answer. */
    fetchError: string)

  /** A resolver's outcome: a served document, a soft `success=false` map, or a Go error. */
  datatype Reply =
    | Served(doc: Object)
    | Soft(error: string, rawData: Option<Bytes>)
    | Failed(error: string)

  const ParseError := "Failed to parse API response"

  /** What `GET key` returns. */
  function Stored(values: map<string, Bytes>, key: string): (r: Option<Bytes>)
    ensures r.Some? <==> key in values
  {
    if key in values then Some(values[key]) else None
  }

  /**
   * The cached document, when the key holds bytes that decode as a JSON object.
   * (The `len(cached) > 0` test some resolvers make first is implied: empty
   * bytes never decode.) A cached `null` decodes to the nil map, on which the
   * `from_cache` assignment that follows panics; the model, which has no
   * panics, takes the miss path instead.
   */
  function CachedObject(stored: Option<Bytes>): (r: Option<Object>)
    ensures r.Some? <==> stored.Some? && stored.value.JsonText? && stored.value.value.JObj?
    ensures r.Some? ==> NonEmpty(stored.value) && Marshal(r.value) == stored.value
  {
    if stored.Some? && !IsNull(stored.value) then UnmarshalObject(stored.value) else None
  }

  /** A miss's outcome and, when it is cached, the bytes written. */
  datatype Fresh = Fresh(reply: Reply, payload: Option<Bytes>)

  /** The miss path: fetch, parse, normalise, stamp the metadata. */
  function FromOrigin(f: Family, body: Option<Bytes>, url: string, movies: map<string, Movie>, dbDown: bool, now: int): (o: Fresh)
    ensures o.payload.Some? <==> o.reply.Served?
    ensures body.None? ==> o.reply == Failed(f.fetchError)
    ensures body.Some? && UnmarshalObject(body.value).None? ==>
              if f.parseErrorIsSoft then o.reply == Soft(ParseError, body) else o.reply.Failed?
    ensures o.reply.Served? <==>
              body.Some? && UnmarshalObject(body.value).Some? && ShapeOf(UnmarshalObject(body.value).value).Some?
    ensures body.Some? && UnmarshalObject(body.value).Some? && ShapeOf(UnmarshalObject(body.value).value).None? ==>
              o.reply == Soft(f.shapeError, None)
    ensures o.reply.Served? ==>
              o.payload == Some(Marshal(o.reply.doc)) &&
              o.reply.doc == WithMetadata(Normalized(UnmarshalObject(body.value).value, movies, dbDown).value, url, now)
  {
    match body
    case None => Fresh(Failed(f.fetchError), None)
    case Some(b) =>
      match UnmarshalObject(b)
      case None =>
        if f.parseErrorIsSoft then Fresh(Soft(ParseError, body), None)
        else Fresh(Failed("invalid JSON from upstream"), None)
      case Some(raw) =>
        match Normalized(raw, movies, dbDown)
        case None => Fresh(Soft(f.shapeError, None), None)
        case Some(n) =>
          var doc := WithMetadata(n, url, now);
          Fresh(Served(doc), Some(Marshal(doc)))
  }

  /**
   * An origin body `null` decodes to the nil map, which has no known shape:
   * every family gives its soft shape error and caches nothing.
   */
  lemma NullBody(f: Family, url: string, movies: map<string, Movie>, dbDown: bool, now: int)
    ensures FromOrigin(f, Some(JsonText(JNull)), url, movies, dbDown, now) == Fresh(Soft(f.shapeError, None), None)
  {
    assert UnmarshalObject(JsonText(JNull)) == Some(map[]);
    assert ShapeOf(map[]).None?;
  }

  /** The pipeline `SET key payload EX ttl; SADD tag key; EXPIRE tag tagTtl`, one command after another. */
  function WriteThrough(st: CacheState, f: Family, key: string, payload: Bytes): CacheState {
    var values := st.values[key := payload];
    var ttl := st.ttl[key := f.ttl];
    var sets := st.sets - {key};
    var sets' := if f.tag !in values then sets[f.tag := Members(sets, f.tag) + {key}] else sets;
    var ttl' := if f.tag in values || f.tag in sets' then ttl[f.tag := f.tagTtl] else ttl;
    CacheState(values, sets', ttl')
  }

  /**
   * A write-through stores the payload under the key with the family's TTL,
   * refreshes the tag's TTL, registers the key in the tag set (unless the tag
   * holds a string, which Redis refuses), and touches no other key.
   */
  lemma WriteThroughEffect(st: CacheState, f: Family, key: string, payload: Bytes)
    requires key != f.tag
    ensures var st' := WriteThrough(st, f, key, payload);
            st'.values == st.values[key := payload] &&
            key in st'.ttl && st'.ttl[key] == f.ttl &&
            f.tag in st'.ttl && st'.ttl[f.tag] == f.tagTtl &&
            (f.tag !in st.values ==> Members(st'.sets, f.tag) == Members(st.sets, f.tag) + {key}) &&
            (f.tag in st.values ==> Members(st'.sets, f.tag) == Members(st.sets, f.tag)) &&
            (forall k :: k != key && k != f.tag ==> Stored(st'.values, k) == Stored(st.values, k)) &&
            (forall k :: k != key && k != f.tag ==> Members(st'.sets, k) == Members(st.sets, k)) &&
            (forall k :: k != key && k != f.tag && k in st.ttl ==> k in st'.ttl && st'.ttl[k] == st.ttl[k])
  {
  }

  /** The resolver's outcome as a function of the cache and the origin. */
  function Resolution(f: Family, st: CacheState, key: string, url: string, origin: Origin,
                      movies: map<string, Movie>, dbDown: bool, now: int): (r: (Reply, CacheState))
    ensures CachedObject(Stored(st.values, key)).Some? ==>
              r.0 == Served(CachedObject(Stored(st.values, key)).value["from_cache" := JBool(true)]) && r.1 == st
    ensures !r.0.Served? ==> r.1 == st
  {
    match CachedObject(Stored(st.values, key))
    case Some(doc) => (Served(doc["from_cache" := JBool(true)]), st)
    case None =>
      var o := FromOrigin(f, Fetch(origin, url), url, movies, dbDown, now);
      if o.payload.Some? then (o.reply, WriteThrough(st, f, key, o.payload.value)) else (o.reply, st)
  }

  /**
   * On a miss, a served result is written through (the document under the key
   * with the family's TTL, the key in the tag set, the tag's TTL refreshed);
   * a soft or failed result writes nothing.
   */
  lemma MissWrites(f: Family, st: CacheState, key: string, url: string, origin: Origin,
                   movies: map<string, Movie>, dbDown: bool, now: int)
    requires key != f.tag
    requires CachedObject(Stored(st.values, key)).None?
    ensures var res := Resolution(f, st, key, url, origin, movies, dbDown, now);
            (res.0.Served? ==>
               res.1.values == st.values[key := Marshal(res.0.doc)] &&
               key in res.1.ttl && res.1.ttl[key] == f.ttl &&
               f.tag in res.1.ttl && res.1.ttl[f.tag] == f.tagTtl &&
               (f.tag !in st.values ==> key in Members(res.1.sets, f.tag))) &&
            (!res.0.Served? ==> res.1 == st)
  {
    var o := FromOrigin(f, Fetch(origin, url), url, movies, dbDown, now);
    if o.payload.Some? {
      WriteThroughEffect(st, f, key, o.payload.value);
    }
  }

  /** A decodable cache hit is served as stored, marked `from_cache`, and the origin is not consulted. */
  lemma HitIgnoresOrigin(f: Family, st: CacheState, key: string, url: string, o1: Origin, o2: Origin,
                         movies: map<string, Movie>, dbDown: bool, t1: int, t2: int)
    requires CachedObject(Stored(st.values, key)).Some?
    ensures Resolution(f, st, key, url, o1, movies, dbDown, t1) == Resolution(f, st, key, url, o2, movies, dbDown, t2)
    ensures Resolution(f, st, key, url, o1, movies, dbDown, t1).0.doc["from_cache"] == JBool(true)
  {
  }

  /** Serving a miss and then asking again serves the same document from the cache, marked `from_cache`. */
  lemma {:induction false} MissThenHit(f: Family, st: CacheState, key: string, url: string, origin: Origin,
                                       movies: map<string, Movie>, dbDown: bool, now: int, later: Origin, t: int)
    requires key != f.tag
    requires CachedObject(Stored(st.values, key)).None?
    requires Resolution(f, st, key, url, origin, movies, dbDown, now).0.Served?
    ensures var (r1, st1) := Resolution(f, st, key, url, origin, movies, dbDown, now);
            var (r2, st2) := Resolution(f, st1, key, url, later, movies, dbDown, t);
            r2 == Served(r1.doc["from_cache" := JBool(true)]) && st2 == st1
  {
    var o := FromOrigin(f, Fetch(origin, url), url, movies, dbDown, now);
    var st1 := WriteThrough(st, f, key, o.payload.value);
    WriteThroughEffect(st, f, key, o.payload.value);
    assert Stored(st1.values, key) == Some(Marshal(o.reply.doc));
    MarshalRoundTrip(o.reply.doc);
  }

  /** The resolver body on the Redis object. */
  method Resolve(f: Family, cache: Redis, key: string, url: string, origin: Origin,
                 movies: map<string, Movie>, dbDown: bool, now: int) returns (r: Reply)
    modifies cache
    ensures (r, cache.State()) == Resolution(f, old(cache.State()), key, url, origin, movies, dbDown, now)
  {
    // 1. The cache; any failure is a miss.
    var cached := cache.Get(key);
    if cached.Some? && NonEmpty(cached.value) {
      var result := UnmarshalObject(cached.value);
      // a cached `null` would panic at the assignment below: see `CachedObject`
      if result.Some? && !IsNull(cached.value) {
        return Served(result.value["from_cache" := JBool(true)]);
      }
    }

    // 2. The origin.
    var body := Fetch(origin, url);
    if body.None? {
      return Failed(f.fetchError);
    }
    var raw := UnmarshalObject(body.value);
    if raw.None? {
      if f.parseErrorIsSoft {
        return Soft(ParseError, body);
      }
      return Failed("invalid JSON from upstream");
    }

    // 3. Normalisation.
    var normalized, ok := IsValidApiResponse(raw.value, movies, dbDown);
    if !ok {
      return Soft(f.shapeError, None);
    }

    // 4. Metadata.
    normalized := normalized["from_cache" := JBool(false)];
    normalized := normalized["request_url" := JStr(url)];
    normalized := normalized["timestamp" := JNum(now)];

    // 5. The write-through pipeline.
    var payload := Marshal(normalized);
    cache.Set(key, payload, f.ttl);
    cache.SAdd(f.tag, key);
    cache.Expire(f.tag, f.tagTtl);
    r := Served(normalized);
  }
}
