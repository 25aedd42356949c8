/**
 * The list and search resolvers of the movies module: their cache keys,
 * their upstream URLs and their read-through behaviour.
 */
module QueryServices {
  import opened Wrappers
  import opened Json
  import opened Text
  import opened Helpers
  import opened Models
  import opened QueryParams
  import opened Stores
  import opened Normalize
  import opened ReadThrough

  /** `%d`. */
  function Dec(i: int): string {
    ConvertInt64ToString(i)
  }

  // ------------------------------------------------------------------ keys

  function ListKeyFields(req: ListRequest): seq<string> {
    ["movie_list", req.typeList, Dec(req.page), req.sortField, req.sortType,
     req.sortLang, req.category, req.country, Dec(req.year), Dec(req.limit)]
  }

  /** `buildCacheKey`: the nine request fields after `movie_list`, joined by `:`. */
  function BuildCacheKey(req: ListRequest): (k: string)
    ensures HasPrefix(k, "movie_list:")
  {
    Join(ListKeyFields(req), ':')
  }

  function SearchKeyFields(req: SearchRequest): seq<string> {
    ["movie_search", req.keyword, Dec(req.page), req.sortField, req.sortType,
     req.sortLang, req.category, req.country, Dec(req.year), Dec(req.limit)]
  }

  /** `buildSearchCacheKey`: the same shape as the list key, under `movie_search`. */
  function BuildSearchCacheKey(req: SearchRequest): (k: string)
    ensures HasPrefix(k, "movie_search:")
  {
    Join(SearchKeyFields(req), ':')
  }

  /** The string fields of a list request hold no `:`, the key separator. */
  predicate ListSeparatorFree(req: ListRequest) {
    ':' !in req.typeList && ':' !in req.sortField && ':' !in req.sortType &&
    ':' !in req.sortLang && ':' !in req.category && ':' !in req.country
  }

  /** The key is unique: two separator-free requests with the same key are the same request. */
  lemma ListKeyInjective(a: ListRequest, b: ListRequest)
    requires ListSeparatorFree(a) && ListSeparatorFree(b)
    requires BuildCacheKey(a) == BuildCacheKey(b)
    ensures a == b
  {
    var xs, ys := ListKeyFields(a), ListKeyFields(b);
    FormattedChars(a.page); FormattedChars(a.year); FormattedChars(a.limit);
    FormattedChars(b.page); FormattedChars(b.year); FormattedChars(b.limit);
    assert forall i :: 0 <= i < |xs| ==> ':' !in xs[i] && ':' !in ys[i];
    JoinInjective(xs, ys, ':');
    assert xs[2] == ys[2] && xs[8] == ys[8] && xs[9] == ys[9];
    FormatInjective(a.page, b.page);
    FormatInjective(a.year, b.year);
    FormatInjective(a.limit, b.limit);
  }

  /** A list key and a search key never collide: they differ at their seventh character. */
  lemma ListKeyIsNotSearchKey(a: ListRequest, b: SearchRequest)
    ensures BuildCacheKey(a) != BuildSearchCacheKey(b)
  {
    var xs, ys := ListKeyFields(a), SearchKeyFields(b);
    assert Join(xs, ':') == "movie_list" + ([':'] + Join(xs[1..], ':'));
    assert Join(ys, ':') == "movie_search" + ([':'] + Join(ys[1..], ':'));
    PrefixesDiffer("movie_list", "movie_search", [':'] + Join(xs[1..], ':'), [':'] + Join(ys[1..], ':'), 6);
  }

  /** A list key is never the tag key of its family. */
  lemma ListKeyIsNotTag(req: ListRequest)
    ensures BuildCacheKey(req) != ListFamily.tag
  {
    var xs := ListKeyFields(req);
    JoinedKeyIsNotTag(xs, "cached_keys");
  }

  /** A search key is never the tag key of its family. */
  lemma SearchKeyIsNotTag(req: SearchRequest)
    ensures BuildSearchCacheKey(req) != SearchFamily.tag
  {
    JoinedKeyIsNotTag(SearchKeyFields(req), "cached_keys");
  }

  /** A key of three or more fields holds a second separator, which `prefix:name` lacks. */
  lemma JoinedKeyIsNotTag(xs: seq<string>, name: string)
    requires |xs| >= 3 && ':' !in name
    ensures Join(xs, ':') != xs[0] + ":" + name
  {
    var rest := xs[1] + [':'] + Join(xs[2..], ':');
    assert xs[1..][1..] == xs[2..];
    assert Join(xs, ':') == xs[0] + ":" + rest;
    assert rest[|xs[1]|] == ':';
    var n := |xs[0]| + 1;
    assert (xs[0] + ":" + rest)[n..] == rest;
    assert (xs[0] + ":" + name)[n..] == name;
    assert ':' !in name;
  }

  // ------------------------------------------------------------------ URLs

  /** The optional filters, each added only when set. */
  function Filters(sortLang: string, category: string, country: string, year: int): seq<Param> {
    (if sortLang != "" then [("sort_lang", sortLang)] else []) +
    (if category != "" then [("category", category)] else []) +
    (if country != "" then [("country", country)] else []) +
    (if year != 0 then [("year", Dec(year))] else [])
  }

  /** `buildListURL`. */
  function BuildListUrl(req: ListRequest): (u: Url)
    ensures u.base == "https://phimapi.com/v1/api/danh-sach/" + req.typeList
  {
    Url("https://phimapi.com/v1/api/danh-sach/" + req.typeList,
        [("page", Dec(req.page)), ("sort_field", req.sortField), ("sort_type", req.sortType), ("limit", Dec(req.limit))]
        + Filters(req.sortLang, req.category, req.country, req.year))
  }

  /** `buildSearchURL`. */
  function BuildSearchUrl(req: SearchRequest): (u: Url)
    ensures u.base == "https://phimapi.com/v1/api/tim-kiem"
  {
    Url("https://phimapi.com/v1/api/tim-kiem",
        [("keyword", req.keyword), ("page", Dec(req.page)), ("sort_field", req.sortField),
         ("sort_type", req.sortType), ("limit", Dec(req.limit))]
        + Filters(req.sortLang, req.category, req.country, req.year))
  }

  /** The keys the optional filters contribute. */
  lemma FilterKeys(sortLang: string, category: string, country: string, year: int)
    ensures Keys(Filters(sortLang, category, country, year)) ==
            (if sortLang != "" then {"sort_lang"} else {}) + (if category != "" then {"category"} else {}) +
            (if country != "" then {"country"} else {}) + (if year != 0 then {"year"} else {})
  {
    var a := if sortLang != "" then [("sort_lang", sortLang)] else [];
    var b := if category != "" then [("category", category)] else [];
    var c := if country != "" then [("country", country)] else [];
    var d := if year != 0 then [("year", Dec(year))] else [];
    KeysAppend(a, b);
    KeysAppend(a + b, c);
    KeysAppend(a + b + c, d);
  }

  /** The keys of the always-present parameters. */
  const FixedNames: set<string> := {"keyword", "page", "sort_field", "sort_type", "limit"}

  /** The keys of the always-present parameters and the filters, together. */
  lemma ParamKeys(fixed: seq<Param>, sortLang: string, category: string, country: string, year: int)
    requires Keys(fixed) <= FixedNames
    ensures var ks := Keys(fixed + Filters(sortLang, category, country, year));
            ("sort_lang" in ks <==> sortLang != "") && ("category" in ks <==> category != "") &&
            ("country" in ks <==> country != "") && ("year" in ks <==> year != 0)
  {
    var fs := Filters(sortLang, category, country, year);
    KeysAppend(fixed, fs);
    FilterKeys(sortLang, category, country, year);
    var a, b := Keys(fixed), Keys(fs);
    assert "sort_lang" !in a && "category" !in a && "country" !in a && "year" !in a;
    assert Keys(fixed + fs) == a + b;
  }

  /** The optional filters are in the query exactly when set. */
  lemma FiltersPresence(u: Url, fixed: seq<Param>, sortLang: string, category: string, country: string, year: int)
    requires u.params == fixed + Filters(sortLang, category, country, year)
    requires forall i :: 0 <= i < |fixed| ==> fixed[i].0 in FixedNames
    ensures u.HasKey("sort_lang") <==> sortLang != ""
    ensures u.HasKey("category") <==> category != ""
    ensures u.HasKey("country") <==> country != ""
    ensures u.HasKey("year") <==> year != 0
  {
    KeysWithin(fixed, FixedNames);
    ParamKeys(fixed, sortLang, category, country, year);
    HasKeyIffAdded(u, "sort_lang");
    HasKeyIffAdded(u, "category");
    HasKeyIffAdded(u, "country");
    HasKeyIffAdded(u, "year");
  }

  /** A set filter is carried with its value. */
  lemma FiltersCarried(u: Url, fixed: seq<Param>, sortLang: string, category: string, country: string, year: int)
    requires u.params == fixed + Filters(sortLang, category, country, year)
    ensures sortLang != "" ==> u.Carries("sort_lang", sortLang)
    ensures category != "" ==> u.Carries("category", category)
    ensures country != "" ==> u.Carries("country", country)
    ensures year != 0 ==> u.Carries("year", Dec(year))
  {
    CarriesIffAdded(u, "sort_lang", sortLang);
    CarriesIffAdded(u, "category", category);
    CarriesIffAdded(u, "country", country);
    CarriesIffAdded(u, "year", Dec(year));
  }

  /** The list URL always carries page, sort field, sort type and limit, and a filter exactly when it is set. */
  lemma ListUrlParams(req: ListRequest)
    ensures var u := BuildListUrl(req);
            u.Carries("page", Dec(req.page)) && u.Carries("sort_field", req.sortField) &&
            u.Carries("sort_type", req.sortType) && u.Carries("limit", Dec(req.limit)) &&
            (u.HasKey("sort_lang") <==> req.sortLang != "") &&
            (u.HasKey("category") <==> req.category != "") &&
            (u.HasKey("country") <==> req.country != "") &&
            (u.HasKey("year") <==> req.year != 0) &&
            (req.year != 0 ==> u.Carries("year", Dec(req.year)))
  {
    var u := BuildListUrl(req);
    var fixed := [("page", Dec(req.page)), ("sort_field", req.sortField), ("sort_type", req.sortType), ("limit", Dec(req.limit))];
    FiltersPresence(u, fixed, req.sortLang, req.category, req.country, req.year);
    FiltersCarried(u, fixed, req.sortLang, req.category, req.country, req.year);
    CarriesIffAdded(u, "page", Dec(req.page));
    CarriesIffAdded(u, "sort_field", req.sortField);
    CarriesIffAdded(u, "sort_type", req.sortType);
    CarriesIffAdded(u, "limit", Dec(req.limit));
  }

  /** The search URL always carries the keyword as well. */
  lemma SearchUrlParams(req: SearchRequest)
    ensures var u := BuildSearchUrl(req);
            u.Carries("keyword", req.keyword) &&
            u.Carries("page", Dec(req.page)) && u.Carries("sort_field", req.sortField) &&
            u.Carries("sort_type", req.sortType) && u.Carries("limit", Dec(req.limit)) &&
            (u.HasKey("sort_lang") <==> req.sortLang != "") &&
            (u.HasKey("category") <==> req.category != "") &&
            (u.HasKey("country") <==> req.country != "") &&
            (u.HasKey("year") <==> req.year != 0)
  {
    var u := BuildSearchUrl(req);
    var fixed := [("keyword", req.keyword), ("page", Dec(req.page)), ("sort_field", req.sortField),
                  ("sort_type", req.sortType), ("limit", Dec(req.limit))];
    FiltersPresence(u, fixed, req.sortLang, req.category, req.country, req.year);
    FiltersCarried(u, fixed, req.sortLang, req.category, req.country, req.year);
    CarriesIffAdded(u, "keyword", req.keyword);
    CarriesIffAdded(u, "page", Dec(req.page));
    CarriesIffAdded(u, "sort_field", req.sortField);
    CarriesIffAdded(u, "sort_type", req.sortType);
    CarriesIffAdded(u, "limit", Dec(req.limit));
  }

  // ------------------------------------------------------------- resolvers

  /** `GetMovieList`: 16h results, tag TTL 12h, unparsable bodies are hard errors. */
  const ListFamily := Family("movie_list:cached_keys", 16, 12, false, "Unexpected response structure, skip caching", "failed to fetch from upstream API")

  /** `GetSearchMovies`: 8h results, tag TTL 12h, unparsable bodies are soft results. */
  const SearchFamily := Family("movie_search:cached_keys", 8, 12, true, "Unexpected response structure, skip caching", "failed to fetch search results from API")

  /**
   * `GetMovieList`, sequentially (request coalescing is not modelled), with the
   * normalised document cached and returned.
   */
  method GetMovieList(cache: Redis, req: ListRequest, origin: Origin, movies: map<string, Movie>, dbDown: bool, now: int)
    returns (r: Reply)
    modifies cache
    ensures (r, cache.State()) ==
            Resolution(ListFamily, old(cache.State()), BuildCacheKey(req), BuildListUrl(req).Render(), origin, movies, dbDown, now)
  {
    r := Resolve(ListFamily, cache, BuildCacheKey(req), BuildListUrl(req).Render(), origin, movies, dbDown, now);
  }

  /** `GetSearchMovies`; the map it returns is the cached JSON decoded again, i.e. the document itself. */
  method GetSearchMovies(cache: Redis, req: SearchRequest, origin: Origin, movies: map<string, Movie>, dbDown: bool, now: int)
    returns (r: Reply)
    modifies cache
    ensures (r, cache.State()) ==
            Resolution(SearchFamily, old(cache.State()), BuildSearchCacheKey(req), BuildSearchUrl(req).Render(), origin, movies, dbDown, now)
  {
    r := Resolve(SearchFamily, cache, BuildSearchCacheKey(req), BuildSearchUrl(req).Render(), origin, movies, dbDown, now);
  }

  /**
   * A list miss that is served stores the document for 16h, registers the key
   * under `movie_list:cached_keys` and gives that tag a 12h TTL; every other
   * outcome leaves the cache as it was.
   */
  lemma ListWriteThrough(st: CacheState, req: ListRequest, url: string, origin: Origin, movies: map<string, Movie>, dbDown: bool, now: int)
    requires CachedObject(Stored(st.values, BuildCacheKey(req))).None?
    ensures var key := BuildCacheKey(req);
            var res := Resolution(ListFamily, st, key, url, origin, movies, dbDown, now);
            (res.0.Served? ==>
               res.1.values == st.values[key := Marshal(res.0.doc)] &&
               key in res.1.ttl && res.1.ttl[key] == 16 && "movie_list:cached_keys" in res.1.ttl && res.1.ttl["movie_list:cached_keys"] == 12 &&
               ("movie_list:cached_keys" !in st.values ==> key in Members(res.1.sets, "movie_list:cached_keys"))) &&
            (!res.0.Served? ==> res.1 == st)
  {
    ListKeyIsNotTag(req);
    MissWrites(ListFamily, st, BuildCacheKey(req), url, origin, movies, dbDown, now);
  }

  /** A served search miss stores the document for 8h under `movie_search:cached_keys`, whose TTL becomes 12h. */
  lemma SearchWriteThrough(st: CacheState, req: SearchRequest, url: string, origin: Origin, movies: map<string, Movie>, dbDown: bool, now: int)
    requires CachedObject(Stored(st.values, BuildSearchCacheKey(req))).None?
    ensures var key := BuildSearchCacheKey(req);
            var res := Resolution(SearchFamily, st, key, url, origin, movies, dbDown, now);
            (res.0.Served? ==>
               res.1.values == st.values[key := Marshal(res.0.doc)] &&
               key in res.1.ttl && res.1.ttl[key] == 8 && "movie_search:cached_keys" in res.1.ttl && res.1.ttl["movie_search:cached_keys"] == 12 &&
               ("movie_search:cached_keys" !in st.values ==> key in Members(res.1.sets, "movie_search:cached_keys"))) &&
            (!res.0.Served? ==> res.1 == st)
  {
    SearchKeyIsNotTag(req);
    MissWrites(SearchFamily, st, BuildSearchCacheKey(req), url, origin, movies, dbDown, now);
  }

  /** Invalid JSON from upstream is a hard error for the list, a soft `raw_data` result for search. */
  lemma UnparsableBody(b: Bytes, url: string, movies: map<string, Movie>, dbDown: bool, now: int)
    requires UnmarshalObject(b).None?
    ensures FromOrigin(ListFamily, Some(b), url, movies, dbDown, now).reply.Failed?
    ensures FromOrigin(SearchFamily, Some(b), url, movies, dbDown, now).reply == Soft(ParseError, Some(b))
  {
  }

  // ----------------------------------------------- the list payload as written

  /**
   * What `GetMovieList` caches and returns as written: `apiResponse`, the
   * parsed body.  `IsValidApiResponse` rewrites its item maps in place, and in
   * the `data.items` shape `normalized` is `apiResponse` itself (so it also gets
   * the metadata); in the other shapes the normalised form is discarded.
   */
  function ListPayloadAsWritten(raw: Object, movies: map<string, Movie>, dbDown: bool, url: string, now: int): (r: Object)
    requires ShapeOf(raw).Some?
  {
    match ShapeOf(raw).value
    case DataItems => WithMetadata(Normalized(raw, movies, dbDown).value, url, now)
    case RootItems => raw["items" := Enriched(raw["items"], movies, dbDown)]
    case Listed(k) => raw[k := Enriched(raw[k], movies, dbDown)]
  }

  /** The document every other resolver caches and returns, which the model's `GetMovieList` uses. */
  function ListPayload(raw: Object, movies: map<string, Movie>, dbDown: bool, url: string, now: int): (r: Object)
    requires ShapeOf(raw).Some?
    ensures "data" in r && r["data"].JObj? && "items" in r["data"].fields
    ensures "from_cache" in r && "request_url" in r
    ensures r["from_cache"] == JBool(false) && r["request_url"] == JStr(url)
  {
    WithMetadata(Normalized(raw, movies, dbDown).value, url, now)
  }

  /** In the `data.items` shape the code as written caches the normalised document. */
  lemma AsWrittenAgreesOnDataItems(raw: Object, movies: map<string, Movie>, dbDown: bool, url: string, now: int)
    requires DataHasItems(raw)
    ensures ListPayloadAsWritten(raw, movies, dbDown, url, now) == ListPayload(raw, movies, dbDown, url, now)
  {
  }

  /** A root-level `{"items": []}` body is cached as written without `data` and without the metadata. */
  lemma AsWrittenDropsNormalisation(movies: map<string, Movie>, dbDown: bool, url: string, now: int)
    ensures var raw := map["items" := JArr([])];
            ShapeOf(raw) == Some(RootItems) &&
            "data" !in ListPayloadAsWritten(raw, movies, dbDown, url, now) &&
            "from_cache" !in ListPayloadAsWritten(raw, movies, dbDown, url, now) &&
            "data" in ListPayload(raw, movies, dbDown, url, now)
  {
    var raw := map["items" := JArr([])];
    assert ShapeOf(raw) == Some(RootItems);
    assert ListPayloadAsWritten(raw, movies, dbDown, url, now).Keys == {"items"};
  }

  /** The model's list resolver caches `ListPayload`. */
  lemma ListCachesPayload(raw: Object, url: string, movies: map<string, Movie>, dbDown: bool, now: int)
    requires ShapeOf(raw).Some?
    ensures FromOrigin(ListFamily, Some(Marshal(raw)), url, movies, dbDown, now).payload ==
            Some(Marshal(ListPayload(raw, movies, dbDown, url, now)))
  {
  }
}
