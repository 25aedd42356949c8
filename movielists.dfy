/**
 * The listing resolvers of the movie service: the newest-updates list and the
 * listings by category and by country, with their URLs and cache keys.
 */
module MovieLists {
  import opened Wrappers
  import opened Json
  import opened Text
  import opened Helpers
  import opened Models
  import opened QueryParams
  import opened Stores
  import opened ReadThrough
  import opened QueryServices

  // ---------------------------------------------------------------- newest

  const NewestBase := "https://phimapi.com/danh-sach/phim-moi-cap-nhat"

  /** What follows the common base of the newest-list URL: version 1 has no suffix, others `-v{v}`. */
  function NewestSuffix(page: int, v: int): (t: string)
    ensures |t| > 0 && t[0] == if v == 1 then '?' else '-'
  {
    if v == 1 then "?page=" + Dec(page) else "-v" + Dec(v) + "?page=" + Dec(page)
  }

  /** The upstream URL of `GetListNewestMovies`. */
  function NewestUrl(page: int, v: int): (u: string)
    ensures HasPrefix(u, NewestBase) && |u| > |NewestBase|
  {
    NewestBase + NewestSuffix(page, v)
  }

  /** Its cache key: the URL under `movie_newest:`. */
  function NewestCacheKey(page: int, v: int): (k: string)
    ensures HasPrefix(k, "movie_newest:") && k[|"movie_newest:"|..] == NewestUrl(page, v)
  {
    "movie_newest:" + NewestUrl(page, v)
  }

  lemma UnversionedInjective(p1: int, p2: int)
    requires "?page=" + Dec(p1) == "?page=" + Dec(p2)
    ensures p1 == p2
  {
    assert Dec(p1) == ("?page=" + Dec(p1))[6..];
    assert Dec(p2) == ("?page=" + Dec(p2))[6..];
    FormatInjective(p1, p2);
  }

  lemma VersionedInjective(p1: int, v1: int, p2: int, v2: int)
    requires "-v" + Dec(v1) + "?page=" + Dec(p1) == "-v" + Dec(v2) + "?page=" + Dec(p2)
    ensures p1 == p2 && v1 == v2
  {
    var t1, t2 := "-v" + Dec(v1) + "?page=" + Dec(p1), "-v" + Dec(v2) + "?page=" + Dec(p2);
    FormattedChars(v1); FormattedChars(v2);
    assert t1[2..] == Dec(v1) + ['?'] + ("page=" + Dec(p1));
    assert t2[2..] == Dec(v2) + ['?'] + ("page=" + Dec(p2));
    SplitAtSeparator(Dec(v1), "page=" + Dec(p1), Dec(v2), "page=" + Dec(p2), '?');
    assert Dec(p1) == ("page=" + Dec(p1))[5..];
    assert Dec(p2) == ("page=" + Dec(p2))[5..];
    FormatInjective(v1, v2);
    FormatInjective(p1, p2);
  }

  /** Different (page, version) pairs give different URLs, version 1 included. */
  lemma NewestUrlInjective(p1: int, v1: int, p2: int, v2: int)
    requires NewestUrl(p1, v1) == NewestUrl(p2, v2)
    ensures p1 == p2 && (v1 == 1 <==> v2 == 1) && (v1 != 1 ==> v1 == v2)
  {
    var n := |NewestBase|;
    var t1, t2 := NewestSuffix(p1, v1), NewestSuffix(p2, v2);
    assert t1 == NewestUrl(p1, v1)[n..] == NewestUrl(p2, v2)[n..] == t2;
    if v1 == 1 && v2 == 1 {
      UnversionedInjective(p1, p2);
    } else if v1 != 1 && v2 != 1 {
      VersionedInjective(p1, v1, p2, v2);
    }
  }

  /** So the newest-list keys are unique too. */
  lemma NewestKeyInjective(p1: int, v1: int, p2: int, v2: int)
    requires NewestCacheKey(p1, v1) == NewestCacheKey(p2, v2)
    ensures p1 == p2 && (v1 != 1 || v2 != 1 ==> v1 == v2)
  {
    assert NewestUrl(p1, v1) == NewestCacheKey(p1, v1)[13..] == NewestCacheKey(p2, v2)[13..] == NewestUrl(p2, v2);
    NewestUrlInjective(p1, v1, p2, v2);
  }

  const NewestFamily := Family("movie_newest:cached_keys", 16, 16, true, "Unexpected response structure", "failed to fetch newest movie list")

  lemma NewestKeyIsNotTag(page: int, v: int)
    ensures NewestCacheKey(page, v) != NewestFamily.tag
  {
    assert |NewestBase| == 47 && |NewestFamily.tag| == 24;
  }

  /** `GetListNewestMovies`. */
  method GetListNewestMovies(cache: Redis, page: int, v: int, origin: Origin, movies: map<string, Movie>, dbDown: bool, now: int)
    returns (r: Reply)
    modifies cache
    ensures (r, cache.State()) ==
            Resolution(NewestFamily, old(cache.State()), NewestCacheKey(page, v), NewestUrl(page, v), origin, movies, dbDown, now)
  {
    var targetUrl := NewestBase + (if v == 1 then "?page=" + Dec(page) else "-v" + Dec(v) + "?page=" + Dec(page));
    var cacheKey := "movie_newest:" + targetUrl;
    r := Resolve(NewestFamily, cache, cacheKey, targetUrl, origin, movies, dbDown, now);
  }

  // ------------------------------------------------- category and country

  function CategoryKeyFields(prefix: string, req: CategoryRequest): seq<string> {
    [prefix, req.category, Dec(req.page), req.sortField, req.sortType,
     req.sortLang, req.country, Dec(req.year), Dec(req.limit)]
  }

  /** `buildCategoryCacheKey`: eight request fields after `movie_category`. */
  function BuildCategoryCacheKey(req: CategoryRequest): (k: string)
    ensures HasPrefix(k, "movie_category:")
  {
    Join(CategoryKeyFields("movie_category", req), ':')
  }

  /** `buildCountryCacheKey`: the same eight fields, in the same order, after `movie_country`. */
  function BuildCountryCacheKey(req: CategoryRequest): (k: string)
    ensures HasPrefix(k, "movie_country:")
  {
    Join(CategoryKeyFields("movie_country", req), ':')
  }

  /** A category key never equals a country key: they differ at their eighth character. */
  lemma CategoryKeyIsNotCountryKey(a: CategoryRequest, b: CategoryRequest)
    ensures BuildCategoryCacheKey(a) != BuildCountryCacheKey(b)
  {
    var xs, ys := CategoryKeyFields("movie_category", a), CategoryKeyFields("movie_country", b);
    assert Join(xs, ':') == "movie_category" + ([':'] + Join(xs[1..], ':'));
    assert Join(ys, ':') == "movie_country" + ([':'] + Join(ys[1..], ':'));
    PrefixesDiffer("movie_category", "movie_country", [':'] + Join(xs[1..], ':'), [':'] + Join(ys[1..], ':'), 7);
  }

  /** The string fields of a category request hold no `:`. */
  predicate CategorySeparatorFree(req: CategoryRequest) {
    ':' !in req.category && ':' !in req.sortField && ':' !in req.sortType &&
    ':' !in req.sortLang && ':' !in req.country
  }

  /** Either key determines the request, when its string fields hold no `:`. */
  lemma CategoryKeyInjective(prefix: string, a: CategoryRequest, b: CategoryRequest)
    requires ':' !in prefix
    requires CategorySeparatorFree(a) && CategorySeparatorFree(b)
    requires Join(CategoryKeyFields(prefix, a), ':') == Join(CategoryKeyFields(prefix, b), ':')
    ensures a == b
  {
    var xs, ys := CategoryKeyFields(prefix, a), CategoryKeyFields(prefix, b);
    FormattedChars(a.page); FormattedChars(a.year); FormattedChars(a.limit);
    FormattedChars(b.page); FormattedChars(b.year); FormattedChars(b.limit);
    assert forall i :: 0 <= i < |xs| ==> ':' !in xs[i] && ':' !in ys[i];
    JoinInjective(xs, ys, ':');
    assert xs[2] == ys[2] && xs[7] == ys[7] && xs[8] == ys[8];
    FormatInjective(a.page, b.page);
    FormatInjective(a.year, b.year);
    FormatInjective(a.limit, b.limit);
  }

  function CategoryFixed(req: CategoryRequest): seq<Param> {
    [("page", Dec(req.page)), ("sort_field", req.sortField), ("sort_type", req.sortType), ("limit", Dec(req.limit))]
  }

  /** `buildCategoryURL`: the category is in the path; sort language, country and year are optional. */
  function BuildCategoryUrl(req: CategoryRequest): (u: Url)
    ensures u.base == "https://phimapi.com/v1/api/the-loai/" + req.category
  {
    Url("https://phimapi.com/v1/api/the-loai/" + req.category,
        CategoryFixed(req) + Filters(req.sortLang, "", req.country, req.year))
  }

  /** `buildCountryURL`: the country is in the path, and again in the query when set. */
  function BuildCountryUrl(req: CategoryRequest): (u: Url)
    ensures u.base == "https://phimapi.com/v1/api/quoc-gia/" + req.country
  {
    Url("https://phimapi.com/v1/api/quoc-gia/" + req.country,
        CategoryFixed(req) + Filters(req.sortLang, "", req.country, req.year))
  }

  /**
   * Both URLs always carry page, sort field, sort type and limit; sort
   * language, country and year exactly when set; never a category parameter.
   */
  lemma CategoryUrlParams(req: CategoryRequest, u: Url)
    requires u == BuildCategoryUrl(req) || u == BuildCountryUrl(req)
    ensures u.Carries("page", Dec(req.page)) && u.Carries("sort_field", req.sortField) &&
            u.Carries("sort_type", req.sortType) && u.Carries("limit", Dec(req.limit))
    ensures (u.HasKey("sort_lang") <==> req.sortLang != "") &&
            (u.HasKey("country") <==> req.country != "") &&
            (u.HasKey("year") <==> req.year != 0) &&
            !u.HasKey("category")
    ensures req.country != "" ==> u.Carries("country", req.country)
  {
    var fixed := CategoryFixed(req);
    KeysWithin(fixed, FixedNames);
    FiltersPresence(u, fixed, req.sortLang, "", req.country, req.year);
    FiltersCarried(u, fixed, req.sortLang, "", req.country, req.year);
    CarriesIffAdded(u, "page", Dec(req.page));
    CarriesIffAdded(u, "sort_field", req.sortField);
    CarriesIffAdded(u, "sort_type", req.sortType);
    CarriesIffAdded(u, "limit", Dec(req.limit));
  }

  const CategoryFamily := Family("movie_category:cached_keys", 16, 16, true, "Unexpected response structure", "failed to fetch category movies")

  const CountryFamily := Family("movie_country:cached_keys", 16, 16, true, "Unexpected response structure", "failed to fetch country movies")

  /** `ListMoviesByCategory` (its duplicate `SET` before the pipeline writes the same value). */
  method ListMoviesByCategory(cache: Redis, req: CategoryRequest, origin: Origin, movies: map<string, Movie>, dbDown: bool, now: int)
    returns (r: Reply)
    modifies cache
    ensures (r, cache.State()) ==
            Resolution(CategoryFamily, old(cache.State()), BuildCategoryCacheKey(req), BuildCategoryUrl(req).Render(), origin, movies, dbDown, now)
  {
    r := Resolve(CategoryFamily, cache, BuildCategoryCacheKey(req), BuildCategoryUrl(req).Render(), origin, movies, dbDown, now);
  }

  /** `ListMoviesByCountry`. */
  method ListMoviesByCountry(cache: Redis, req: CategoryRequest, origin: Origin, movies: map<string, Movie>, dbDown: bool, now: int)
    returns (r: Reply)
    modifies cache
    ensures (r, cache.State()) ==
            Resolution(CountryFamily, old(cache.State()), BuildCountryCacheKey(req), BuildCountryUrl(req).Render(), origin, movies, dbDown, now)
  {
    r := Resolve(CountryFamily, cache, BuildCountryCacheKey(req), BuildCountryUrl(req).Render(), origin, movies, dbDown, now);
  }

  /** A listing keyed by the request fields after `prefix`, whose tag is `prefix:cached_keys`, writes through on a miss. */
  lemma KeyedMissWrites(f: Family, prefix: string, tag: string, key: string, ttl: nat, st: CacheState, req: CategoryRequest,
                        url: string, origin: Origin, movies: map<string, Movie>, dbDown: bool, now: int)
    requires tag == f.tag == prefix + ":" + "cached_keys" && f.ttl == ttl && f.tagTtl == ttl
    requires key == Join(CategoryKeyFields(prefix, req), ':')
    requires CachedObject(Stored(st.values, key)).None?
    ensures var res := Resolution(f, st, key, url, origin, movies, dbDown, now);
            (res.0.Served? ==>
               res.1.values == st.values[key := Marshal(res.0.doc)] &&
               key in res.1.ttl && res.1.ttl[key] == ttl && tag in res.1.ttl && res.1.ttl[tag] == ttl &&
               (tag !in st.values ==> key in Members(res.1.sets, tag))) &&
            (!res.0.Served? ==> res.1 == st)
  {
    JoinedKeyIsNotTag(CategoryKeyFields(prefix, req), "cached_keys");
    MissWrites(f, st, key, url, origin, movies, dbDown, now);
  }

  /**
   * A served category miss is cached for 16h and registered in
   * `movie_category:cached_keys`, whose TTL becomes 16h; a soft or failed
   * result (an unparsable body, an unknown shape, no response) writes nothing.
   */
  lemma CategoryWriteThrough(st: CacheState, req: CategoryRequest, url: string, origin: Origin,
                             movies: map<string, Movie>, dbDown: bool, now: int)
    requires CachedObject(Stored(st.values, BuildCategoryCacheKey(req))).None?
    ensures var key := BuildCategoryCacheKey(req);
            var res := Resolution(CategoryFamily, st, key, url, origin, movies, dbDown, now);
            (res.0.Served? ==>
               res.1.values == st.values[key := Marshal(res.0.doc)] &&
               key in res.1.ttl && res.1.ttl[key] == 16 &&
               "movie_category:cached_keys" in res.1.ttl && res.1.ttl["movie_category:cached_keys"] == 16 &&
               ("movie_category:cached_keys" !in st.values ==> key in Members(res.1.sets, "movie_category:cached_keys"))) &&
            (!res.0.Served? ==> res.1 == st)
  {
    KeyedMissWrites(CategoryFamily, "movie_category", "movie_category:cached_keys", BuildCategoryCacheKey(req), 16, st, req,
                    url, origin, movies, dbDown, now);
  }

  /** The same for the country listing, under `movie_country:cached_keys`. */
  lemma CountryWriteThrough(st: CacheState, req: CategoryRequest, url: string, origin: Origin,
                            movies: map<string, Movie>, dbDown: bool, now: int)
    requires CachedObject(Stored(st.values, BuildCountryCacheKey(req))).None?
    ensures var key := BuildCountryCacheKey(req);
            var res := Resolution(CountryFamily, st, key, url, origin, movies, dbDown, now);
            (res.0.Served? ==>
               res.1.values == st.values[key := Marshal(res.0.doc)] &&
               key in res.1.ttl && res.1.ttl[key] == 16 &&
               "movie_country:cached_keys" in res.1.ttl && res.1.ttl["movie_country:cached_keys"] == 16 &&
               ("movie_country:cached_keys" !in st.values ==> key in Members(res.1.sets, "movie_country:cached_keys"))) &&
            (!res.0.Served? ==> res.1 == st)
  {
    KeyedMissWrites(CountryFamily, "movie_country", "movie_country:cached_keys", BuildCountryCacheKey(req), 16, st, req,
                    url, origin, movies, dbDown, now);
  }
}
