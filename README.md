# ani4s core, modelled in Dafny

ani4s is a caching proxy in front of the phimapi.com movie catalogue. It keeps
Redis as a read-through cache, Postgres as the durable store of movies,
episodes, categories and countries, and a MinIO bucket as the mirror of the
images served by phimimg.com. This project models the deterministic core of
that service over abstract stores and proves what the code promises about it.

- **Stores** (`stores.dfy`):
  - `Redis` keeps string values, set-valued tag keys and the TTL each key was last given;
  - `Database` keeps the four tables plus its fault behaviour;
  - `BlobStore` is the bucket;
  - the upstream hosts are an oracle `Origin` (URL to response; an absent URL is a transport failure).
- **JSON** (`json.dfy`): a `Json` datatype. Byte strings are either the text `json.Marshal` writes for a value or opaque octets that never parse.
- **Keys and URLs** (`queryservices.dfy`, `movielists.dfy`, `details.dfy`, `urls.dfy`): every resolver family's cache key and upstream URL. They come with injectivity, non-collision and parameter-presence lemmas. `url.Values.Encode` is a stable sort by key.
- **Read-through resolvers** (`readthrough.dfy` and the family modules): cache, then origin, then shape normalisation, then a write-through to the cache and the family's tag set. Each is a method on the stores, proved equal to a function of the old state; the lemmas about it are stated on that function.
- **Details** (`details.dfy`): the cache, then the tables (episodes grouped by server), then the origin, with a save in one transaction whose inserts are `ON CONFLICT DO NOTHING`.
- **Normalisation** (`normalize.dfy`): `IsValidApiResponse` and `EnrichThumbFromDatabase`.
- **Images** (`images.dfy`, `files.dfy`, `paths.dfy`): the download-once mirror; the three-tier `FileService`; the path `url.Parse` extracts from an image URL.
- **Background jobs** (`background.dfy`): the tag sweep and the thumbnail/poster sweep.
- **Catalogues** (`fast.dfy`): the category and country lists with the `mien-tay` rename and the table sync.
- **Helpers** (`helpers.dfy`, `querycontroller.dfy`): pagination, offsets, the `strconv` wrappers and the request defaulting of `GetMovieList`.

A `FileService` cache hit returns without touching MinIO, so `Files.Serve` promises nothing about the bucket on a hit.

Three operations of the code do what their authors evidently did not intend (see "## Findings"). For each, one member models the code as written and exhibits the discrepancy, and the live operation runs the corrected behaviour:

- `QueryServices.GetMovieList` caches and returns the normalised list document with its metadata, not the raw `apiResponse`;
- `Background.SyncSlug` reads the thumbnail of a result from the tables or the origin too, not only of one decoded from the cache;
- `Fast.SyncCountries`, `Fast.CountriesResolution` and `Fast.ListAllCountry` store each new country under its own id, not a row holding only the name.

## Model

| member | source | states |
|---|---|---|
| Helpers.Paginate | src/utils/helpers.go:21-50 | a non-positive page size counts as 1; `total_pages` is the least page count covering `total`; `next_page` exists exactly when `page < total_pages` and is `page+1`; `previous_page` exists exactly when `page > 1` and is `page-1` |
| Helpers.CeilDiv | src/utils/helpers.go:28 | the exact integer ceiling of `a/b` for a positive `b`: `(q-1)*b < a <= q*b` |
| Helpers.CalculateOffset | src/utils/helpers.go:100-121 | `orderBy` defaults to `created_at`; `sortBy` always ends in {asc, desc} and is kept when already there; the offset is never negative and equals `max(0, (page-1)*perPage)` whenever that fits in int64 |
| Helpers.Wrap64 | src/utils/helpers.go:109 | the 64-bit wrap-around of the offset product: in range, and the identity on values that already fit |
| Helpers.ConvertInt64ToString | src/utils/helpers.go:62-64 | decimal text: digits only for non-negative numbers, a `-` then digits otherwise |
| Helpers.ConvertStringToUint | src/utils/helpers.go:72-78 | succeeds exactly on non-empty digit strings whose value is below 2^64 |
| Helpers.ConvertStringToInt64 | src/utils/helpers.go:53-59 | success needs a non-empty text that is digits after an optional sign, and the value is an int64; an unsigned digit string within the int64 range parses as its value; a failure is an error outcome |
| Helpers.ConvertInt64ToUint | src/utils/helpers.go:67-69 | the two's-complement reinterpretation: identity on non-negative values, `i + 2^64` on negative ones |
| Helpers.Int64RoundTrip | src/utils/helpers.go:53-64 | parsing the printed text of any int64 gives the same number back |
| Helpers.UintOfFormatted | src/utils/helpers.go:62-78 | a printed non-negative int64 parses as the same uint; a printed negative one is refused |
| Helpers.FormatInjective | src/utils/helpers.go:62-64 | different numbers never print the same text |
| Helpers.FormattedChars | src/utils/helpers.go:62-64 | printed numbers hold only digits and `-`, never a key or query separator |
| Helpers.DigitsValueOfFormat | src/utils/helpers.go:53-64 | the digits printed for a natural number read back as that number |
| Text.TrimPrefix | src/modules/files/services/file.services.go:19 | drops one copy of the prefix when present and changes nothing otherwise |
| Text.SplitAtSeparator | src/modules/movies/services/query.services.go:171 | when neither first part contains the separator, the joined string determines both parts |
| Text.JoinInjective | src/modules/movies/services/query.services.go:170-174 | joining separator-free fields with `:` can be undone field by field |
| Text.PrefixesDiffer | src/modules/movies/services/query.services.go:170-205 | two strings whose prefixes disagree at some position are different |
| Json.Marshal | src/modules/movies/services/query.services.go:128 | a marshalled object always has at least one byte, so it passes the `len(cached) > 0` test |
| Json.UnmarshalObject | src/modules/movies/services/query.services.go:25 | decoding into a map succeeds exactly on the text of a JSON object, giving its fields, or on `null`, giving the nil map, which reads as empty |
| Json.MarshalRoundTrip | src/modules/movies/services/query.services.go:128-142 | the object decoded from marshalled text is the object itself |
| Json.StringField | src/services/background.services.go:80 | the comma-ok string assertion: a value exactly when the key holds a string |
| Models.MovieRoundTrip | src/modules/movies/models/movie.model.go:10-19 | the modelled movie fields survive a trip through their JSON tags |
| Models.EpisodesRoundTrip | src/modules/movies/models/movie-details.model.go:18-27 | episodes survive JSON except the `json:"-"` fields `MovieID` and `ServerName`, which come back empty |
| Models.DecodeDetails | src/modules/movies/services/movie.services.go:184-192 | `json.Unmarshal` into `MovieDetails`: null decodes to the zero value, a non-object or a mistyped field fails; `DetailsRoundTrip` states what survives |
| Models.DetailsRoundTrip | src/modules/movies/models/movie-details.model.go:5-27 | a details body written under the struct tags decodes to the same status, message and movie, and to the episode groups less the fields tagged `json:"-"` |
| Models.GroupsRoundTrip | src/modules/movies/models/movie-details.model.go:12-15 | episode groups survive JSON up to those hidden episode fields |
| Models.CategoriesRoundTrip | src/modules/movies/models/movie.model.go:61-65 | a category list decodes back from its encoding unchanged |
| Models.EncodeCategories | src/modules/movies/models/movie.model.go:61-65 | one JSON object per category, in order |
| QueryParams.Insert | src/modules/movies/services/query.services.go:166 | inserting a parameter into a key-sorted list keeps it sorted and adds exactly that parameter |
| QueryParams.SortByKey | src/modules/movies/services/query.services.go:166 | the order `Encode` writes parameters in: sorted by key and a permutation of what was added |
| QueryParams.Pairs | src/modules/movies/services/query.services.go:166 | one `k=v` text per parameter, in order |
| QueryParams.Encode | src/modules/movies/services/query.services.go:166 | no parameters encode as the empty query |
| QueryParams.LessAsymmetric | src/modules/movies/services/query.services.go:166 | the key order never puts two keys before each other |
| QueryParams.CarriesIffAdded | src/modules/movies/services/query.services.go:149-166 | a pair is in the encoded query exactly when it was added |
| QueryParams.HasKeyIffAdded | src/modules/movies/services/query.services.go:149-166 | a key is in the encoded query exactly when some added pair has it |
| QueryParams.KeysAppend | src/modules/movies/services/query.services.go:149-165 | the keys of two parameter lists put together are the keys of each |
| QueryParams.InKeys | src/modules/movies/services/query.services.go:149-165 | a key belongs to a parameter list exactly when some entry carries it |
| QueryParams.KeysWithin | src/modules/movies/services/query.services.go:149-153 | a list whose every key is allowed has only allowed keys |
| QueryServices.BuildCacheKey | src/modules/movies/services/query.services.go:170-174 | list keys start with `movie_list:` |
| QueryServices.BuildSearchCacheKey | src/modules/movies/services/query.services.go:201-205 | search keys start with `movie_search:` |
| QueryServices.ListKeyInjective | src/modules/movies/services/query.services.go:169-174 | the promised unique key: two list requests without `:` in their strings and with the same key are the same request |
| QueryServices.ListKeyIsNotSearchKey | src/modules/movies/services/query.services.go:170-205 | a list key never equals a search key |
| QueryServices.ListKeyIsNotTag | src/modules/movies/services/query.services.go:170-174 | a list key is never the list tag key |
| QueryServices.SearchKeyIsNotTag | src/modules/movies/services/query.services.go:201-205 | a search key is never the search tag key |
| QueryServices.JoinedKeyIsNotTag | src/modules/movies/services/query.services.go:170-174 | a key of three or more fields is never `prefix:cached_keys` |
| QueryServices.BuildListUrl | src/modules/movies/services/query.services.go:147-167 | the list URL lives under `/v1/api/danh-sach/{type}` |
| QueryServices.BuildSearchUrl | src/modules/movies/services/query.services.go:176-199 | the search URL lives under `/v1/api/tim-kiem` |
| QueryServices.FilterKeys | src/modules/movies/services/query.services.go:154-165 | each optional filter contributes its key exactly when it is set |
| QueryServices.ParamKeys | src/modules/movies/services/query.services.go:149-165 | with the fixed parameters, each filter key is present exactly when the filter is set |
| QueryServices.FiltersPresence | src/modules/movies/services/query.services.go:154-165 | `sort_lang`, `category`, `country` and `year` appear in the query exactly when set |
| QueryServices.FiltersCarried | src/modules/movies/services/query.services.go:154-165 | a set filter is carried with its value |
| QueryServices.ListUrlParams | src/modules/movies/services/query.services.go:147-167 | the list URL always carries page, sort field, sort type and limit; each filter exactly when set, the year with its value |
| QueryServices.SearchUrlParams | src/modules/movies/services/query.services.go:176-199 | the search URL also always carries the keyword |
| QueryServices.GetMovieList | src/modules/movies/services/query.services.go:16-79 | the reply and the new cache are the list family's read-through of the old cache; the corrected payload, the normalised document with its metadata, is what is cached and returned |
| QueryServices.GetSearchMovies | src/modules/movies/services/query.services.go:82-144 | the reply and the new cache are the search family's read-through of the old cache |
| QueryServices.ListWriteThrough | src/modules/movies/services/query.services.go:62-69 | a served list miss stores the document for 16h, adds the key to `movie_list:cached_keys` unless that key holds a string, and gives that tag 12h; any other outcome writes nothing |
| QueryServices.SearchWriteThrough | src/modules/movies/services/query.services.go:130-138 | a served search miss stores the document for 8h under `movie_search:cached_keys`, whose TTL becomes 12h |
| QueryServices.UnparsableBody | src/modules/movies/services/query.services.go:40-111 | a body that does not decode into a map (so not `null`) is a hard error for the list and a soft `raw_data` result for search |
| QueryServices.ListPayload | src/modules/movies/services/query.services.go:45-56 | the corrected list payload always has `data.items` and is marked fresh with its request URL |
| QueryServices.AsWrittenAgreesOnDataItems | src/modules/movies/services/query.services.go:45-71 | in the `data.items` shape the code as written already caches the normalised document |
| QueryServices.ListPayloadAsWritten | src/modules/movies/services/query.services.go:45-71 | the list payload as written: the normalised document with its metadata in the `data.items` shape; otherwise the raw body with its list enriched in place and no metadata |
| QueryServices.AsWrittenDropsNormalisation | src/modules/movies/services/query.services.go:59-71 | as written, a root-level `{"items": []}` body is cached without `data` and without the metadata |
| QueryServices.ListCachesPayload | src/modules/movies/services/query.services.go:45-69 | the model's list resolver caches the normalised document with its metadata |
| ReadThrough.Stored | src/modules/movies/services/query.services.go:23 | `GET` answers exactly for present keys |
| ReadThrough.CachedObject | src/modules/movies/services/query.services.go:23-29 | a hit needs bytes that decode to an object; those bytes are non-empty and are that object's text; anything else, `null` included, is a miss |
| ReadThrough.FromOrigin | src/modules/movies/services/query.services.go:32-71 | no response is a hard error with the family's own text; a body that does not decode into a map is soft or hard by family; a decoded map of unknown shape (`null` included) is the soft shape error; the result is served, and cached, exactly when the body decodes and has a known shape, as the normalised body with its metadata (for the list family, the corrected payload) |
| ReadThrough.NullBody | src/modules/movies/services/query.services.go:37-51 | an origin body `null` decodes to the nil map, which has no known shape: every family answers its soft shape error without `raw_data` and caches nothing |
| ReadThrough.WriteThroughEffect | src/modules/movies/services/query.services.go:65-69 | the pipeline stores the payload with the family TTL, refreshes the tag TTL, registers the key unless the tag holds a string, and touches no other key |
| ReadThrough.Resolution | src/modules/movies/services/query.services.go:20-79 | a decodable hit is served marked `from_cache` with the cache unchanged; any result that is not served leaves the cache unchanged; a miss is `FromOrigin`, so the list family serves the corrected payload |
| ReadThrough.MissWrites | src/modules/movies/services/movie.services.go:356-372 | on a miss, a served result is written through with the family TTLs and tag; a soft or failed one writes nothing |
| ReadThrough.HitIgnoresOrigin | src/modules/movies/services/movie.services.go:324-330 | a decodable hit does not depend on the origin or the clock and is marked `from_cache` |
| ReadThrough.MissThenHit | src/modules/movies/services/movie.services.go:324-374 | after a served miss, asking again serves the same document from the cache, marked `from_cache`, and changes nothing |
| ReadThrough.Resolve | src/modules/movies/services/movie.services.go:316-375 | the method on the Redis object equals `Resolution` of the old cache |
| Normalize.ItemId | src/utils/helpers.go:192-194 | an item id is present only as a non-empty string `_id` of an object |
| Normalize.DbThumb | src/utils/helpers.go:219-224 | only a non-empty database thumbnail is ever used |
| Normalize.Retouch | src/utils/helpers.go:227-235 | an item is rewritten exactly when the database has a non-empty thumbnail for its id, and then only `thumb_url` is set |
| Normalize.Enriched | src/utils/helpers.go:182-238 | non-lists, or any list when the query fails, come back unchanged; lists keep their length and order and are retouched item by item |
| Normalize.EnrichedTouchesOnlyThumbs | src/utils/helpers.go:227-235 | an enriched item equals the original, or differs only in `thumb_url`, which then holds the database's non-empty value for its `_id` |
| Normalize.EnrichThumbFromDatabase | src/utils/helpers.go:182-238 | the loops collecting ids, building the thumbnail map and overwriting items compute `Enriched` |
| Normalize.FirstPresent | src/utils/helpers.go:166-177 | the first candidate key present in the body, with none before it |
| Normalize.ShapeOf | src/utils/helpers.go:134-179 | some shape matches exactly when one of `data`, `items`, `episodes`, `movies`, `list` is present; `data.items` wins, then root `items`, then the first present candidate |
| Normalize.Normalized | src/utils/helpers.go:134-179 | normalisation succeeds exactly when a shape matches, and always yields `data.items` |
| Normalize.DataItemsKeepsBody | src/utils/helpers.go:136-142 | in the `data.items` shape the body is returned with only `data.items` replaced by its enrichment |
| Normalize.RootItemsPagination | src/utils/helpers.go:147-160 | in the root `items` shape, `pagination` is copied under `data` exactly when present and not null |
| Normalize.IsValidApiResponse | src/utils/helpers.go:134-180 | `ok` exactly when a shape matches; the result is then `Normalized`, and otherwise the nil map |
| Normalize.WithMetadata | src/modules/movies/services/query.services.go:54-56 | `from_cache=false`, `request_url` and `timestamp` are added and every other key is kept |
| Stores.Redis.Get | src/modules/movies/services/query.services.go:23 | `GET` returns the stored bytes exactly for present keys |
| Stores.Redis.Set | src/modules/movies/services/query.services.go:66 | `SET ... EX` replaces the value, records the TTL and drops any set under the key |
| Stores.Redis.Del | src/modules/movies/services/movie.services.go:271 | `DEL` removes the key in every form |
| Stores.Redis.SAdd | src/modules/movies/services/query.services.go:67 | `SADD` adds the member unless the key holds a string, which Redis refuses |
| Stores.Redis.Expire | src/modules/movies/services/query.services.go:68 | `EXPIRE` sets a TTL only on an existing key |
| Stores.Redis.SMembers | src/services/background.services.go:53 | the members of a tag, empty when absent |
| Stores.BlobStore.GetObject | src/modules/files/services/file.services.go:34-46 | a read succeeds exactly when the bucket exists and holds the key |
| Stores.BlobStore.PutObject | src/utils/helpers.go:322-329 | an upload replaces exactly the named object |
| Stores.BlobStore.MakeBucket | src/utils/helpers.go:314-319 | the bucket exists afterwards and its objects are unchanged |
| Stores.Fetch | src/modules/movies/services/movie.services.go:21-81 | a body is returned exactly for URLs that answer, whatever the HTTP status |
| MovieLists.NewestSuffix | src/modules/movies/services/movie.services.go:89-93 | version 1 has no version suffix; every other version has `-v{v}` |
| MovieLists.NewestUrl | src/modules/movies/services/movie.services.go:88-93 | every newest URL extends `phim-moi-cap-nhat` |
| MovieLists.NewestCacheKey | src/modules/movies/services/movie.services.go:95 | the key is exactly `movie_newest:` + the URL |
| MovieLists.UnversionedInjective | src/modules/movies/services/movie.services.go:90 | the version-1 URL determines the page |
| MovieLists.VersionedInjective | src/modules/movies/services/movie.services.go:92 | a versioned URL determines page and version |
| MovieLists.NewestUrlInjective | src/modules/movies/services/movie.services.go:88-93 | different (page, version) pairs give different URLs, except that the version is irrelevant among version-1 requests |
| MovieLists.NewestKeyInjective | src/modules/movies/services/movie.services.go:95 | the newest keys are unique in the same sense |
| MovieLists.NewestKeyIsNotTag | src/modules/movies/services/movie.services.go:138 | a newest key is never its tag key |
| MovieLists.GetListNewestMovies | src/modules/movies/services/movie.services.go:83-151 | the newest family's read-through of the old cache, with TTL 16h for the result and the tag |
| MovieLists.BuildCategoryCacheKey | src/modules/movies/services/movie.services.go:399-403 | category keys start with `movie_category:` |
| MovieLists.BuildCountryCacheKey | src/modules/movies/services/movie.services.go:487-491 | country keys start with `movie_country:` |
| MovieLists.CategoryKeyIsNotCountryKey | src/modules/movies/services/movie.services.go:487-491 | a category key never equals a country key |
| MovieLists.CategoryKeyInjective | src/modules/movies/services/movie.services.go:399-403 | either key, over the same 8 fields, determines a request without `:` in its strings |
| MovieLists.BuildCategoryUrl | src/modules/movies/services/movie.services.go:378-396 | the category URL lives under `/v1/api/the-loai/{category}` |
| MovieLists.BuildCountryUrl | src/modules/movies/services/movie.services.go:467-485 | the country URL lives under `/v1/api/quoc-gia/{country}` |
| MovieLists.CategoryUrlParams | src/modules/movies/services/movie.services.go:378-396 | both URLs always carry page, sort field, sort type and limit; `sort_lang`, `country` and `year` exactly when set; never `category` |
| MovieLists.ListMoviesByCategory | src/modules/movies/services/movie.services.go:316-375 | the category family's read-through of the old cache |
| MovieLists.ListMoviesByCountry | src/modules/movies/services/movie.services.go:406-465 | the country family's read-through of the old cache |
| MovieLists.CategoryWriteThrough | src/modules/movies/services/movie.services.go:339-372 | a served category miss is cached for 16h in `movie_category:cached_keys` with tag TTL 16h; an unparsable body, unknown shape or missing response writes nothing |
| MovieLists.CountryWriteThrough | src/modules/movies/services/movie.services.go:429-462 | the same for countries under `movie_country:cached_keys` |
| MovieLists.KeyedMissWrites | src/modules/movies/services/movie.services.go:339-372 | any listing keyed by request fields after a prefix, whose tag is `prefix:cached_keys`, writes through on a miss: the document with the family TTL, the tag TTL, and the key in the tag unless that key holds a string |
| Details.DetailsUrl | src/modules/movies/services/movie.services.go:158 | the detail URL ends with exactly the slug |
| Details.DetailsCacheKey | src/modules/movies/services/movie.services.go:159 | the detail key is `movie_details:` + the URL |
| Details.DetailsKeyInjective | src/modules/movies/services/movie.services.go:158-159 | distinct slugs never share a cache entry |
| Details.DetailsKeyIsNotTag | src/modules/movies/services/movie.services.go:304 | a detail key is never the detail tag key |
| Details.DetailsDocReadsBack | src/modules/movies/services/movie.services.go:228-244 | the cached document decodes back to itself, and its `data` to the movie and the groups less their hidden fields |
| Details.StampGroup | src/modules/movies/services/movie.services.go:205-210 | every episode of a group is stamped with the movie id and the group's server name |
| Details.StampedSplit | src/modules/movies/services/movie.services.go:205-221 | the stamped rows of groups split around any one group |
| Details.StampedPrefix | src/modules/movies/services/movie.services.go:205-221 | the stamped rows of one more group extend the stamped rows so far |
| Details.StampedRowsOwned | src/modules/movies/services/movie.services.go:205-210 | every inserted row belongs to the movie and is an API episode with its own group's server name |
| Details.SlugsOfAppend | src/modules/movies/services/movie.services.go:211-214 | the slugs of two row lists together are the slugs of each |
| Details.InsertRowsAppend | src/modules/movies/services/movie.services.go:205-221 | inserting two batches is inserting one, then the other |
| Details.InsertRow | src/modules/movies/services/movie.services.go:211-219 | `INSERT ... ON CONFLICT (slug) DO NOTHING`: a row whose slug is present changes nothing, otherwise it is appended |
| Details.InsertRows | src/modules/movies/services/movie.services.go:205-221 | the episode inserts one after another; `InsertRowsKeeps`, `InsertRowsSlugs`, `InsertRowsUnique` and `InsertRowsFromAdded` state their effect |
| Details.InsertRowsKeeps | src/modules/movies/services/movie.services.go:211-214 | `ON CONFLICT (slug) DO NOTHING` keeps every existing row as it was |
| Details.InsertRowsSlugs | src/modules/movies/services/movie.services.go:211-214 | afterwards every added slug is present and no other slug is new |
| Details.InsertRowsUnique | src/modules/movies/services/movie.services.go:211-214 | slugs stay unique |
| Details.InsertRowsFromAdded | src/modules/movies/services/movie.services.go:211-214 | every new row is one of the added rows |
| Details.InsertRowsPresent | src/modules/movies/services/movie.services.go:211-214 | inserting rows whose slugs are all present changes nothing |
| Details.InsertMovie | src/modules/movies/services/movie.services.go:197-200 | `ON CONFLICT (id) DO NOTHING`: the id is present afterwards, an existing row is kept, a new one holds the movie, and no other row appears |
| Details.SaveIdempotent | src/modules/movies/services/movie.services.go:197-221 | saving the same details twice leaves one movie per id and one episode per slug, the same as saving once |
| Details.SavedRows | src/modules/movies/services/movie.services.go:197-221 | after a save old rows are untouched, slugs are unique, and every new row belongs to the movie with its group's server |
| Details.SaveDetails | src/modules/movies/services/movie.services.go:195-225 | the transaction commits exactly when no statement and not the commit fails; then both inserts happen, otherwise nothing does |
| Details.Commits | src/modules/movies/services/movie.services.go:195-225 | the transaction commits exactly when the database is up, the movie insert succeeds, no stamped episode is rejected and the commit succeeds |
| Details.SaveError | src/modules/movies/services/movie.services.go:197-225 | the error of an aborted save: `failed to upsert movie`, else `failed to upsert episode` for a rejected episode, else `transaction commit failed` |
| Details.InsertGroup | src/modules/movies/services/movie.services.go:205-220 | one server group's inserts succeed exactly when none of its stamped slugs is rejected, and then extend the rows by `InsertRows`; a rejection means the whole save is rejected |
| Details.TablesGrown | src/modules/movies/services/movie.services.go:197-221 | old episode rows are a prefix of the new ones and every old movie keeps its row |
| Details.OwnedRows | src/modules/movies/services/movie.services.go:265 | `WHERE movie_id = ?` selects exactly the movie's rows |
| Details.OnServerMembers | src/modules/movies/services/movie.services.go:277-280 | a server's bucket holds exactly that server's rows |
| Details.GroupedOnce | src/modules/movies/services/movie.services.go:276-288 | each row sits in exactly one group, the one named by its server |
| Details.TotalFrame | src/modules/movies/services/movie.services.go:276-288 | changing a bucket outside the names counted leaves the total alone |
| Details.TotalBump | src/modules/movies/services/movie.services.go:279 | appending one row to a counted bucket adds one to the total |
| Details.OnServerStep | src/modules/movies/services/movie.services.go:277-280 | one more row extends only its own server's bucket |
| Details.OnServerAbsent | src/modules/movies/services/movie.services.go:277-280 | a server no row names has an empty bucket |
| Details.BucketStep | src/modules/movies/services/movie.services.go:279 | appending a row to its server's bucket keeps every bucket exact |
| Details.BucketByServer | src/modules/movies/services/movie.services.go:276-280 | the first loop maps each server to exactly its rows, names each server once, and loses no row |
| Details.CollectGroups | src/modules/movies/services/movie.services.go:282-288 | the second loop makes one group per server name in order, holding all the rows |
| Details.GroupByServer | src/modules/movies/services/movie.services.go:275-288 | one non-empty group per server, distinct names, each with exactly that server's rows, total count preserved |
| Details.Collected | src/modules/movies/services/movie.services.go:282-288 | exact buckets collected one per name form the grouping of the rows |
| Details.DeleteThenSet | src/modules/movies/services/movie.services.go:271 | a `DEL` followed by a `SET` of the same key leaves no trace |
| Details.GetMovieDetailsFromDB | src/modules/movies/services/movie.services.go:249-314 | no database or no movie: a miss with the cache unchanged; a movie whose rows exist: its grouped rows, cached with the tag; a movie without rows: a miss, and the cache is exactly the old cache with the details key deleted |
| Details.GetDetailsMovie | src/modules/movies/services/movie.services.go:153-247 | `DetailsStep` of the old and the new stores: a decodable hit is served marked `from_cache` with the cache unchanged; otherwise a movie with rows in the tables is served from the tables; a typed result either came from the tables or was fetched, saved in a committed transaction and cached for 16h without a tag; an invalid body is soft with its raw data; a failure is no response (`failed to fetch movie details`) or an aborted transaction whose text names the statement that failed; only a typed result changes the tables; existing rows are never changed |
| Details.DetailsStep | src/modules/movies/services/movie.services.go:153-247 | the whole detail lookup as a relation between the old and the new cache and tables, with the outcome of each branch and the error texts |
| Details.DetailsDoc | src/modules/movies/services/movie.services.go:227-236 | the response document: `data.movie`, `data.episodes`, `from_cache`, `request_url` and `timestamp` |
| Images.Downloaded | src/utils/helpers.go:281-335 | a URL off the image host is returned unchanged with no store touched; on the host the result is the URL less the prefix; an existing object means no download; a non-200 answer is an error with no upload; the bucket is created only when absent; no other object changes |
| Images.DownloadStores | src/utils/helpers.go:309-334 | a good download stores the origin's bytes and content type under the path |
| Images.DownloadIdempotent | src/utils/helpers.go:292-296 | once downloaded, an image is never fetched again |
| Images.DownloadImageIfNotExist | src/utils/helpers.go:281-335 | the method on the bucket computes `Downloaded` |
| Files.ObjectKey | src/modules/files/services/file.services.go:19 | the object key is the path less one leading `/` |
| Files.ImageCacheKey | src/modules/files/services/file.services.go:22 | the cache key is `image_cache:` + the object key |
| Files.Serve | src/modules/files/services/file.services.go:18-78 | a non-empty hit is served sniffed with nothing touched; every error is a 404 that changes nothing; any other success leaves the bytes in the cache, the content type as recorded and the object in the bucket |
| Files.RetryUsesObjectKey | src/modules/files/services/file.services.go:49-58 | the download strips the prefix it was given, so the retried read uses the object key |
| Files.BucketHit | src/modules/files/services/file.services.go:34-43 | a bucket hit is served as stored and cached for 6h, without consulting the image host |
| Files.DownloadedImage | src/modules/files/services/file.services.go:49-77 | a double miss downloads `https://phimimg.com/` + key, stores it in the bucket and caches it for 24h |
| Files.ServeThenHit | src/modules/files/services/file.services.go:25-30 | after a success with non-empty bytes, the next request is a pure cache hit with the same bytes |
| Files.FileService | src/modules/files/services/file.services.go:18-78 | the method on the stores computes `Serve` |
| Paths.Cut | src/services/background.services.go:128 | `strings.Cut`: the text before the first separator has none, and the parts rebuild the input |
| Paths.AfterAuthority | src/services/background.services.go:132 | the path after an authority is empty or starts with `/` |
| Paths.SchemeOfLetters | src/services/background.services.go:128 | a letter-only scheme followed by `:` is read as that scheme |
| Paths.NoCtlJoin | src/services/background.services.go:128 | joining text without control characters has none |
| Paths.CutAt | src/services/background.services.go:128 | cutting at the first separator finds the text before it |
| Paths.PathAfterAuthority | src/services/background.services.go:128-132 | after `scheme:`, `//host/path` has the path `/path` |
| Paths.PathOfAbsoluteUrl | src/services/background.services.go:128-132 | `url.Parse` gives the path `/p` for `scheme://host/p` |
| Paths.CleanThumb | src/services/background.services.go:120-136 | `""` and `"/"` are rejected; a full http(s) URL is reduced to its path; one leading `/` is dropped |
| Paths.UrlPath | src/services/background.services.go:128-132 | `url.Parse(raw).Path`, or none when the parse fails: the fragment and then the query are cut, control characters are refused, an opaque URL has an empty path and `//` opens an authority; `PathOfAbsoluteUrl` and `PathAfterAuthority` state its results |
| Paths.CleanThumbOfParsed | src/services/background.services.go:126-136 | a parsed path is resolved less its leading `/` |
| Paths.CleanThumbOfUrl | src/services/background.services.go:120-136 | a full image URL is resolved under its path, whatever the host |
| Paths.RemoteUrl | src/services/background.services.go:184-208 | `""`, `"/"`, an unparsable URL and unrecognised formats have no remote URL; an `http` field is re-pointed at the image host; an `upload/` field is put under it |
| Paths.RemoteOfParsed | src/services/background.services.go:192-199 | a parsed path is put after the image origin |
| Paths.RemoteOfUrl | src/services/background.services.go:192-199 | a full image URL on any host becomes `https://phimimg.com/` + its path |
| Paths.OriginThenSlash | src/services/background.services.go:199-203 | the two ways of writing the image host agree |
| Paths.RemoteOfUpload | src/services/background.services.go:201-203 | an `upload/` or `/upload/` field is downloaded from the image host under the same path |
| Background.ExtractItemsFromData | src/services/background.services.go:147-166 | a list exactly when `data` is an array, or an object whose `items` is one; the array itself in the first case |
| Background.SweptListings | src/services/background.services.go:147-166 | a normalised listing is swept exactly when its list was an array, as the enriched items; candidate shapes are never swept |
| Background.Synced | src/services/background.services.go:120-145 | a path that cannot be cleaned is an error with nothing touched; otherwise the file service's outcome on the cleaned path, its error prefixed `syncImage error: ` |
| Background.DownloadKeeps | src/utils/helpers.go:281-335 | a download never loses or replaces an object, and an existing bucket stays |
| Background.ServeKeeps | src/modules/files/services/file.services.go:18-78 | the file service never loses or replaces an object |
| Background.SyncedUrl | src/services/background.services.go:120-145 | syncing a full image URL keeps the bucket, and a success leaves the path in the bucket or in the cache |
| Background.SyncImage | src/services/background.services.go:120-145 | the method on the stores computes `Synced` |
| Background.SetField | src/services/background.services.go:232-234 | the named column takes the value and the identity and other image column are kept |
| Background.Processed | src/services/background.services.go:183-230 | `processImageField` over the stores: classify the field, download the remote URL, rewrite the field when the path differs (a failed write ends the step), then sync the new path; `SkippedField`, `WritesOnlyChangedPath`, `ProcessedKeeps` and `UrlBecomesBucketPath` state its properties |
| Background.WithField | src/services/background.services.go:232-234 | `UPDATE ... WHERE slug = ?`: rows with the slug get the column set, every other row is untouched, no row appears or vanishes |
| Background.WithFieldSettles | src/services/background.services.go:232-234 | writing the same value twice is writing it once; identities are kept; the other column of the rows is untouched |
| Background.UpdateImageField | src/services/background.services.go:232-234 | fails without writing when the database is down; otherwise the table becomes `WithField`; other tables untouched |
| Background.SkippedField | src/services/background.services.go:184-207 | `""`, `"/"` and unrecognised formats change nothing |
| Background.WritesOnlyChangedPath | src/services/background.services.go:210-225 | the table changes only by writing the downloaded path, which differs from the old value, into the named field |
| Background.ProcessedKeeps | src/services/background.services.go:183-230 | a step keeps every row's identity and everything the bucket held |
| Background.UrlBecomesBucketPath | src/services/background.services.go:192-225 | a full URL on any host is rewritten to its path, which the bucket then holds |
| Background.UploadPathSettles | src/services/background.services.go:201-225 | a field holding an `upload/` path the bucket has is left as it is, whatever the origin answers |
| Background.ProcessImageField | src/services/background.services.go:183-230 | the method on the stores computes `Processed` and touches no other table |
| Background.SweepAllKeeps | src/services/background.services.go:177-180 | the whole sweep keeps every row's identity and everything the bucket held |
| Background.SweepAll | src/services/background.services.go:168-181 | thumbnail then poster of every movie of the snapshot, folded over the order the query returned; `SweepAllKeeps` states what it keeps |
| Background.FetchAndUpdateThumbnails | src/services/background.services.go:168-181 | a failed query changes nothing; otherwise every movie is visited exactly once, thumbnail then poster, and the stores become the fold of `Processed` over that order |
| Background.ThumbOfTyped | src/services/background.services.go:89-102 | the corrected thumbnail lookup on a typed result agrees with the as-written lookup on that result's JSON form |
| Background.ThumbAsWritten | src/services/background.services.go:90-106 | the sweep's lookup as written: a thumbnail only for a result decoded from the cache whose `data.movie` is an object with a non-empty `thumb_url` |
| Background.ThumbOf | src/services/background.services.go:90-106 | the corrected lookup: the movie's thumbnail whichever way the result was built; `ThumbOfTyped` ties it to the as-written lookup |
| Background.ThumbSkippedAsWritten | src/services/background.services.go:96-100 | as written, a movie served from the tables or the origin has no thumbnail to sync |
| Background.SyncSlug | src/services/background.services.go:79-111 | `SlugStep` of the old and the new stores: `GetDetailsMovie`'s step to the cache between the two calls, then, when the corrected lookup finds a thumbnail, `Synced` from there; tables only grow; the bucket is kept |
| Background.SlugStep | src/services/background.services.go:83-111 | one slug of the sweep: the details step, then `Synced` of the corrected thumbnail when there is one, otherwise cache and bucket as the details left them |
| Background.Trace | src/services/background.services.go:78-114 | one step per slug, each a `SlugStep` from the stores the previous step left |
| Background.TraceOneMore | src/services/background.services.go:78-114 | a trace extended by a step taken from where it ended is the trace of one more slug, ending where that step does |
| Background.TraceGrown | src/services/background.services.go:78-114 | the stores a trace ends in keep every movie, every episode row and every object of where it started |
| Background.ItemSlug | src/services/background.services.go:79-81 | a slug exactly for objects whose `slug` is a non-empty string |
| Background.SyncItems | src/services/background.services.go:78-114 | the returned steps are a `Trace` of the listing's slugs in order, each a `SlugStep` from where the previous one left the stores, and they end in the new stores; a failing slug does not stop the rest; tables only grow; the bucket is kept |
| Background.SlugsOfItemsAppend | src/services/background.services.go:78-114 | one more item adds its slug, if it has one, at the end |
| Background.SyncMoviesFromCacheByTagKey | src/services/background.services.go:47-118 | each key of the tag is visited exactly once; each visit reads its listing from the cache as the earlier visits left it, skips a key without one and otherwise syncs all its slugs as a `Trace`; the visits end in the new stores; an empty tag changes nothing; tables only grow; the bucket is kept |
| Background.Listing | src/services/background.services.go:59-76 | the list a cached key holds: a listing only when the key is present, its value decodes as an object, and `ExtractItemsFromData` finds a list there |
| Background.SyncKey | src/services/background.services.go:59-114 | a key without a listing syncs nothing; otherwise the steps are a `Trace` of its listing's slugs from the old stores, ending in the new ones |
| Background.Visited | src/services/background.services.go:58-115 | each visit reads its key from the cache as the earlier visits left it; no listing, no steps; a listing, a `Trace` of its slugs |
| Background.VisitedOneMore | src/services/background.services.go:58-115 | one more visit that reads and syncs from where the earlier ones ended extends the visits |
| Background.VisitedGrown | src/services/background.services.go:47-118 | the stores after every visit keep every movie, episode row and object of the stores before |
| Background.KeysOneMore | src/services/background.services.go:58 | visiting a key moves it from the keys left to the keys visited, so every key is visited exactly once |
| Fast.CategoriesKey | src/modules/movies/services/fast.services.go:16-17 | the categories key is `categories:` + the URL |
| Fast.CountriesKey | src/modules/movies/services/fast.services.go:87-88 | the countries key is `countries:` + the URL |
| Fast.RenamedAll | src/modules/movies/services/fast.services.go:53-58 | each category is renamed on its own, in place |
| Fast.OverrideFacts | src/modules/movies/services/fast.services.go:53-58 | every `mien-tay` category is named "Cao Bồi", ids and slugs are kept, every other category is unchanged, and a second override changes nothing |
| Fast.RenameCategories | src/modules/movies/services/fast.services.go:53-58 | the in-place loop computes `RenamedAll` |
| Fast.RenamedItems | src/modules/movies/services/fast.services.go:23-31 | the cached override, item by item |
| Fast.OverrideAgrees | src/modules/movies/services/fast.services.go:23-58 | the cached path applies the same override as the fresh path, and applying it to an already-renamed list changes nothing |
| Fast.OverrideCommutes | src/modules/movies/services/fast.services.go:23-31 | overriding encoded categories is encoding overridden categories |
| Fast.RenamedEncoded | src/modules/movies/services/fast.services.go:26-27 | the same for one category |
| Fast.RenameCachedItems | src/modules/movies/services/fast.services.go:23-31 | the loop over cached items computes `RenamedItems` |
| Fast.CachedCategories | src/modules/movies/services/fast.services.go:20-33 | a cached document is served renamed and marked `from_cache` |
| Fast.CategoryCreated | src/modules/movies/services/fast.services.go:62 | `FirstOrCreate` by id keeps every row and leaves a row for the id (an empty id matches any row) |
| Fast.CategoriesSyncKeeps | src/modules/movies/services/fast.services.go:61-63 | the sync never changes or drops a row, leaves a row for every fetched id, and adds only fetched ids |
| Fast.CategoriesSyncIdempotent | src/modules/movies/services/fast.services.go:61-63 | re-running the sync with fetched categories creates nothing |
| Fast.SyncCategories | src/modules/movies/services/fast.services.go:61-63 | the loop computes the category sync, or nothing when the database is down; other tables untouched |
| Fast.CountriesAsWrittenAddOne | src/modules/movies/services/fast.services.go:116-118 | as written, the country sync adds at most the one row under the empty id |
| Fast.CountriesAsWrittenLoseRows | src/modules/movies/services/fast.services.go:117 | as written, two new countries on an empty table leave only the first, with empty id and slug |
| Fast.CountriesSyncedAsWritten | src/modules/movies/services/fast.services.go:116-118 | `FirstOrCreate(&Country{}, Country{Name})` per fetched country, as written: a new name inserts a row holding only that name |
| Fast.CountriesSyncKeeps | src/modules/movies/services/fast.services.go:116-118 | the corrected sync keeps every row and adds only rows of fetched ids |
| Fast.CountriesSynced | src/modules/movies/services/fast.services.go:116-118 | the corrected sync: each fetched country whose name is new is stored under its own id; `CountriesSyncKeeps`, `CountriesSyncFinds` and `CountriesSyncIdempotent` state its properties |
| Fast.CountriesSyncFinds | src/modules/movies/services/fast.services.go:116-118 | with new distinct ids, every fetched country is found by its name after the corrected sync |
| Fast.FoundKept | src/modules/movies/services/fast.services.go:117 | a name found in a table is found in any table that keeps its rows |
| Fast.CountriesSyncIdempotent | src/modules/movies/services/fast.services.go:116-118 | re-running the corrected sync with fetched countries creates nothing |
| Fast.SyncCountries | src/modules/movies/services/fast.services.go:116-118 | the loop computes the corrected country sync `CountriesSynced`, or nothing when the database is down |
| Fast.SameIdsSameSync | src/modules/movies/services/fast.services.go:54-63 | the category sync looks only at ids, so renaming first does not change it |
| Fast.FreshDoc | src/modules/movies/services/fast.services.go:66-72 | a fresh document has `success=true`, `from_cache=false`, the list under `data` and its request URL |
| Fast.CategoriesResolution | src/modules/movies/services/fast.services.go:11-80 | a decodable hit is served renamed, nothing changed; an unparsable body is soft with its raw data and writes neither cache nor table; no response is a hard error that writes nothing |
| Fast.CategoriesThenHit | src/modules/movies/services/fast.services.go:53-77 | a fresh list is cached for 23h with every `mien-tay` renamed, and the next call serves it from the cache |
| Fast.ListAllCategories | src/modules/movies/services/fast.services.go:11-80 | the method on the stores computes `CategoriesResolution`; only the category table can change |
| Fast.CountriesResolution | src/modules/movies/services/fast.services.go:82-135 | the same three outcomes for countries; a fresh list writes the corrected country sync |
| Fast.CountriesThenHit | src/modules/movies/services/fast.services.go:121-132 | a fresh country list has `success=true`, `from_cache=false`, is cached for 23h and is served next from the cache |
| Fast.ListAllCountry | src/modules/movies/services/fast.services.go:82-135 | the method on the stores computes `CountriesResolution` (with the corrected sync); only the country table can change |
| QueryController.Defaulted | src/modules/movies/controllers/query.controllers.go:22-66 | the result is well formed (page at least 1, limit in 1..64, allow-listed sort field, sort type and language, year 0 or in 1970..2025); each field is kept when valid and takes its default otherwise; the filters pass through |
| QueryController.DefaultedFixes | src/modules/movies/controllers/query.controllers.go:22-66 | defaulting leaves a request unchanged exactly when it is already well formed |
| QueryController.DefaultedIdempotent | src/modules/movies/controllers/query.controllers.go:22-66 | defaulting twice is defaulting once |
| QueryController.ApplyDefaults | src/modules/movies/controllers/query.controllers.go:22-66 | the field-by-field reassignments compute `Defaulted` |

## Left out

- `MakeAnonymousRequest`: HTTP client setup, header masking and gzip decoding are I/O. The origin is a map from URL to response, and a body is returned whatever the status, as the code does.
- `TranslateToEnglish` and `TranslateValuesInItems`: remote calls to a translation service.
- Request coalescing (`singleflight`) in `GetMovieList` is concurrency. The body is modelled as one sequential call.
- `SetupBackgroundJobs`: cron registration and goroutines. The two jobs are modelled as single runs.
- `BindJson`, the Gin handlers, the binding and response parts of the controllers, configuration and bootstrap: transport and wiring.
- JSON numbers are integers. Go's `float64` and case-insensitive key matching in `json.Unmarshal` are not modelled, and marshalling round-trips by construction.
- `url.Parse`: percent-decoding, host and port validation and its error texts are not modelled. `Paths.UrlPath` keeps the fragment and query cut, the control-character and scheme checks, opaque URLs and the `//` authority.
- `url.Values.Encode` percent-encoding is not modelled.
- `http.DetectContentType`: a cache hit records only that its content type was sniffed.
- `time.Now` is a parameter. TTLs are recorded in hours and nothing ever expires.
- Movie columns the core never reads are not modelled (origin name, content, years, TMDB data and the rest). The many-to-many category and country associations are not modelled either.
- Stores.Redis.SAdd: the Redis error on a key that holds a string is dropped the way each pipeline drops it, so the set is unchanged and no error is raised.
- Redis, MinIO and database errors other than an unavailable database or the modelled transaction faults are not modelled. Every write the code ignores is assumed to succeed. As a result, the "downloaded but failed to retrieve object" and "stat failed" branches of `FileService` cannot be reached, and the "failed to check/create bucket" and "failed to upload" branches of `DownloadImageIfNotExist` cannot fail.
- The order of `SMEMBERS`, of `SELECT` rows, and of Go map iteration (the episode groups of `GetMovieDetailsFromDB`) is unspecified. The model fixes one order: groups in the order each server first appears, and the job orders as ghost outputs that are only constrained to be enumerations.
- Details.GetMovieDetailsFromDB: gorm `First` adds `ORDER BY id LIMIT 1`, so the code answers with the lowest-id movie carrying the slug. The model does not fix which of those movies it answers with.
- ReadThrough.CachedObject: a cached `null` decodes in Go to a nil map, and the `from_cache` assignment that follows panics. The model has no panics and takes the miss path instead. The same holds for the cache hits of `ReadThrough.Resolve`, `Details.GetDetailsMovie`, `Fast.ListAllCategories` and `Fast.ListAllCountry`. Every document the resolvers write is the text of an object (`Marshal` of a map), never `null`.
- Helpers.ConvertStringToInt64: the source panics on a parse failure; the model returns an error value instead.
- Fast.CategoryCreated: as written, `FirstOrCreate` copies only the condition fields, so a new category row holds its id with an empty name and slug. The model keeps this behaviour.
- Stores.BlobStore.GetObject: object sizes and the reader/stat split are folded into one read.
- QueryServices.GetMovieList: runs the corrected list payload, so it does not cache or return the raw `apiResponse` as the code does; `QueryServices.AsWrittenDropsNormalisation` exhibits the code as written.
- ReadThrough.FromOrigin: the list family's served and cached document is the corrected payload, not the raw `apiResponse`.
- ReadThrough.Resolution: a list miss serves `FromOrigin`'s corrected payload, not the raw `apiResponse`.
- Background.SyncSlug: syncs the thumbnail found by the corrected lookup `ThumbOf`, so a result from the tables or the origin has its image mirrored, which the code as written never does; `Background.ThumbSkippedAsWritten` exhibits the code as written.
- Fast.SyncCountries: runs the corrected sync `CountriesSynced`, not `FirstOrCreate` by name; `Fast.CountriesAsWrittenLoseRows` exhibits the code as written.
- Fast.CountriesResolution: a fresh country list writes the corrected sync, not the as-written one.
- Fast.ListAllCountry: computes `CountriesResolution`, hence the corrected sync.
- Details.SaveDetails: an inserted episode row keeps the episode `id` the API sent. With gorm, a zero `Episode.ID` is left out of the `INSERT` and Postgres assigns a serial id, which the table path then serves; the model does not assign ids.
- Details.GetDetailsMovie: error texts are only the prefix before Go's wrapped `: %w` cause; the cause is not modelled. The same holds for every family's fetch error in `ReadThrough.FromOrigin`.
- Helpers.ConvertStringToUint: the source panics on a parse failure; the model returns an error value instead.
- Helpers.CeilDiv: exact integer ceiling. The source computes `math.Ceil(float64(total)/float64(perPage))`, which can differ once `total` exceeds 2^53 and float64 rounds it.
- Helpers.Paginate: `total_pages` is the exact ceiling, so it inherits the float64 difference above 2^53 described for `Helpers.CeilDiv`.

## Findings

| source | as written | input that shows it | evidently intended | confidence | as-written member | corrected member |
|---|---|---|---|---|---|---|
| src/modules/movies/services/query.services.go:59-71 | `GetMovieList` marshals, caches and returns `apiResponse`, the raw body, instead of `normalized` | an origin body `{"items": []}`: the cached and returned map has no `data` key and no `from_cache`/`request_url`/`timestamp` | cache and return the normalised document with its metadata, as the other resolvers do | high, not executed | QueryServices.AsWrittenDropsNormalisation | QueryServices.ListCachesPayload |
| src/services/background.services.go:96-100 | the tag sweep asserts `res["data"]["movie"]` to be a `map[string]interface{}`, which holds only for results decoded from the cache | any slug whose details come from the tables or the origin, e.g. a movie with thumbnail `upload/film.jpg`: the assertion fails and the thumbnail is never synced | read the thumbnail from the movie whichever way the result was built | high, not executed | Background.ThumbSkippedAsWritten | Background.ThumbOfTyped |
| src/modules/movies/services/fast.services.go:117 | `FirstOrCreate(&Country{}, Country{Name: cat.Name})` inserts a row holding only the name, so its primary key is the empty id | two new countries, "Viet Nam" and "Han Quoc", on an empty table: the second insert conflicts on the empty id and only the first is stored, with no id or slug | store each fetched country under its own id when its name is not yet present | medium, not executed | Fast.CountriesAsWrittenLoseRows | Fast.CountriesSyncFinds |
