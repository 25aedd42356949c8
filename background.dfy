/**
 * The background jobs of background.services.go: the tag sweep that warms
 * details and thumbnails for every movie a cached listing mentions, and the
 * image sweep that mirrors every stored thumbnail and poster into the bucket
 * and rewrites the field to the bucket path.
 */
module Background {
  import opened Wrappers
  import opened Json
  import opened Text
  import opened Models
  import opened Stores
  import opened Normalize
  import opened Images
  import opened Files
  import opened Paths
  import opened Details

  // ------------------------------------------------------------ extractItemsFromData

  /** The list under `data`: `data` itself when it is an array, else `data.items` when that is one. */
  function ExtractItemsFromData(data: Object): (r: Option<seq<Json>>)
    ensures r.Some? <==>
              "data" in data &&
              (data["data"].JArr? ||
               (data["data"].JObj? && "items" in data["data"].fields && data["data"].fields["items"].JArr?))
    ensures "data" in data && data["data"].JArr? ==> r == Some(data["data"].items)
    ensures r.Some? && !data["data"].JArr? ==> r == Some(data["data"].fields["items"].items)
  {
    if "data" !in data then None
    else if data["data"].JArr? then Some(data["data"].items)
    else if data["data"].JObj? && "items" in data["data"].fields && data["data"].fields["items"].JArr? then
      Some(data["data"].fields["items"].items)
    else None
  }

  /**
   * A normalised listing is swept exactly when its list was an array: the
   * sweep then sees the enriched items, and the candidate shapes (whose
   * `data.items` is an object keyed by the candidate) are never swept.
   */
  lemma SweptListings(raw: Object, movies: map<string, Movie>, dbDown: bool)
    requires ShapeOf(raw).Some?
    ensures var n := Normalized(raw, movies, dbDown).value;
            var items := n["data"].fields["items"];
            ExtractItemsFromData(n) == (if items.JArr? then Some(items.items) else None)
    ensures ShapeOf(raw).value.Listed? ==> ExtractItemsFromData(Normalized(raw, movies, dbDown).value).None?
    ensures ShapeOf(raw) == Some(RootItems) && raw["items"].JArr? ==>
              ExtractItemsFromData(Normalized(raw, movies, dbDown).value) ==
                Some(Enriched(raw["items"], movies, dbDown).items)
  {
  }

  // ------------------------------------------------------------ syncImage

  /** An error (if any) and the two stores after `syncImage`. */
  datatype SyncOutcome = SyncOutcome(error: Option<string>, cache: CacheState, blobs: BlobState)

  /** `syncImage`: the cleaned path resolved by the file service; only `FileService` touches the stores. */
  function Synced(cache: CacheState, blobs: BlobState, origin: Origin, thumb: string): (o: SyncOutcome)
    ensures CleanThumb(thumb).Err? ==> o == SyncOutcome(Some(CleanThumb(thumb).error), cache, blobs)
    ensures CleanThumb(thumb).Ok? ==>
              var s := Serve(cache, blobs, origin, CleanThumb(thumb).value);
              o.cache == s.cache && o.blobs == s.blobs && (o.error.None? <==> s.reply.Ok?)
  {
    match CleanThumb(thumb)
    case Err(e) => SyncOutcome(Some(e), cache, blobs)
    case Ok(p) =>
      var s := Serve(cache, blobs, origin, p);
      SyncOutcome(if s.reply.Err? then Some("syncImage error: " + s.reply.error.message) else None, s.cache, s.blobs)
  }

  /** Nothing the bucket held is lost or replaced, and an existing bucket stays. */
  ghost predicate BlobsKept(b0: BlobState, b1: BlobState) {
    (b0.bucketExists ==> b1.bucketExists) &&
    forall k :: Present(b0, k) ==> Present(b1, k) && b1.objects[k] == b0.objects[k]
  }

  lemma DownloadKeeps(st: BlobState, origin: Origin, url: string)
    ensures BlobsKept(st, Downloaded(st, origin, url).after)
  {
  }

  lemma ServeKeeps(cache: CacheState, blobs: BlobState, origin: Origin, filePath: string)
    ensures BlobsKept(blobs, Serve(cache, blobs, origin, filePath).blobs)
  {
    DownloadKeeps(blobs, origin, ImageHost + ObjectKey(filePath));
  }

  /**
   * Syncing a full image URL of any host mirrors it under its path: after a
   * success the bucket holds that path, or the cache already held its bytes.
   */
  lemma SyncedUrl(cache: CacheState, blobs: BlobState, origin: Origin, scheme: string, host: string, k: string)
    requires scheme == "https" || scheme == "http"
    requires PlainHost(host) && PlainPath(k) && !HasPrefix(k, "/")
    ensures var o := Synced(cache, blobs, origin, scheme + "://" + host + "/" + k);
            BlobsKept(blobs, o.blobs) &&
            (o.error.None? ==> CacheHit(cache, k) || Present(o.blobs, k))
  {
    CleanThumbOfUrl(scheme, host, k);
    ServeKeeps(cache, blobs, origin, k);
  }

  /** `syncImage`. */
  method SyncImage(thumb: string, cache: Redis, store: BlobStore, origin: Origin) returns (err: Option<string>)
    modifies cache, store
    ensures SyncOutcome(err, cache.State(), store.State()) == Synced(old(cache.State()), old(store.State()), origin, thumb)
  {
    var clean := CleanThumb(thumb);
    if clean.Err? {
      return Some(clean.error);
    }
    var r := FileService(clean.value, cache, store, origin);
    if r.Err? {
      return Some("syncImage error: " + r.error.message);
    }
    return None;
  }

  // ------------------------------------------------------------ updateImageField

  /** The two image columns `processImageField` is run on. */
  datatype ImageField = ThumbUrl | PosterUrl

  function FieldOf(m: Movie, f: ImageField): string {
    match f
    case ThumbUrl => m.thumbUrl
    case PosterUrl => m.posterUrl
  }

  function SetField(m: Movie, f: ImageField, v: string): (r: Movie)
    ensures FieldOf(r, f) == v
    ensures r.id == m.id && r.name == m.name && r.slug == m.slug
    ensures f == ThumbUrl ==> r.posterUrl == m.posterUrl
    ensures f == PosterUrl ==> r.thumbUrl == m.thumbUrl
  {
    match f
    case ThumbUrl => m.(thumbUrl := v)
    case PosterUrl => m.(posterUrl := v)
  }

  /** `UPDATE movies SET field = v WHERE slug = ?` as a function of the table. */
  function WithField(movies: map<string, Movie>, slug: string, f: ImageField, v: string): (r: map<string, Movie>)
    ensures r.Keys == movies.Keys
    ensures forall id :: id in movies && movies[id].slug != slug ==> r[id] == movies[id]
    ensures forall id :: id in movies && movies[id].slug == slug ==> r[id] == SetField(movies[id], f, v)
  {
    map id | id in movies :: if movies[id].slug == slug then SetField(movies[id], f, v) else movies[id]
  }

  /** The movie's identity: what the image sweep never changes. */
  predicate SameIdentity(a: Movie, b: Movie) {
    a.id == b.id && a.name == b.name && a.slug == b.slug
  }

  /** The table keeps its rows and their identity. */
  predicate RowsKept(m0: map<string, Movie>, m1: map<string, Movie>) {
    m1.Keys == m0.Keys && forall id :: id in m0 ==> SameIdentity(m0[id], m1[id])
  }

  /** Writing the same value twice is writing it once, and only the named column of the named rows changes. */
  lemma WithFieldSettles(movies: map<string, Movie>, slug: string, f: ImageField, g: ImageField, v: string)
    ensures WithField(WithField(movies, slug, f, v), slug, f, v) == WithField(movies, slug, f, v)
    ensures RowsKept(movies, WithField(movies, slug, f, v))
    ensures g != f ==>
              forall id :: id in movies ==> FieldOf(WithField(movies, slug, f, v)[id], g) == FieldOf(movies[id], g)
  {
    var once := WithField(movies, slug, f, v);
    var twice := WithField(once, slug, f, v);
    assert forall id :: id in once ==> twice[id] == once[id];
  }

  /** `updateImageField`: fails without writing when the database is down. */
  method UpdateImageField(db: Database, slug: string, f: ImageField, newPath: string) returns (ok: bool)
    modifies db
    ensures ok == !old(db.unavailable)
    ensures db.movies == if ok then WithField(old(db.movies), slug, f, newPath) else old(db.movies)
    ensures db.episodes == old(db.episodes) && db.categories == old(db.categories) && db.countries == old(db.countries)
    ensures db.unavailable == old(db.unavailable) && db.faults == old(db.faults)
  {
    if db.unavailable {
      return false;
    }
    db.movies := WithField(db.movies, slug, f, newPath);
    return true;
  }

  // ------------------------------------------------------------ processImageField

  /** The table, the cache and the bucket, as the image sweep sees them. */
  datatype Sweep = Sweep(movies: map<string, Movie>, cache: CacheState, blobs: BlobState)

  /**
   * `processImageField` as a function of the stores: classify the field,
   * download its remote URL, rewrite the field when the path differs (a failed
   * write ends the step), then sync the new path.
   */
  function Processed(sw: Sweep, unavailable: bool, origin: Origin, slug: string, f: ImageField, original: string): Sweep {
    match RemoteUrl(original)
    case None => sw
    case Some(remote) =>
      var d := Downloaded(sw.blobs, origin, remote);
      if d.result.Err? then sw
      else
        var newPath := d.result.value;
        if newPath != original && unavailable then Sweep(sw.movies, sw.cache, d.after)
        else
          var movies := if newPath != original then WithField(sw.movies, slug, f, newPath) else sw.movies;
          var s := Synced(sw.cache, d.after, origin, newPath);
          Sweep(movies, s.cache, s.blobs)
  }

  /** "", "/" and unrecognised formats are skipped: no download, no write. */
  lemma SkippedField(sw: Sweep, unavailable: bool, origin: Origin, slug: string, f: ImageField, original: string)
    requires original == "" || original == "/" ||
             (!HasPrefix(original, "http") && !HasPrefix(original, "upload/") && !HasPrefix(original, "/upload/"))
    ensures Processed(sw, unavailable, origin, slug, f, original) == sw
  {
  }

  /** The table changes only by writing the downloaded path, different from the old value, into the named field. */
  lemma WritesOnlyChangedPath(sw: Sweep, unavailable: bool, origin: Origin, slug: string, f: ImageField, original: string)
    ensures var r := Processed(sw, unavailable, origin, slug, f, original);
            r.movies != sw.movies ==>
              !unavailable && RemoteUrl(original).Some? &&
              var d := Downloaded(sw.blobs, origin, RemoteUrl(original).value);
              d.result.Ok? && d.result.value != original && r.movies == WithField(sw.movies, slug, f, d.result.value)
  {
  }

  /** A step keeps every row's identity and everything the bucket held. */
  lemma ProcessedKeeps(sw: Sweep, unavailable: bool, origin: Origin, slug: string, f: ImageField, original: string)
    ensures var r := Processed(sw, unavailable, origin, slug, f, original);
            RowsKept(sw.movies, r.movies) && BlobsKept(sw.blobs, r.blobs)
  {
    var remote := RemoteUrl(original);
    if remote.Some? {
      var d := Downloaded(sw.blobs, origin, remote.value);
      DownloadKeeps(sw.blobs, origin, remote.value);
      if d.result.Ok? {
        WithFieldSettles(sw.movies, slug, f, f, d.result.value);
        var p := CleanThumb(d.result.value);
        if p.Ok? {
          ServeKeeps(sw.cache, d.after, origin, p.value);
        }
      }
    }
  }

  /**
   * A full image URL of any host is rewritten to its path, which is the key
   * the bucket now holds it under.
   */
  lemma UrlBecomesBucketPath(sw: Sweep, origin: Origin, slug: string, f: ImageField, scheme: string, host: string, k: string)
    requires scheme == "https" || scheme == "http"
    requires PlainHost(host) && PlainPath(k)
    requires Downloaded(sw.blobs, origin, ImageHost + k).result.Ok?
    ensures Processed(sw, false, origin, slug, f, scheme + "://" + host + "/" + k).movies == WithField(sw.movies, slug, f, k)
    ensures Present(Downloaded(sw.blobs, origin, ImageHost + k).after, k)
  {
    RemoteOfUrl(scheme, host, k);
    RetryUsesObjectKey(sw.blobs, origin, k);
    assert |scheme + "://" + host + "/" + k| > |k|;
  }

  /**
   * Once a field holds a bucket path under `upload/` that the bucket holds,
   * the sweep leaves the field as it is, whatever the origin now answers.
   */
  lemma UploadPathSettles(sw: Sweep, unavailable: bool, origin: Origin, slug: string, f: ImageField, k: string)
    requires HasPrefix(k, "upload/") && Present(sw.blobs, k)
    ensures Processed(sw, unavailable, origin, slug, f, k).movies == sw.movies
    ensures Downloaded(sw.blobs, origin, ImageHost + k) == Download(Ok(k), sw.blobs)
  {
    RemoteOfUpload(k);
    assert (ImageHost + k)[..|ImageHost|] == ImageHost;
    assert TrimPrefix(ImageHost + k, ImageHost) == k;
  }

  /** `processImageField`. */
  method ProcessImageField(db: Database, cache: Redis, store: BlobStore, origin: Origin,
                           slug: string, f: ImageField, original: string)
    modifies db, cache, store
    ensures Sweep(db.movies, cache.State(), store.State()) ==
            Processed(Sweep(old(db.movies), old(cache.State()), old(store.State())), old(db.unavailable), origin, slug, f, original)
    ensures db.episodes == old(db.episodes) && db.categories == old(db.categories) && db.countries == old(db.countries)
    ensures db.unavailable == old(db.unavailable) && db.faults == old(db.faults)
  {
    if original == "" || original == "/" {
      return;
    }
    var remote := RemoteUrl(original);
    if remote.None? {
      return;
    }
    var newPath := DownloadImageIfNotExist(remote.value, store, origin);
    if newPath.Err? {
      return;
    }
    if newPath.value != original {
      var ok := UpdateImageField(db, slug, f, newPath.value);
      if !ok {
        return;
      }
    }
    var _ := SyncImage(newPath.value, cache, store, origin);
  }

  // ------------------------------------------------------------ FetchAndUpdateThumbnails

  /** Both image fields of the snapshot's movies, processed in the order `order` gives. */
  function SweepAll(sw: Sweep, unavailable: bool, origin: Origin, snapshot: map<string, Movie>, order: seq<string>): Sweep
    requires forall i :: 0 <= i < |order| ==> order[i] in snapshot
    decreases |order|
  {
    if order == [] then sw
    else
      var before := SweepAll(sw, unavailable, origin, snapshot, order[..|order| - 1]);
      var m := snapshot[order[|order| - 1]];
      var t := Processed(before, unavailable, origin, m.slug, ThumbUrl, m.thumbUrl);
      Processed(t, unavailable, origin, m.slug, PosterUrl, m.posterUrl)
  }

  /** The whole sweep keeps every row's identity and everything the bucket held. */
  lemma {:induction false} SweepAllKeeps(sw: Sweep, unavailable: bool, origin: Origin, snapshot: map<string, Movie>, order: seq<string>)
    requires forall i :: 0 <= i < |order| ==> order[i] in snapshot
    ensures var r := SweepAll(sw, unavailable, origin, snapshot, order);
            RowsKept(sw.movies, r.movies) && BlobsKept(sw.blobs, r.blobs)
    decreases |order|
  {
    if order != [] {
      var prefix := order[..|order| - 1];
      SweepAllKeeps(sw, unavailable, origin, snapshot, prefix);
      var before := SweepAll(sw, unavailable, origin, snapshot, prefix);
      var m := snapshot[order[|order| - 1]];
      ProcessedKeeps(before, unavailable, origin, m.slug, ThumbUrl, m.thumbUrl);
      var t := Processed(before, unavailable, origin, m.slug, ThumbUrl, m.thumbUrl);
      ProcessedKeeps(t, unavailable, origin, m.slug, PosterUrl, m.posterUrl);
    }
  }

  /**
   * `FetchAndUpdateThumbnails`: both fields of every movie of the snapshot,
   * each movie once, in the order the rows come back (which the query leaves
   * unspecified).
   */
  method FetchAndUpdateThumbnails(db: Database, cache: Redis, store: BlobStore, origin: Origin)
    returns (ghost order: seq<string>)
    modifies db, cache, store
    ensures old(db.unavailable) ==>
              order == [] && db.movies == old(db.movies) && cache.State() == old(cache.State()) &&
              store.State() == old(store.State())
    ensures forall id :: id in order <==> !old(db.unavailable) && id in old(db.movies)
    ensures forall i, j :: 0 <= i < j < |order| ==> order[i] != order[j]
    ensures Sweep(db.movies, cache.State(), store.State()) ==
            SweepAll(Sweep(old(db.movies), old(cache.State()), old(store.State())), old(db.unavailable), origin,
                     old(db.movies), order)
    ensures RowsKept(old(db.movies), db.movies) && BlobsKept(old(store.State()), store.State())
    ensures db.episodes == old(db.episodes) && db.categories == old(db.categories) && db.countries == old(db.countries)
    ensures db.unavailable == old(db.unavailable) && db.faults == old(db.faults)
  {
    order := [];
    if db.unavailable {
      return;
    }
    var snapshot := db.movies;
    ghost var start := Sweep(db.movies, cache.State(), store.State());
    var todo := snapshot.Keys;
    while todo != {}
      invariant forall i :: 0 <= i < |order| ==> order[i] in snapshot
      invariant forall id :: id in order <==> id in snapshot && id !in todo
      invariant todo <= snapshot.Keys
      invariant forall i, j :: 0 <= i < j < |order| ==> order[i] != order[j]
      invariant Sweep(db.movies, cache.State(), store.State()) == SweepAll(start, false, origin, snapshot, order)
      invariant db.episodes == old(db.episodes) && db.categories == old(db.categories) && db.countries == old(db.countries)
      invariant !db.unavailable && db.faults == old(db.faults)
      decreases |todo|
    {
      var id :| id in todo;
      var m := snapshot[id];
      ProcessImageField(db, cache, store, origin, m.slug, ThumbUrl, m.thumbUrl);
      ProcessImageField(db, cache, store, origin, m.slug, PosterUrl, m.posterUrl);
      assert (order + [id])[..|order|] == order;
      order := order + [id];
      todo := todo - {id};
    }
    SweepAllKeeps(start, false, origin, snapshot, order);
  }

  // ------------------------------------------------------------ syncMoviesFromCacheByTagKey

  /**
   * The thumbnail the tag sweep reads from a detail result, as written: it
   * asserts `data.movie` to be a JSON object, which holds only for a result
   * decoded from the cache; a result built from the tables or the origin holds
   * a `Movie` struct there, so the assertion fails and the slug is skipped.
   */
  function ThumbAsWritten(r: DetailsReply): Option<string> {
    match r
    case FromCache(doc) =>
      if "data" in doc && doc["data"].JObj? && "movie" in doc["data"].fields && doc["data"].fields["movie"].JObj? then
        var movie := doc["data"].fields["movie"].fields;
        if "thumb_url" in movie && movie["thumb_url"].JStr? && movie["thumb_url"].s != "" then Some(movie["thumb_url"].s)
        else None
      else None
    case _ => None
  }

  /** The thumbnail of a detail result, read from the movie whichever way the result was built. */
  function ThumbOf(r: DetailsReply): Option<string> {
    match r
    case Typed(movie, _, _, _) => if movie.thumbUrl != "" then Some(movie.thumbUrl) else None
    case _ => ThumbAsWritten(r)
  }

  /** Read from a typed result, the thumbnail is the one the as-written code finds in that result's JSON form. */
  lemma ThumbOfTyped(m: Movie, gs: seq<EpisodeGroup>, url: string, now: int)
    ensures ThumbOf(Typed(m, gs, url, now)) == ThumbAsWritten(FromCache(DetailsDoc(m, gs, false, url, now)))
    ensures ThumbOf(Typed(m, gs, url, now)) == (if m.thumbUrl != "" then Some(m.thumbUrl) else None)
  {
  }

  /** As written, a movie served from the tables or the origin never has its thumbnail synced. */
  lemma ThumbSkippedAsWritten()
    ensures var m := Movie("id1", "Film", "film", "upload/film.jpg", "");
            var r := Typed(m, [], DetailsUrl("film"), 0);
            ThumbAsWritten(r).None? && ThumbOf(r) == Some("upload/film.jpg")
  {
  }

  /** The stores the tag sweep changes: the cache, the two detail tables and the bucket. */
  datatype World = World(cache: CacheState, movies: map<string, Movie>, rows: seq<Episode>, blobs: BlobState)

  /**
   * One slug of the tag sweep: `GetDetailsMovie` takes the cache from `w0` to
   * `mid` and the tables to `w`'s; then, when the result has a thumbnail,
   * `syncImage` takes the cache and the bucket the rest of the way.
   */
  predicate SlugStep(w0: World, unavailable: bool, faults: TxFaults, origin: Origin, now: int,
                     slug: string, r: DetailsReply, mid: CacheState, w: World)
  {
    DetailsStep(w0.cache, w0.movies, w0.rows, unavailable, faults, origin, slug, now, r, mid, w.movies, w.rows) &&
    (if ThumbOf(r).None? then w.cache == mid && w.blobs == w0.blobs
     else
       var o := Synced(mid, w0.blobs, origin, ThumbOf(r).value);
       w.cache == o.cache && w.blobs == o.blobs)
  }

  /** One slug of a cached listing: its details, then its thumbnail. */
  method SyncSlug(slug: string, cache: Redis, db: Database, store: BlobStore, origin: Origin, now: int)
    returns (r: DetailsReply, ghost mid: CacheState)
    modifies cache, db, store
    ensures SlugStep(World(old(cache.State()), old(db.movies), old(db.episodes), old(store.State())),
                     db.unavailable, db.faults, origin, now, slug, r, mid,
                     World(cache.State(), db.movies, db.episodes, store.State()))
    ensures TablesGrown(old(db.movies), old(db.episodes), db.movies, db.episodes)
    ensures BlobsKept(old(store.State()), store.State())
    ensures db.categories == old(db.categories) && db.countries == old(db.countries)
    ensures db.unavailable == old(db.unavailable) && db.faults == old(db.faults)
  {
    r := GetDetailsMovie(cache, db, origin, slug, now);
    mid := cache.State();
    var thumb := ThumbOf(r);
    if thumb.Some? {
      var _ := SyncImage(thumb.value, cache, store, origin);
      var p := CleanThumb(thumb.value);
      if p.Ok? {
        ServeKeeps(mid, old(store.State()), origin, p.value);
      }
    }
  }

  /** What one slug of the sweep produced: the detail result, the cache between the two calls, and the stores after. */
  datatype Step = Step(reply: DetailsReply, mid: CacheState, after: World)

  /** The stores after the steps so far. */
  function Final(w0: World, steps: seq<Step>): World {
    if steps == [] then w0 else steps[|steps| - 1].after
  }

  /** `steps` records the sync of `slugs` from `w0`, each slug in turn a `SlugStep` from where the last one left. */
  predicate Trace(w0: World, unavailable: bool, faults: TxFaults, origin: Origin, now: int,
                  slugs: seq<string>, steps: seq<Step>)
    decreases |steps|
  {
    |steps| == |slugs| &&
    (steps != [] ==>
       var n := |steps| - 1;
       Trace(w0, unavailable, faults, origin, now, slugs[..n], steps[..n]) &&
       SlugStep(Final(w0, steps[..n]), unavailable, faults, origin, now, slugs[n], steps[n].reply, steps[n].mid, steps[n].after))
  }

  /** The slug of a listed item: a non-empty string under `slug` of an object, else none. */
  function ItemSlug(item: Json): (s: Option<string>)
    ensures s.Some? <==> item.JObj? && "slug" in item.fields && item.fields["slug"].JStr? && item.fields["slug"].s != ""
    ensures s.Some? ==> item.fields["slug"] == JStr(s.value)
  {
    if item.JObj? && "slug" in item.fields && item.fields["slug"].JStr? && item.fields["slug"].s != "" then
      Some(item.fields["slug"].s)
    else None
  }

  /** A trace grows by one slug's step taken from where it left the stores. */
  lemma TraceOneMore(w0: World, unavailable: bool, faults: TxFaults, origin: Origin, now: int,
                     slugs: seq<string>, steps: seq<Step>, slug: string, step: Step)
    requires Trace(w0, unavailable, faults, origin, now, slugs, steps)
    requires SlugStep(Final(w0, steps), unavailable, faults, origin, now, slug, step.reply, step.mid, step.after)
    ensures Trace(w0, unavailable, faults, origin, now, slugs + [slug], steps + [step])
    ensures Final(w0, steps + [step]) == step.after
  {
    assert (steps + [step])[..|steps|] == steps;
    assert (slugs + [slug])[..|steps|] == slugs;
  }

  /** The items of one cached listing, one slug after another; a failing slug does not stop the rest. */
  method SyncItems(items: seq<Json>, cache: Redis, db: Database, store: BlobStore, origin: Origin, now: int)
    returns (ghost steps: seq<Step>)
    modifies cache, db, store
    ensures Trace(World(old(cache.State()), old(db.movies), old(db.episodes), old(store.State())),
                  db.unavailable, db.faults, origin, now, SlugsOfItems(items), steps)
    ensures Final(World(old(cache.State()), old(db.movies), old(db.episodes), old(store.State())), steps) ==
            World(cache.State(), db.movies, db.episodes, store.State())
    ensures TablesGrown(old(db.movies), old(db.episodes), db.movies, db.episodes)
    ensures BlobsKept(old(store.State()), store.State())
    ensures db.categories == old(db.categories) && db.countries == old(db.countries)
    ensures db.unavailable == old(db.unavailable) && db.faults == old(db.faults)
  {
    ghost var w0 := World(cache.State(), db.movies, db.episodes, store.State());
    steps := [];
    for i := 0 to |items|
      invariant Trace(w0, db.unavailable, db.faults, origin, now, SlugsOfItems(items[..i]), steps)
      invariant Final(w0, steps) == World(cache.State(), db.movies, db.episodes, store.State())
      invariant TablesGrown(old(db.movies), old(db.episodes), db.movies, db.episodes)
      invariant BlobsKept(old(store.State()), store.State())
      invariant db.categories == old(db.categories) && db.countries == old(db.countries)
      invariant db.unavailable == old(db.unavailable) && db.faults == old(db.faults)
    {
      assert items[..i + 1] == items[..i] + [items[i]];
      SlugsOfItemsAppend(items[..i], items[i]);
      var slug := ItemSlug(items[i]);
      ghost var slugs := SlugsOfItems(items[..i]);
      if slug.None? {
        assert SlugsOfItems(items[..i + 1]) == slugs;
      } else {
        assert SlugsOfItems(items[..i + 1]) == slugs + [slug.value];
        var r, mid := SyncSlug(slug.value, cache, db, store, origin, now);
        TraceOneMore(w0, db.unavailable, db.faults, origin, now, slugs, steps, slug.value,
                     Step(r, mid, World(cache.State(), db.movies, db.episodes, store.State())));
        steps := steps + [Step(r, mid, World(cache.State(), db.movies, db.episodes, store.State()))];
      }
    }
    assert items[..|items|] == items;
  }

  /** The slugs a listing names, in order, skipping items without one. */
  function SlugsOfItems(items: seq<Json>): seq<string> {
    if items == [] then []
    else
      var last := items[|items| - 1];
      SlugsOfItems(items[..|items| - 1]) + (if ItemSlug(last).Some? then [ItemSlug(last).value] else [])
  }

  lemma SlugsOfItemsAppend(items: seq<Json>, x: Json)
    ensures SlugsOfItems(items + [x]) == SlugsOfItems(items) + (if ItemSlug(x).Some? then [ItemSlug(x).value] else [])
  {
    assert (items + [x])[..|items|] == items;
  }

  /** The listing a cached key holds, as the sweep reads it: the entry decoded as an object, then its list. */
  function Listing(st: CacheState, key: string): (r: Option<seq<Json>>)
    ensures r.Some? ==> key in st.values && UnmarshalObject(st.values[key]).Some? &&
                        r == ExtractItemsFromData(UnmarshalObject(st.values[key]).value)
  {
    if key !in st.values then None
    else
      match UnmarshalObject(st.values[key])
      case None => None
      case Some(data) => ExtractItemsFromData(data)
  }

  /** One key of the tag and the steps of the slugs its listing named. */
  datatype Visit = Visit(key: string, steps: seq<Step>)

  /** The keys visited, in order. */
  function KeysOf(visits: seq<Visit>): seq<string>
    decreases |visits|
  {
    if visits == [] then [] else KeysOf(visits[..|visits| - 1]) + [visits[|visits| - 1].key]
  }

  /** Visiting one more key moves it from the keys left to the keys visited. */
  lemma KeysOneMore(visits: seq<Visit>, v: Visit, left: set<string>, all: multiset<string>)
    requires v.key in left && multiset(KeysOf(visits)) + multiset(left) == all
    ensures multiset(KeysOf(visits + [v])) + multiset(left - {v.key}) == all
  {
    assert (visits + [v])[..|visits|] == visits;
    assert left == (left - {v.key}) + {v.key};
  }

  /** The stores after the visits so far. */
  function AfterVisits(w0: World, visits: seq<Visit>): World
    decreases |visits|
  {
    if visits == [] then w0
    else Final(AfterVisits(w0, visits[..|visits| - 1]), visits[|visits| - 1].steps)
  }

  /**
   * Each visit reads its key from the cache as the earlier visits left it: a
   * key that holds no listing is skipped, and every slug of one that does is
   * synced in order.
   */
  predicate Visited(w0: World, unavailable: bool, faults: TxFaults, origin: Origin, now: int, visits: seq<Visit>)
    decreases |visits|
  {
    visits != [] ==>
      var n := |visits| - 1;
      var before := AfterVisits(w0, visits[..n]);
      var listing := Listing(before.cache, visits[n].key);
      Visited(w0, unavailable, faults, origin, now, visits[..n]) &&
      (listing.None? ==> visits[n].steps == []) &&
      (listing.Some? ==> Trace(before, unavailable, faults, origin, now, SlugsOfItems(listing.value), visits[n].steps))
  }

  /** Growing the tables and keeping the bucket's objects both compose. */
  lemma KeptTrans(m0: map<string, Movie>, e0: seq<Episode>, b0: BlobState,
                  m1: map<string, Movie>, e1: seq<Episode>, b1: BlobState,
                  m2: map<string, Movie>, e2: seq<Episode>, b2: BlobState)
    requires TablesGrown(m0, e0, m1, e1) && TablesGrown(m1, e1, m2, e2)
    requires BlobsKept(b0, b1) && BlobsKept(b1, b2)
    ensures TablesGrown(m0, e0, m2, e2) && BlobsKept(b0, b2)
  {
  }

  /** The stores a trace ends in hold everything they held where it started. */
  lemma {:induction false} TraceGrown(w0: World, unavailable: bool, faults: TxFaults, origin: Origin, now: int,
                                      slugs: seq<string>, steps: seq<Step>)
    requires Trace(w0, unavailable, faults, origin, now, slugs, steps)
    ensures var w := Final(w0, steps); TablesGrown(w0.movies, w0.rows, w.movies, w.rows) && BlobsKept(w0.blobs, w.blobs)
    decreases |steps|
  {
    if steps != [] {
      var n := |steps| - 1;
      var w1 := Final(w0, steps[..n]);
      TraceGrown(w0, unavailable, faults, origin, now, slugs[..n], steps[..n]);
      var w2 := steps[n].after;
      var r := steps[n].reply;
      if ThumbOf(r).Some? && CleanThumb(ThumbOf(r).value).Ok? {
        ServeKeeps(steps[n].mid, w1.blobs, origin, CleanThumb(ThumbOf(r).value).value);
      }
      KeptTrans(w0.movies, w0.rows, w0.blobs, w1.movies, w1.rows, w1.blobs, w2.movies, w2.rows, w2.blobs);
    }
  }

  /** So do the stores after every visit of the sweep. */
  lemma {:induction false} VisitedGrown(w0: World, unavailable: bool, faults: TxFaults, origin: Origin, now: int,
                                        visits: seq<Visit>)
    requires Visited(w0, unavailable, faults, origin, now, visits)
    ensures var w := AfterVisits(w0, visits); TablesGrown(w0.movies, w0.rows, w.movies, w.rows) && BlobsKept(w0.blobs, w.blobs)
    decreases |visits|
  {
    if visits != [] {
      var n := |visits| - 1;
      var w1 := AfterVisits(w0, visits[..n]);
      VisitedGrown(w0, unavailable, faults, origin, now, visits[..n]);
      var listing := Listing(w1.cache, visits[n].key);
      if listing.Some? {
        TraceGrown(w1, unavailable, faults, origin, now, SlugsOfItems(listing.value), visits[n].steps);
      }
      var w2 := AfterVisits(w0, visits);
      KeptTrans(w0.movies, w0.rows, w0.blobs, w1.movies, w1.rows, w1.blobs, w2.movies, w2.rows, w2.blobs);
    }
  }

  /** The visits grow by one key's, read and synced from where the earlier ones left the stores. */
  lemma VisitedOneMore(w0: World, unavailable: bool, faults: TxFaults, origin: Origin, now: int,
                       visits: seq<Visit>, v: Visit)
    requires Visited(w0, unavailable, faults, origin, now, visits)
    requires Listing(AfterVisits(w0, visits).cache, v.key).None? ==> v.steps == []
    requires Listing(AfterVisits(w0, visits).cache, v.key).Some? ==>
               Trace(AfterVisits(w0, visits), unavailable, faults, origin, now,
                     SlugsOfItems(Listing(AfterVisits(w0, visits).cache, v.key).value), v.steps)
    ensures Visited(w0, unavailable, faults, origin, now, visits + [v])
    ensures AfterVisits(w0, visits + [v]) == Final(AfterVisits(w0, visits), v.steps)
  {
    assert (visits + [v])[..|visits|] == visits;
  }

  /** One key of the tag: its listing, when it holds one, synced slug by slug. */
  method SyncKey(cacheKey: string, cache: Redis, db: Database, store: BlobStore, origin: Origin, now: int)
    returns (ghost steps: seq<Step>)
    modifies cache, db, store
    ensures var w0 := World(old(cache.State()), old(db.movies), old(db.episodes), old(store.State()));
            var listing := Listing(w0.cache, cacheKey);
            (listing.None? ==> steps == []) &&
            (listing.Some? ==> Trace(w0, db.unavailable, db.faults, origin, now, SlugsOfItems(listing.value), steps)) &&
            Final(w0, steps) == World(cache.State(), db.movies, db.episodes, store.State())
    ensures TablesGrown(old(db.movies), old(db.episodes), db.movies, db.episodes)
    ensures BlobsKept(old(store.State()), store.State())
    ensures db.categories == old(db.categories) && db.countries == old(db.countries)
    ensures db.unavailable == old(db.unavailable) && db.faults == old(db.faults)
  {
    var listing: Option<seq<Json>> := None;
    var cached := cache.Get(cacheKey);
    if cached.Some? {
      var data := UnmarshalObject(cached.value);
      if data.Some? {
        listing := ExtractItemsFromData(data.value);
      }
    }
    assert listing == Listing(old(cache.State()), cacheKey);
    steps := [];
    if listing.Some? {
      steps := SyncItems(listing.value, cache, db, store, origin, now);
    }
  }

  /**
   * `syncMoviesFromCacheByTagKey`: every key of the tag, once each and in some
   * order; a key that is missing, undecodable or not a listing is skipped, and
   * every slug of every listing read is synced.
   */
  method SyncMoviesFromCacheByTagKey(tagKey: string, cache: Redis, db: Database, store: BlobStore, origin: Origin, now: int)
    returns (ghost visits: seq<Visit>)
    modifies cache, db, store
    ensures multiset(KeysOf(visits)) == multiset(Members(old(cache.sets), tagKey))
    ensures Visited(World(old(cache.State()), old(db.movies), old(db.episodes), old(store.State())),
                    db.unavailable, db.faults, origin, now, visits)
    ensures AfterVisits(World(old(cache.State()), old(db.movies), old(db.episodes), old(store.State())), visits) ==
            World(cache.State(), db.movies, db.episodes, store.State())
    ensures visits == [] ==> cache.State() == old(cache.State()) && store.State() == old(store.State()) &&
                             db.movies == old(db.movies) && db.episodes == old(db.episodes)
    ensures TablesGrown(old(db.movies), old(db.episodes), db.movies, db.episodes)
    ensures BlobsKept(old(store.State()), store.State())
    ensures db.categories == old(db.categories) && db.countries == old(db.countries)
    ensures db.unavailable == old(db.unavailable) && db.faults == old(db.faults)
  {
    ghost var w0 := World(cache.State(), db.movies, db.episodes, store.State());
    visits := [];
    var keys := cache.SMembers(tagKey);
    if keys == {} {
      return;
    }
    var todo := keys;
    while todo != {}
      invariant todo <= keys
      invariant multiset(KeysOf(visits)) + multiset(todo) == multiset(keys)
      invariant Visited(w0, db.unavailable, db.faults, origin, now, visits)
      invariant AfterVisits(w0, visits) == World(cache.State(), db.movies, db.episodes, store.State())
      invariant db.categories == old(db.categories) && db.countries == old(db.countries)
      invariant db.unavailable == old(db.unavailable) && db.faults == old(db.faults)
      decreases |todo|
    {
      var cacheKey :| cacheKey in todo;
      ghost var left := todo;
      todo := todo - {cacheKey};
      ghost var steps := SyncKey(cacheKey, cache, db, store, origin, now);
      VisitedOneMore(w0, db.unavailable, db.faults, origin, now, visits, Visit(cacheKey, steps));
      KeysOneMore(visits, Visit(cacheKey, steps), left, multiset(keys));
      visits := visits + [Visit(cacheKey, steps)];
    }
    VisitedGrown(w0, db.unavailable, db.faults, origin, now, visits);
  }
}
