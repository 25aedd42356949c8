/**
 * The movie-detail resolver of movie.services.go: `GetDetailsMovie` tries the
 * cache, then the local tables (`GetMovieDetailsFromDB`), then the origin;
 * what the origin returns is saved in one transaction (the movie, then every
 * episode stamped with its movie and server) before it is cached.
 */
module Details {
  import opened Wrappers
  import opened Json
  import opened Models
  import opened Stores
  import opened ReadThrough

  // ------------------------------------------------------------ keys

  const DetailsPrefix := "https://phimapi.com/phim/"
  const KeyPrefix := "movie_details:"
  const DetailsTag := "movie_details:cached_keys"

  /** Only the tag and the TTLs matter here: details have no shape check. */
  const DetailsFamily := Family(DetailsTag, 16, 16, true, "", "failed to fetch movie details")

  function DetailsUrl(slug: string): (u: string)
    ensures |u| == |DetailsPrefix| + |slug| && u[|DetailsPrefix|..] == slug
  {
    DetailsPrefix + slug
  }

  function DetailsCacheKey(slug: string): (k: string)
    ensures |k| == |KeyPrefix| + |DetailsUrl(slug)| && k[|KeyPrefix|..] == DetailsUrl(slug)
  {
    KeyPrefix + DetailsUrl(slug)
  }

  /** Distinct slugs never share a cache entry. */
  lemma DetailsKeyInjective(a: string, b: string)
    ensures DetailsCacheKey(a) == DetailsCacheKey(b) ==> a == b
  {
    if DetailsCacheKey(a) == DetailsCacheKey(b) {
      assert DetailsUrl(a) == DetailsCacheKey(a)[|KeyPrefix|..];
      assert a == DetailsUrl(a)[|DetailsPrefix|..];
      assert b == DetailsUrl(b)[|DetailsPrefix|..];
    }
  }

  /** A detail key is never the tag set that lists the detail keys. */
  lemma DetailsKeyIsNotTag(slug: string)
    ensures DetailsCacheKey(slug) != DetailsTag
  {
    assert |DetailsCacheKey(slug)| >= 39 > |DetailsTag|;
  }

  // ------------------------------------------------------------ the document

  /** The map `{"data": {"movie", "episodes"}, "from_cache", "request_url", "timestamp"}` the resolver builds. */
  function DetailsDoc(m: Movie, gs: seq<EpisodeGroup>, fromCache: bool, url: string, now: int): Object {
    map["data" := JObj(map["movie" := EncodeMovie(m), "episodes" := JArr(EncodeGroups(gs))]),
        "from_cache" := JBool(fromCache), "request_url" := JStr(url), "timestamp" := JNum(now)]
  }

  /**
   * The cached document reads back as itself, and its `data` decodes to the
   * movie and to the groups less their hidden episode fields.
   */
  lemma DetailsDocReadsBack(m: Movie, gs: seq<EpisodeGroup>, fromCache: bool, url: string, now: int)
    ensures var d := DetailsDoc(m, gs, fromCache, url, now);
            UnmarshalObject(Marshal(d)) == Some(d) &&
            "data" in d && d["data"].JObj? &&
            "movie" in d["data"].fields && DecodeMovie(d["data"].fields["movie"]) == Some(m) &&
            "episodes" in d["data"].fields && d["data"].fields["episodes"].JArr? &&
            DecodeGroups(d["data"].fields["episodes"].items) == Some(VisibleGroups(gs))
  {
    MovieRoundTrip(m);
    GroupsRoundTrip(gs);
  }

  /** The resolver's outcome. */
  datatype DetailsReply =
    /** A decodable cache entry, marked `from_cache`. */
    | FromCache(doc: Object)
    /** A movie and its groups, rendered as `DetailsDoc(movie, groups, false, url, timestamp)`. */
    | Typed(movie: Movie, groups: seq<EpisodeGroup>, url: string, timestamp: int)
    /** The soft result `{"success": false, "error": "Invalid API response", "raw_data": body}`. */
    | Invalid(rawData: Bytes)
    | Failed(error: string)

  // ------------------------------------------------------------ saving

  /** The row written for an API episode: owned by the movie, named after its group's server. */
  function Stamp(e: Episode, movieId: string, serverName: string): Episode {
    e.(movieId := movieId, serverName := serverName)
  }

  function StampGroup(movieId: string, g: EpisodeGroup): (r: seq<Episode>)
    ensures |r| == |g.serverData|
    ensures forall j :: 0 <= j < |r| ==> r[j] == Stamp(g.serverData[j], movieId, g.serverName)
  {
    seq(|g.serverData|, j requires 0 <= j < |g.serverData| => Stamp(g.serverData[j], movieId, g.serverName))
  }

  /** The rows the transaction inserts, group after group, in order. */
  function StampedRows(movieId: string, gs: seq<EpisodeGroup>): seq<Episode> {
    if |gs| == 0 then [] else StampGroup(movieId, gs[0]) + StampedRows(movieId, gs[1..])
  }

  lemma {:induction false} StampedSplit(movieId: string, gs: seq<EpisodeGroup>, i: nat)
    requires i < |gs|
    ensures StampedRows(movieId, gs) == StampedRows(movieId, gs[..i]) + StampGroup(movieId, gs[i]) + StampedRows(movieId, gs[i + 1..])
  {
    if i == 0 {
      assert gs[..0] == [];
    } else {
      StampedSplit(movieId, gs[1..], i - 1);
      assert gs[1..][..i - 1] == gs[..i][1..];
      assert gs[1..][i - 1] == gs[i];
      assert gs[1..][i..] == gs[i + 1..];
    }
  }

  lemma StampedPrefix(movieId: string, gs: seq<EpisodeGroup>, i: nat)
    requires i < |gs|
    ensures StampedRows(movieId, gs[..i + 1]) == StampedRows(movieId, gs[..i]) + StampGroup(movieId, gs[i])
  {
    StampedSplit(movieId, gs[..i + 1], i);
    assert gs[..i + 1][..i] == gs[..i];
    assert gs[..i + 1][i + 1..] == [];
  }

  /** Every inserted row belongs to the movie and is an API episode stamped with its own group's server name. */
  lemma {:induction false} StampedRowsOwned(movieId: string, gs: seq<EpisodeGroup>)
    ensures forall x :: x in StampedRows(movieId, gs) ==>
              x.movieId == movieId &&
              exists i, j :: 0 <= i < |gs| && 0 <= j < |gs[i].serverData| &&
                             x == Stamp(gs[i].serverData[j], movieId, gs[i].serverName)
  {
    if |gs| > 0 {
      StampedRowsOwned(movieId, gs[1..]);
      forall x | x in StampedRows(movieId, gs)
        ensures x.movieId == movieId &&
                exists i, j :: 0 <= i < |gs| && 0 <= j < |gs[i].serverData| &&
                               x == Stamp(gs[i].serverData[j], movieId, gs[i].serverName)
      {
        var head := StampGroup(movieId, gs[0]);
        if x in head {
          var j :| 0 <= j < |head| && head[j] == x;
          assert x == Stamp(gs[0].serverData[j], movieId, gs[0].serverName);
        } else {
          assert x in StampedRows(movieId, gs[1..]);
          var i, j :| 0 <= i < |gs[1..]| && 0 <= j < |gs[1..][i].serverData| &&
                      x == Stamp(gs[1..][i].serverData[j], movieId, gs[1..][i].serverName);
          assert gs[1..][i] == gs[i + 1];
        }
      }
    }
  }

  function SlugsOf(rows: seq<Episode>): set<string> {
    set x | x in rows :: x.slug
  }

  lemma SlugsOfAppend(a: seq<Episode>, b: seq<Episode>)
    ensures SlugsOf(a + b) == SlugsOf(a) + SlugsOf(b)
  {
    forall s | s in SlugsOf(a + b) ensures s in SlugsOf(a) + SlugsOf(b) {
      var x :| x in a + b && x.slug == s;
    }
    forall s | s in SlugsOf(a) + SlugsOf(b) ensures s in SlugsOf(a + b) {
      if s in SlugsOf(a) {
        var x :| x in a && x.slug == s;
        assert x in a + b;
      } else {
        var x :| x in b && x.slug == s;
        assert x in a + b;
      }
    }
  }

  /** The unique index on `episodes.slug`. */
  predicate UniqueSlugs(rows: seq<Episode>) {
    forall a, b :: 0 <= a < b < |rows| ==> rows[a].slug != rows[b].slug
  }

  /** `INSERT ... ON CONFLICT (slug) DO NOTHING`. */
  function InsertRow(rows: seq<Episode>, x: Episode): seq<Episode> {
    if x.slug in SlugsOf(rows) then rows else rows + [x]
  }

  function InsertRows(rows: seq<Episode>, added: seq<Episode>): seq<Episode>
    decreases |added|
  {
    if |added| == 0 then rows else InsertRows(InsertRow(rows, added[0]), added[1..])
  }

  lemma {:induction false} InsertRowsAppend(rows: seq<Episode>, a: seq<Episode>, b: seq<Episode>)
    ensures InsertRows(rows, a + b) == InsertRows(InsertRows(rows, a), b)
    decreases |a|
  {
    if |a| == 0 {
      assert a + b == b;
    } else {
      assert (a + b)[0] == a[0];
      assert (a + b)[1..] == a[1..] + b;
      InsertRowsAppend(InsertRow(rows, a[0]), a[1..], b);
    }
  }

  /** Inserting keeps the existing rows as they are. */
  lemma {:induction false} InsertRowsKeeps(rows: seq<Episode>, added: seq<Episode>)
    ensures |rows| <= |InsertRows(rows, added)| && InsertRows(rows, added)[..|rows|] == rows
    decreases |added|
  {
    if |added| > 0 {
      var next := InsertRow(rows, added[0]);
      InsertRowsKeeps(next, added[1..]);
      assert InsertRows(rows, added)[..|rows|] == next[..|rows|];
    }
  }

  /** After inserting, every added slug is present and no other slug is new. */
  lemma {:induction false} InsertRowsSlugs(rows: seq<Episode>, added: seq<Episode>)
    ensures SlugsOf(InsertRows(rows, added)) == SlugsOf(rows) + SlugsOf(added)
    decreases |added|
  {
    if |added| > 0 {
      var x := added[0];
      InsertRowsSlugs(InsertRow(rows, x), added[1..]);
      SlugsOfAppend(rows, [x]);
      assert SlugsOf([x]) == {x.slug};
      SlugsOfAppend([x], added[1..]);
      assert added == [x] + added[1..];
    }
  }

  /** Inserting keeps the slugs unique. */
  lemma {:induction false} InsertRowsUnique(rows: seq<Episode>, added: seq<Episode>)
    requires UniqueSlugs(rows)
    ensures UniqueSlugs(InsertRows(rows, added))
    decreases |added|
  {
    if |added| > 0 {
      var x := added[0];
      var next := InsertRow(rows, x);
      if x.slug !in SlugsOf(rows) {
        forall a, b | 0 <= a < b < |next| ensures next[a].slug != next[b].slug {
          if b == |rows| {
            assert next[a] in rows;
          }
        }
      }
      InsertRowsUnique(next, added[1..]);
    }
  }

  /** Every row past the old ones is one of the added rows. */
  lemma {:induction false} InsertRowsFromAdded(rows: seq<Episode>, added: seq<Episode>)
    ensures forall k :: |rows| <= k < |InsertRows(rows, added)| ==> InsertRows(rows, added)[k] in added
    decreases |added|
  {
    if |added| > 0 {
      var x := added[0];
      var next := InsertRow(rows, x);
      var r := InsertRows(rows, added);
      InsertRowsFromAdded(next, added[1..]);
      InsertRowsKeeps(next, added[1..]);
      forall k | |rows| <= k < |r| ensures r[k] in added {
        if k >= |next| {
          assert r[k] in added[1..];
        } else {
          assert r[k] == next[k] == x;
        }
      }
    }
  }

  /** Inserting rows whose slugs are all present changes nothing. */
  lemma {:induction false} InsertRowsPresent(rows: seq<Episode>, added: seq<Episode>)
    requires SlugsOf(added) <= SlugsOf(rows)
    ensures InsertRows(rows, added) == rows
    decreases |added|
  {
    if |added| > 0 {
      assert added[0] in added;
      SlugsOfAppend([added[0]], added[1..]);
      assert added == [added[0]] + added[1..];
      InsertRowsPresent(rows, added[1..]);
    }
  }

  /** `INSERT ... ON CONFLICT (id) DO NOTHING` on `movies`. */
  function InsertMovie(movies: map<string, Movie>, m: Movie): (r: map<string, Movie>)
    ensures m.id in r
    ensures m.id in movies ==> r == movies
    ensures m.id !in movies ==> r[m.id] == m
    ensures forall id :: id in movies ==> id in r && r[id] == movies[id]
    ensures forall id :: id in r ==> id in movies || id == m.id
  {
    if m.id in movies then movies else movies[m.id := m]
  }

  /** Whether the transaction commits: every statement succeeds and so does the commit. */
  predicate Commits(unavailable: bool, faults: TxFaults, d: MovieDetails) {
    !unavailable && !faults.movieInsertFails &&
    SlugsOf(StampedRows(d.movie.id, d.episodes)) !! faults.rejectedEpisodes &&
    !faults.commitFails
  }

  /**
   * Saving the same details a second time changes nothing: the movie and
   * every slug are already present.
   */
  lemma SaveIdempotent(movies: map<string, Movie>, rows: seq<Episode>, d: MovieDetails)
    ensures InsertMovie(InsertMovie(movies, d.movie), d.movie) == InsertMovie(movies, d.movie)
    ensures var once := InsertRows(rows, StampedRows(d.movie.id, d.episodes));
            InsertRows(once, StampedRows(d.movie.id, d.episodes)) == once
  {
    var added := StampedRows(d.movie.id, d.episodes);
    InsertRowsSlugs(rows, added);
    InsertRowsPresent(InsertRows(rows, added), added);
  }

  /**
   * After a save the old rows are untouched, slugs stay unique, and every new
   * row belongs to the saved movie and carries its group's server name.
   */
  lemma SavedRows(rows: seq<Episode>, d: MovieDetails)
    ensures var r := InsertRows(rows, StampedRows(d.movie.id, d.episodes));
            |rows| <= |r| && r[..|rows|] == rows && (UniqueSlugs(rows) ==> UniqueSlugs(r)) &&
            SlugsOf(r) == SlugsOf(rows) + SlugsOf(StampedRows(d.movie.id, d.episodes)) &&
            forall k :: |rows| <= k < |r| ==>
              r[k].movieId == d.movie.id &&
              exists i, j :: 0 <= i < |d.episodes| && 0 <= j < |d.episodes[i].serverData| &&
                             r[k] == Stamp(d.episodes[i].serverData[j], d.movie.id, d.episodes[i].serverName)
  {
    var added := StampedRows(d.movie.id, d.episodes);
    InsertRowsKeeps(rows, added);
    InsertRowsSlugs(rows, added);
    if UniqueSlugs(rows) {
      InsertRowsUnique(rows, added);
    }
    InsertRowsFromAdded(rows, added);
    StampedRowsOwned(d.movie.id, d.episodes);
  }

  /** One more insert statement of a batch. */
  lemma InsertOneMore(rows: seq<Episode>, done: seq<Episode>, batch: seq<Episode>, j: nat)
    requires j < |batch|
    ensures InsertRows(rows, done + batch[..j + 1]) == InsertRow(InsertRows(rows, done + batch[..j]), batch[j])
  {
    assert done + batch[..j + 1] == (done + batch[..j]) + [batch[j]];
    InsertRowsAppend(rows, done + batch[..j], [batch[j]]);
    assert [batch[j]][1..] == [];
  }

  lemma SlugsOneMore(batch: seq<Episode>, j: nat)
    requires j < |batch|
    ensures SlugsOf(batch[..j + 1]) == SlugsOf(batch[..j]) + {batch[j].slug}
  {
    assert batch[..j + 1] == batch[..j] + [batch[j]];
    SlugsOfAppend(batch[..j], [batch[j]]);
    assert SlugsOf([batch[j]]) == {batch[j].slug};
  }

  /** Every stamped episode's slug is among the slugs the transaction inserts. */
  lemma RejectedSlug(movieId: string, gs: seq<EpisodeGroup>, i: nat, j: nat)
    requires i < |gs| && j < |gs[i].serverData|
    ensures StampGroup(movieId, gs[i])[j].slug in SlugsOf(StampedRows(movieId, gs))
  {
    StampedSplit(movieId, gs, i);
    var x := StampGroup(movieId, gs[i])[j];
    assert x in StampedRows(movieId, gs);
  }

  /**
   * The insert statements of one server group, in order, inside the
   * transaction; the first rejected episode stops them.
   */
  method InsertGroup(db: Database, id: string, gs: seq<EpisodeGroup>, i: nat, done: seq<Episode>, rows0: seq<Episode>)
    returns (ok: bool, rows: seq<Episode>)
    requires i < |gs| && done == StampedRows(id, gs[..i])
    requires rows0 == InsertRows(db.episodes, done)
    ensures ok <==> SlugsOf(StampGroup(id, gs[i])) !! db.faults.rejectedEpisodes
    ensures ok ==> rows == InsertRows(db.episodes, done + StampGroup(id, gs[i]))
    ensures !ok ==> !(SlugsOf(StampedRows(id, gs)) !! db.faults.rejectedEpisodes)
  {
    var g := gs[i];
    rows := rows0;
    var j := 0;
    assert done + StampGroup(id, g)[..0] == done;
    while j < |g.serverData|
      invariant 0 <= j <= |g.serverData|
      invariant rows == InsertRows(db.episodes, done + StampGroup(id, g)[..j])
      invariant SlugsOf(StampGroup(id, g)[..j]) !! db.faults.rejectedEpisodes
    {
      var ep := StampGroup(id, g)[j];
      if ep.slug in db.faults.rejectedEpisodes {
        RejectedSlug(id, gs, i, j);
        assert ep.slug in SlugsOf(StampGroup(id, g)) by {
          assert ep in StampGroup(id, g);
        }
        return false, rows;
      }
      SlugsOneMore(StampGroup(id, g), j);
      InsertOneMore(db.episodes, done, StampGroup(id, g), j);
      rows := InsertRow(rows, ep);
      j := j + 1;
    }
    assert StampGroup(id, g)[..j] == StampGroup(id, g);
    return true, rows;
  }

  /** The transaction: all of the movie and its episodes are saved, or nothing is. */
  method SaveDetails(db: Database, d: MovieDetails) returns (ok: bool)
    modifies db
    ensures ok == Commits(old(db.unavailable), old(db.faults), d)
    ensures ok ==> db.movies == InsertMovie(old(db.movies), d.movie) &&
                   db.episodes == InsertRows(old(db.episodes), StampedRows(d.movie.id, d.episodes))
    ensures !ok ==> db.movies == old(db.movies) && db.episodes == old(db.episodes)
    ensures db.categories == old(db.categories) && db.countries == old(db.countries)
    ensures db.unavailable == old(db.unavailable) && db.faults == old(db.faults)
  {
    if db.unavailable || db.faults.movieInsertFails {
      return false;
    }
    var id := d.movie.id;
    var movies := InsertMovie(db.movies, d.movie);
    var rows := db.episodes;
    var gs := d.episodes;
    var i := 0;
    while i < |gs|
      invariant 0 <= i <= |gs|
      invariant unchanged(db)
      invariant rows == InsertRows(db.episodes, StampedRows(id, gs[..i]))
      invariant SlugsOf(StampedRows(id, gs[..i])) !! db.faults.rejectedEpisodes
    {
      var g := gs[i];
      var done := StampedRows(id, gs[..i]);
      var inserted;
      inserted, rows := InsertGroup(db, id, gs, i, done, rows);
      if !inserted {
        // an error other than a duplicate: roll back
        return false;
      }
      StampedPrefix(id, gs, i);
      SlugsOfAppend(done, StampGroup(id, g));
      i := i + 1;
    }
    assert gs[..i] == gs;
    if db.faults.commitFails {
      return false;
    }
    db.movies, db.episodes := movies, rows;
    return true;
  }

  // ------------------------------------------------------------ reading back

  /** `WHERE movie_id = ?`, in table order. */
  function OwnedRows(rows: seq<Episode>, movieId: string): (r: seq<Episode>)
    ensures forall x :: x in r <==> x in rows && x.movieId == movieId
  {
    if |rows| == 0 then []
    else (if rows[0].movieId == movieId then [rows[0]] else []) + OwnedRows(rows[1..], movieId)
  }

  /** The rows of one server, in order. */
  function OnServer(rows: seq<Episode>, name: string): seq<Episode> {
    if |rows| == 0 then []
    else OnServer(rows[..|rows| - 1], name) + (if rows[|rows| - 1].serverName == name then [rows[|rows| - 1]] else [])
  }

  lemma {:induction false} OnServerMembers(rows: seq<Episode>, name: string)
    ensures forall x :: x in OnServer(rows, name) <==> x in rows && x.serverName == name
  {
    if |rows| > 0 {
      OnServerMembers(rows[..|rows| - 1], name);
      assert rows == rows[..|rows| - 1] + [rows[|rows| - 1]];
    }
  }

  function Flatten(gs: seq<EpisodeGroup>): seq<Episode> {
    if |gs| == 0 then [] else Flatten(gs[..|gs| - 1]) + gs[|gs| - 1].serverData
  }

  /**
   * `gs` is `rows` grouped by server: one non-empty group per server name
   * that occurs, each holding exactly that server's rows in order, and no
   * row lost or repeated.
   */
  predicate GroupsOf(gs: seq<EpisodeGroup>, rows: seq<Episode>) {
    (forall a, b :: 0 <= a < b < |gs| ==> gs[a].serverName != gs[b].serverName) &&
    (forall k :: 0 <= k < |gs| ==> gs[k].serverData == OnServer(rows, gs[k].serverName) && gs[k].serverData != []) &&
    (forall x :: x in rows ==> exists k :: 0 <= k < |gs| && gs[k].serverName == x.serverName) &&
    |Flatten(gs)| == |rows|
  }

  /** Each row sits in one group exactly: the one named by its server. */
  lemma GroupedOnce(gs: seq<EpisodeGroup>, rows: seq<Episode>, x: Episode)
    requires GroupsOf(gs, rows) && x in rows
    ensures exists k :: 0 <= k < |gs| && gs[k].serverName == x.serverName && x in gs[k].serverData
    ensures forall k :: 0 <= k < |gs| && x in gs[k].serverData ==> gs[k].serverName == x.serverName
    ensures forall a, b :: 0 <= a < |gs| && 0 <= b < |gs| && x in gs[a].serverData && x in gs[b].serverData ==> a == b
  {
    var k :| 0 <= k < |gs| && gs[k].serverName == x.serverName;
    OnServerMembers(rows, x.serverName);
    assert x in gs[k].serverData;
    forall k' | 0 <= k' < |gs| && x in gs[k'].serverData ensures gs[k'].serverName == x.serverName {
      OnServerMembers(rows, gs[k'].serverName);
    }
  }

  /** The sum of the group sizes, for the last name backwards. */
  function Total(names: seq<string>, grouped: map<string, seq<Episode>>): nat
    requires forall n :: n in names ==> n in grouped
  {
    if |names| == 0 then 0 else Total(names[..|names| - 1], grouped) + |grouped[names[|names| - 1]]|
  }

  lemma {:induction false} TotalFrame(names: seq<string>, grouped: map<string, seq<Episode>>, n: string, v: seq<Episode>)
    requires forall m :: m in names ==> m in grouped
    requires n !in names
    ensures Total(names, grouped[n := v]) == Total(names, grouped)
  {
    if |names| > 0 {
      TotalFrame(names[..|names| - 1], grouped, n, v);
    }
  }

  lemma {:induction false} TotalBump(names: seq<string>, grouped: map<string, seq<Episode>>, n: string, v: seq<Episode>)
    requires forall m :: m in names ==> m in grouped
    requires forall a, b :: 0 <= a < b < |names| ==> names[a] != names[b]
    requires n in names && |v| == |grouped[n]| + 1
    ensures Total(names, grouped[n := v]) == Total(names, grouped) + 1
  {
    var init := names[..|names| - 1];
    if names[|names| - 1] == n {
      assert n !in init;
      TotalFrame(init, grouped, n, v);
    } else {
      TotalBump(init, grouped, n, v);
    }
  }

  lemma OnServerStep(rows: seq<Episode>, i: nat, name: string)
    requires i < |rows|
    ensures OnServer(rows[..i + 1], name) == OnServer(rows[..i], name) + (if rows[i].serverName == name then [rows[i]] else [])
  {
    assert rows[..i + 1][..i] == rows[..i];
  }

  lemma {:induction false} OnServerAbsent(rows: seq<Episode>, name: string)
    requires forall x :: x in rows ==> x.serverName != name
    ensures OnServer(rows, name) == []
  {
    if |rows| > 0 {
      assert rows[|rows| - 1] in rows;
      assert forall x :: x in rows[..|rows| - 1] ==> x in rows;
      OnServerAbsent(rows[..|rows| - 1], name);
    }
  }

  /** `grouped` maps every server name of `rows` to exactly that server's rows. */
  predicate Bucketed(rows: seq<Episode>, grouped: map<string, seq<Episode>>) {
    (forall n :: n in grouped ==> grouped[n] == OnServer(rows, n) && grouped[n] != []) &&
    (forall x :: x in rows ==> x.serverName in grouped)
  }

  /** Appending a row to its server's bucket keeps the buckets exact. */
  lemma BucketStep(rows: seq<Episode>, i: nat, grouped: map<string, seq<Episode>>)
    requires i < |rows| && Bucketed(rows[..i], grouped)
    ensures var n := rows[i].serverName;
            Bucketed(rows[..i + 1], grouped[n := if n in grouped then grouped[n] + [rows[i]] else [rows[i]]])
  {
    var ep := rows[i];
    var n := ep.serverName;
    var after := grouped[n := if n in grouped then grouped[n] + [ep] else [ep]];
    forall m | m in after ensures after[m] == OnServer(rows[..i + 1], m) && after[m] != [] {
      OnServerStep(rows, i, m);
      if m !in grouped {
        // a server seen for the first time has no earlier rows
        OnServerAbsent(rows[..i], m);
      }
    }
    assert rows[..i + 1] == rows[..i] + [ep];
    forall x | x in rows[..i + 1] ensures x.serverName in after {
      if x != ep {
        assert x in rows[..i];
      }
    }
  }

  /** The first loop of the grouping: a map from server name to that server's rows, and the names in first-appearance order. */
  method BucketByServer(rows: seq<Episode>) returns (grouped: map<string, seq<Episode>>, names: seq<string>)
    ensures forall n :: n in names <==> n in grouped
    ensures forall a, b :: 0 <= a < b < |names| ==> names[a] != names[b]
    ensures Bucketed(rows, grouped)
    ensures Total(names, grouped) == |rows|
  {
    grouped, names := map[], [];
    var i := 0;
    while i < |rows|
      invariant 0 <= i <= |rows|
      invariant forall n :: n in names <==> n in grouped
      invariant forall a, b :: 0 <= a < b < |names| ==> names[a] != names[b]
      invariant Bucketed(rows[..i], grouped)
      invariant Total(names, grouped) == i
    {
      var ep := rows[i];
      var n := ep.serverName;
      var v := if n in grouped then grouped[n] + [ep] else [ep];
      BucketStep(rows, i, grouped);
      var after := grouped[n := v];
      assert Bucketed(rows[..i + 1], after);
      if n in grouped {
        TotalBump(names, grouped, n, v);
      } else {
        TotalFrame(names, grouped, n, v);
        assert (names + [n])[..|names|] == names;
        assert Total(names + [n], after) == Total(names, after) + 1;
        names := names + [n];
      }
      assert Total(names, after) == i + 1;
      grouped := after;
      i := i + 1;
    }
    assert rows[..i] == rows;
  }

  /** The second loop of the grouping: one group per name, in order. */
  method CollectGroups(grouped: map<string, seq<Episode>>, names: seq<string>) returns (gs: seq<EpisodeGroup>)
    requires forall n :: n in names ==> n in grouped
    ensures |gs| == |names| && forall t :: 0 <= t < |gs| ==> gs[t] == EpisodeGroup(names[t], grouped[names[t]])
    ensures |Flatten(gs)| == Total(names, grouped)
  {
    gs := [];
    var k := 0;
    while k < |names|
      invariant 0 <= k <= |names|
      invariant |gs| == k
      invariant forall t :: 0 <= t < k ==> gs[t] == EpisodeGroup(names[t], grouped[names[t]])
      invariant |Flatten(gs)| == Total(names[..k], grouped)
    {
      var next := gs + [EpisodeGroup(names[k], grouped[names[k]])];
      assert next[..|gs|] == gs;
      assert names[..k + 1][..k] == names[..k];
      gs := next;
      k := k + 1;
    }
    assert names[..k] == names;
  }

  /** The grouping of `GetMovieDetailsFromDB`; groups come out in first-appearance order. */
  method GroupByServer(rows: seq<Episode>) returns (gs: seq<EpisodeGroup>)
    ensures GroupsOf(gs, rows)
  {
    var grouped, names := BucketByServer(rows);
    gs := CollectGroups(grouped, names);
    Collected(rows, grouped, names, gs);
  }

  /** One group per bucket, in the order of `names`, is the grouping of `rows`. */
  lemma Collected(rows: seq<Episode>, grouped: map<string, seq<Episode>>, names: seq<string>, gs: seq<EpisodeGroup>)
    requires forall n :: n in names <==> n in grouped
    requires forall a, b :: 0 <= a < b < |names| ==> names[a] != names[b]
    requires Bucketed(rows, grouped) && Total(names, grouped) == |rows|
    requires |gs| == |names| && forall t :: 0 <= t < |gs| ==> gs[t] == EpisodeGroup(names[t], grouped[names[t]])
    requires |Flatten(gs)| == Total(names, grouped)
    ensures GroupsOf(gs, rows)
  {
    forall x | x in rows ensures exists t :: 0 <= t < |gs| && gs[t].serverName == x.serverName {
      var t :| 0 <= t < |names| && names[t] == x.serverName;
      assert gs[t].serverName == x.serverName;
    }
  }

  /** A `DEL` just before a `SET` of the same key leaves no trace. */
  lemma DeleteThenSet(st: CacheState, key: string, v: Bytes, hours: nat)
    ensures Overwritten(Deleted(st, key), key, v, hours) == Overwritten(st, key, v, hours)
  {
    assert (st.values - {key})[key := v] == st.values[key := v];
    assert (st.ttl - {key})[key := hours] == st.ttl[key := hours];
  }

  predicate HasMovie(movies: map<string, Movie>, slug: string) {
    exists m :: m in movies.Values && m.slug == slug
  }

  /** Every movie carrying the slug has at least one episode row. */
  predicate AllHaveRows(movies: map<string, Movie>, rows: seq<Episode>, slug: string) {
    forall m :: m in movies.Values && m.slug == slug ==> OwnedRows(rows, m.id) != []
  }

  /** The tables answer with `m` and `gs`, and the answer is cached under the key and its tag. */
  predicate ServedFromTables(movies: map<string, Movie>, rows: seq<Episode>, st0: CacheState, st: CacheState,
                             slug: string, now: int, m: Movie, gs: seq<EpisodeGroup>) {
    m in movies.Values && m.slug == slug &&
    OwnedRows(rows, m.id) != [] && GroupsOf(gs, OwnedRows(rows, m.id)) &&
    st == WriteThrough(st0, DetailsFamily, DetailsCacheKey(slug),
                       Marshal(DetailsDoc(m, gs, true, DetailsUrl(slug), now)))
  }

  /**
   * `GetMovieDetailsFromDB`: a movie with the slug and its episode rows grouped by
   * server, cached with its tag; a movie without rows drops the cached entry.
   */
  method GetMovieDetailsFromDB(db: Database, cache: Redis, slug: string, now: int)
    returns (r: Option<(Movie, seq<EpisodeGroup>)>)
    modifies cache
    ensures r.Some? ==>
              !db.unavailable &&
              ServedFromTables(db.movies, db.episodes, old(cache.State()), cache.State(), slug, now, r.value.0, r.value.1)
    ensures db.unavailable || !HasMovie(db.movies, slug) ==> r.None? && cache.State() == old(cache.State())
    ensures !db.unavailable && HasMovie(db.movies, slug) && AllHaveRows(db.movies, db.episodes, slug) ==> r.Some?
    ensures r.None? ==> cache.State() == old(cache.State()) ||
                        cache.State() == Deleted(old(cache.State()), DetailsCacheKey(slug))
    ensures !db.unavailable && HasMovie(db.movies, slug) && r.None? ==>
              cache.State() == Deleted(old(cache.State()), DetailsCacheKey(slug))
  {
    var url := DetailsUrl(slug);
    var key := DetailsCacheKey(slug);
    if db.unavailable || !HasMovie(db.movies, slug) {
      return None;
    }
    var movie :| movie in db.movies.Values && movie.slug == slug;
    var all := OwnedRows(db.episodes, movie.id);
    if |all| == 0 {
      cache.Del(key);
      return None;
    }
    var groups := GroupByServer(all);
    cache.Set(key, Marshal(DetailsDoc(movie, groups, true, url, now)), 16);
    cache.SAdd(DetailsTag, key);
    cache.Expire(DetailsTag, 16);
    return Some((movie, groups));
  }

  /** The origin's details were saved and cached under the key (no tag). */
  predicate SavedFromOrigin(origin: Origin, unavailable: bool, faults: TxFaults,
                            movies0: map<string, Movie>, rows0: seq<Episode>,
                            movies: map<string, Movie>, rows: seq<Episode>,
                            st0: CacheState, st: CacheState, slug: string, now: int, r: DetailsReply)
    requires r.Typed?
  {
    var body := Fetch(origin, DetailsUrl(slug));
    body.Some? && DecodeDetails(body.value).Some? &&
    var d := DecodeDetails(body.value).value;
    r.movie == d.movie && r.groups == d.episodes &&
    Commits(unavailable, faults, d) &&
    movies == InsertMovie(movies0, d.movie) &&
    rows == InsertRows(rows0, StampedRows(d.movie.id, d.episodes)) &&
    st == Overwritten(st0, DetailsCacheKey(slug), Marshal(DetailsDoc(r.movie, r.groups, false, r.url, now)), 16)
  }

  /** The database only grows: rows are added, none is removed or changed. */
  predicate TablesGrown(movies0: map<string, Movie>, rows0: seq<Episode>, movies: map<string, Movie>, rows: seq<Episode>) {
    rows0 <= rows && forall id :: id in movies0 ==> id in movies && movies[id] == movies0[id]
  }

  /** The error of a transaction that does not commit, named after the statement that failed. */
  function SaveError(unavailable: bool, faults: TxFaults, d: MovieDetails): string {
    if unavailable || faults.movieInsertFails then "failed to upsert movie"
    else if !(SlugsOf(StampedRows(d.movie.id, d.episodes)) !! faults.rejectedEpisodes) then "failed to upsert episode"
    else "transaction commit failed"
  }

  /**
   * What `GetDetailsMovie` does, as a relation between the cache and the
   * tables before (`st0`, `movies0`, `rows0`) and after (`st`, `movies`, `rows`):
   * a decodable hit is served as it is; a movie whose rows exist is served
   * from the tables; otherwise the origin's answer is decoded, saved in one
   * transaction and cached; a result that is not served leaves the tables as
   * they were and the cache as the table lookup left it.
   */
  predicate DetailsStep(st0: CacheState, movies0: map<string, Movie>, rows0: seq<Episode>,
                        unavailable: bool, faults: TxFaults, origin: Origin, slug: string, now: int,
                        r: DetailsReply, st: CacheState, movies: map<string, Movie>, rows: seq<Episode>)
  {
    var hit := CachedObject(Stored(st0.values, DetailsCacheKey(slug)));
    var body := Fetch(origin, DetailsUrl(slug));
    var missed := if !unavailable && HasMovie(movies0, slug) then Deleted(st0, DetailsCacheKey(slug)) else st0;
    (r.FromCache? <==> hit.Some?) &&
    (r.FromCache? ==> r.doc == hit.value["from_cache" := JBool(true)] && st == st0) &&
    (r.Typed? ==>
       r.url == DetailsUrl(slug) && r.timestamp == now &&
       ((movies == movies0 && rows == rows0 &&
         ServedFromTables(movies0, rows0, st0, st, slug, now, r.movie, r.groups)) ||
        SavedFromOrigin(origin, unavailable, faults, movies0, rows0, movies, rows, st0, st, slug, now, r))) &&
    (!r.FromCache? && !unavailable && HasMovie(movies0, slug) && AllHaveRows(movies0, rows0, slug) ==>
       r.Typed? && movies == movies0 && rows == rows0 &&
       ServedFromTables(movies0, rows0, st0, st, slug, now, r.movie, r.groups)) &&
    (r.Invalid? ==> body == Some(r.rawData) && DecodeDetails(r.rawData).None?) &&
    (r.Failed? ==>
       (body.None? && r.error == DetailsFamily.fetchError) ||
       (body.Some? && DecodeDetails(body.value).Some? &&
        !Commits(unavailable, faults, DecodeDetails(body.value).value) &&
        r.error == SaveError(unavailable, faults, DecodeDetails(body.value).value))) &&
    (!r.Typed? ==> movies == movies0 && rows == rows0) &&
    (r.Invalid? || r.Failed? ==> st == missed) &&
    TablesGrown(movies0, rows0, movies, rows)
  }

  /** `GetDetailsMovie`. */
  method GetDetailsMovie(cache: Redis, db: Database, origin: Origin, slug: string, now: int) returns (r: DetailsReply)
    modifies cache, db
    ensures DetailsStep(old(cache.State()), old(db.movies), old(db.episodes), old(db.unavailable), old(db.faults),
                        origin, slug, now, r, cache.State(), db.movies, db.episodes)
    ensures db.categories == old(db.categories) && db.countries == old(db.countries)
    ensures db.unavailable == old(db.unavailable) && db.faults == old(db.faults)
  {
    var url := DetailsUrl(slug);
    var key := DetailsCacheKey(slug);

    // 1. The cache.
    var cached := cache.Get(key);
    if cached.Some? {
      var result := UnmarshalObject(cached.value);
      // a cached `null` would panic at the assignment below: see `CachedObject`
      if result.Some? && !IsNull(cached.value) {
        return FromCache(result.value["from_cache" := JBool(true)]);
      }
    }

    // 2. The local tables.
    ghost var st0 := cache.State();
    var local := GetMovieDetailsFromDB(db, cache, slug, now);
    if local.Some? {
      return Typed(local.value.0, local.value.1, url, now);
    }
    ghost var st1 := cache.State();

    // 3. The origin.
    var body := Fetch(origin, url);
    if body.None? {
      return DetailsReply.Failed(DetailsFamily.fetchError);
    }
    var data := DecodeDetails(body.value);
    if data.None? {
      return Invalid(body.value);
    }

    // 4. The transaction.
    ghost var rows0 := db.episodes;
    var ok := SaveDetails(db, data.value);
    InsertRowsKeeps(rows0, StampedRows(data.value.movie.id, data.value.episodes));
    if !ok {
      return DetailsReply.Failed(SaveError(db.unavailable, db.faults, data.value));
    }

    // 5. The cache, without a tag.
    r := Typed(data.value.movie, data.value.episodes, url, now);
    cache.Set(key, Marshal(DetailsDoc(r.movie, r.groups, false, url, now)), 16);
    if st1 != st0 {
      DeleteThenSet(st0, key, Marshal(DetailsDoc(r.movie, r.groups, false, url, now)), 16);
    }
  }
}
