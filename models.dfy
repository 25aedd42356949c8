/**
 * The records of the movies module (models and request structs) and their
 * JSON form, following the struct tags: which keys they are written under and
 * how `json.Unmarshal` fills them.
 */
module Models {
  import opened Wrappers
  import opened Json

  /** A catalog item, keyed by `id` (JSON `_id`). Only the fields the core reads are kept. */
  datatype Movie = Movie(id: string, name: string, slug: string, thumbUrl: string, posterUrl: string)

  /** One playable episode. `movieId` and `serverName` carry the tag `json:"-"`: they are never in JSON. */
  datatype Episode = Episode(
    id: nat,
    movieId: string,
    serverName: string,
    name: string,
    slug: string,
    filename: string,
    linkEmbed: string,
    linkM3u8: string)

  datatype EpisodeGroup = EpisodeGroup(serverName: string, serverData: seq<Episode>)

  /** The body of `/phim/{slug}`. */
  datatype MovieDetails = MovieDetails(status: bool, msg: string, movie: Movie, episodes: seq<EpisodeGroup>)

  datatype Category = Category(id: string, name: string, slug: string)

  datatype Country = Country(id: string, name: string, slug: string)

  /** `MovieListRequest`. */
  datatype ListRequest = ListRequest(
    typeList: string, page: int, sortField: string, sortType: string,
    sortLang: string, category: string, country: string, year: int, limit: int)

  /** `MovieSearchRequest`. */
  datatype SearchRequest = SearchRequest(
    keyword: string, page: int, sortField: string, sortType: string,
    sortLang: string, category: string, country: string, year: int, limit: int)

  /** `MoviesByCategoryRequest`, used by both the category and the country listings. */
  datatype CategoryRequest = CategoryRequest(
    category: string, page: int, sortField: string, sortType: string,
    sortLang: string, country: string, year: int, limit: int)

  // ------------------------------------------------------------ decoding

  /** A string field: absent or null leaves "", a string is taken, anything else is a type error. */
  function DecodeString(obj: Object, key: string): Option<string> {
    if key !in obj || obj[key].JNull? then Some("")
    else if obj[key].JStr? then Some(obj[key].s)
    else None
  }

  function DecodeBool(obj: Object, key: string): Option<bool> {
    if key !in obj || obj[key].JNull? then Some(false)
    else if obj[key].JBool? then Some(obj[key].b)
    else None
  }

  /** A `uint` field: a negative number is a type error. */
  function DecodeNat(obj: Object, key: string): Option<nat> {
    if key !in obj || obj[key].JNull? then Some(0)
    else if obj[key].JNum? && obj[key].n >= 0 then Some(obj[key].n)
    else None
  }

  function DecodeMovie(j: Json): Option<Movie> {
    if j.JNull? then Some(Movie("", "", "", "", ""))
    else if !j.JObj? then None
    else
      var o := j.fields;
      var id := DecodeString(o, "_id");
      var name := DecodeString(o, "name");
      var slug := DecodeString(o, "slug");
      var thumb := DecodeString(o, "thumb_url");
      var poster := DecodeString(o, "poster_url");
      if id.None? || name.None? || slug.None? || thumb.None? || poster.None? then None
      else Some(Movie(id.value, name.value, slug.value, thumb.value, poster.value))
  }

  function DecodeEpisode(j: Json): Option<Episode> {
    if j.JNull? then Some(Episode(0, "", "", "", "", "", "", ""))
    else if !j.JObj? then None
    else
      var o := j.fields;
      var id := DecodeNat(o, "id");
      var name := DecodeString(o, "name");
      var slug := DecodeString(o, "slug");
      var file := DecodeString(o, "filename");
      var embed := DecodeString(o, "link_embed");
      var m3u8 := DecodeString(o, "link_m3u8");
      if id.None? || name.None? || slug.None? || file.None? || embed.None? || m3u8.None? then None
      else Some(Episode(id.value, "", "", name.value, slug.value, file.value, embed.value, m3u8.value))
  }

  function DecodeEpisodes(items: seq<Json>): Option<seq<Episode>> {
    if |items| == 0 then Some([])
    else
      var head := DecodeEpisode(items[0]);
      var tail := DecodeEpisodes(items[1..]);
      if head.None? || tail.None? then None else Some([head.value] + tail.value)
  }

  /** A slice field: absent or null is the empty slice. */
  function DecodeEpisodeArray(obj: Object, key: string): Option<seq<Episode>> {
    if key !in obj || obj[key].JNull? then Some([])
    else if obj[key].JArr? then DecodeEpisodes(obj[key].items)
    else None
  }

  function DecodeGroup(j: Json): Option<EpisodeGroup> {
    if j.JNull? then Some(EpisodeGroup("", []))
    else if !j.JObj? then None
    else
      var name := DecodeString(j.fields, "server_name");
      var data := DecodeEpisodeArray(j.fields, "server_data");
      if name.None? || data.None? then None else Some(EpisodeGroup(name.value, data.value))
  }

  function DecodeGroups(items: seq<Json>): Option<seq<EpisodeGroup>> {
    if |items| == 0 then Some([])
    else
      var head := DecodeGroup(items[0]);
      var tail := DecodeGroups(items[1..]);
      if head.None? || tail.None? then None else Some([head.value] + tail.value)
  }

  /** `json.Unmarshal(body, &data)` with `data` a `MovieDetails`. */
  function DecodeDetails(b: Bytes): Option<MovieDetails> {
    if !b.JsonText? then None
    else if b.value.JNull? then Some(MovieDetails(false, "", Movie("", "", "", "", ""), []))
    else if !b.value.JObj? then None
    else
      var o := b.value.fields;
      var status := DecodeBool(o, "status");
      var msg := DecodeString(o, "msg");
      var movie := DecodeMovie(if "movie" in o then o["movie"] else JNull);
      var groups :=
        if "episodes" !in o || o["episodes"].JNull? then Some([])
        else if o["episodes"].JArr? then DecodeGroups(o["episodes"].items)
        else None;
      if status.None? || msg.None? || movie.None? || groups.None? then None
      else Some(MovieDetails(status.value, msg.value, movie.value, groups.value))
  }

  function DecodeCategory(j: Json): Option<Category> {
    if j.JNull? then Some(Category("", "", ""))
    else if !j.JObj? then None
    else
      var id := DecodeString(j.fields, "id");
      var name := DecodeString(j.fields, "name");
      var slug := DecodeString(j.fields, "slug");
      if id.None? || name.None? || slug.None? then None else Some(Category(id.value, name.value, slug.value))
  }

  function DecodeCategories(items: seq<Json>): Option<seq<Category>> {
    if |items| == 0 then Some([])
    else
      var head := DecodeCategory(items[0]);
      var tail := DecodeCategories(items[1..]);
      if head.None? || tail.None? then None else Some([head.value] + tail.value)
  }

  /** `json.Unmarshal(body, &rawCategories)` with a `[]Category`; null is the empty slice. */
  function DecodeCategoryList(b: Bytes): Option<seq<Category>> {
    if !b.JsonText? then None
    else if b.value.JNull? then Some([])
    else if b.value.JArr? then DecodeCategories(b.value.items)
    else None
  }

  function DecodeCountry(j: Json): Option<Country> {
    match DecodeCategory(j)
    case None => None
    case Some(c) => Some(Country(c.id, c.name, c.slug))
  }

  function DecodeCountries(items: seq<Json>): Option<seq<Country>> {
    if |items| == 0 then Some([])
    else
      var head := DecodeCountry(items[0]);
      var tail := DecodeCountries(items[1..]);
      if head.None? || tail.None? then None else Some([head.value] + tail.value)
  }

  function DecodeCountryList(b: Bytes): Option<seq<Country>> {
    if !b.JsonText? then None
    else if b.value.JNull? then Some([])
    else if b.value.JArr? then DecodeCountries(b.value.items)
    else None
  }

  // ------------------------------------------------------------ encoding

  function EncodeMovie(m: Movie): Json {
    JObj(map["_id" := JStr(m.id), "name" := JStr(m.name), "slug" := JStr(m.slug),
             "thumb_url" := JStr(m.thumbUrl), "poster_url" := JStr(m.posterUrl)])
  }

  function EncodeEpisode(e: Episode): Json {
    JObj(map["id" := JNum(e.id), "name" := JStr(e.name), "slug" := JStr(e.slug),
             "filename" := JStr(e.filename), "link_embed" := JStr(e.linkEmbed),
             "link_m3u8" := JStr(e.linkM3u8)])
  }

  function EncodeEpisodes(eps: seq<Episode>): (r: seq<Json>)
    ensures |r| == |eps|
  {
    if |eps| == 0 then [] else [EncodeEpisode(eps[0])] + EncodeEpisodes(eps[1..])
  }

  function EncodeGroup(g: EpisodeGroup): Json {
    JObj(map["server_name" := JStr(g.serverName), "server_data" := JArr(EncodeEpisodes(g.serverData))])
  }

  function EncodeGroups(gs: seq<EpisodeGroup>): (r: seq<Json>)
    ensures |r| == |gs|
  {
    if |gs| == 0 then [] else [EncodeGroup(gs[0])] + EncodeGroups(gs[1..])
  }

  function EncodeCategory(c: Category): Json {
    JObj(map["id" := JStr(c.id), "name" := JStr(c.name), "slug" := JStr(c.slug)])
  }

  function EncodeCategories(cs: seq<Category>): (r: seq<Json>)
    ensures |r| == |cs|
    ensures forall i :: 0 <= i < |cs| ==> r[i] == EncodeCategory(cs[i])
  {
    if |cs| == 0 then [] else [EncodeCategory(cs[0])] + EncodeCategories(cs[1..])
  }

  function EncodeCountry(c: Country): Json {
    JObj(map["id" := JStr(c.id), "name" := JStr(c.name), "slug" := JStr(c.slug)])
  }

  function EncodeCountries(cs: seq<Country>): (r: seq<Json>)
    ensures |r| == |cs|
  {
    if |cs| == 0 then [] else [EncodeCountry(cs[0])] + EncodeCountries(cs[1..])
  }

  // ------------------------------------------------------- round trips

  /** What survives a trip through JSON: the `json:"-"` fields are dropped. */
  function Visible(e: Episode): Episode {
    e.(movieId := "", serverName := "")
  }

  function VisibleAll(eps: seq<Episode>): seq<Episode> {
    if |eps| == 0 then [] else [Visible(eps[0])] + VisibleAll(eps[1..])
  }

  function VisibleGroup(g: EpisodeGroup): EpisodeGroup {
    EpisodeGroup(g.serverName, VisibleAll(g.serverData))
  }

  function VisibleGroups(gs: seq<EpisodeGroup>): seq<EpisodeGroup> {
    if |gs| == 0 then [] else [VisibleGroup(gs[0])] + VisibleGroups(gs[1..])
  }

  lemma MovieRoundTrip(m: Movie)
    ensures DecodeMovie(EncodeMovie(m)) == Some(m)
  {
  }

  lemma {:induction false} EpisodesRoundTrip(eps: seq<Episode>)
    ensures DecodeEpisodes(EncodeEpisodes(eps)) == Some(VisibleAll(eps))
  {
    if |eps| > 0 {
      assert DecodeEpisode(EncodeEpisode(eps[0])) == Some(Visible(eps[0]));
      EpisodesRoundTrip(eps[1..]);
      assert EncodeEpisodes(eps)[1..] == EncodeEpisodes(eps[1..]);
    }
  }

  lemma {:induction false} GroupsRoundTrip(gs: seq<EpisodeGroup>)
    ensures DecodeGroups(EncodeGroups(gs)) == Some(VisibleGroups(gs))
  {
    if |gs| > 0 {
      EpisodesRoundTrip(gs[0].serverData);
      assert DecodeGroup(EncodeGroup(gs[0])) == Some(VisibleGroup(gs[0]));
      GroupsRoundTrip(gs[1..]);
      assert EncodeGroups(gs)[1..] == EncodeGroups(gs[1..]);
    }
  }

  /**
   * A details body written under the struct's tags decodes back to the same
   * details, up to the episode fields JSON never carries.
   */
  lemma DetailsRoundTrip(d: MovieDetails)
    ensures DecodeDetails(JsonText(JObj(map["status" := JBool(d.status), "msg" := JStr(d.msg),
                                            "movie" := EncodeMovie(d.movie), "episodes" := JArr(EncodeGroups(d.episodes))]))) ==
            Some(MovieDetails(d.status, d.msg, d.movie, VisibleGroups(d.episodes)))
  {
    MovieRoundTrip(d.movie);
    GroupsRoundTrip(d.episodes);
  }

  lemma {:induction false} CategoriesRoundTrip(cs: seq<Category>)
    ensures DecodeCategories(EncodeCategories(cs)) == Some(cs)
  {
    if |cs| > 0 {
      CategoriesRoundTrip(cs[1..]);
      assert EncodeCategories(cs)[1..] == EncodeCategories(cs[1..]);
      assert cs == [cs[0]] + cs[1..];
    }
  }
}
