/**
 * The catalogue lookups of fast.services.go: `ListAllCategories` and
 * `ListAllCountry` read through a 23-hour cache entry, sync what the origin
 * lists into the local tables, and rename the `mien-tay` category.
 */
module Fast {
  import opened Wrappers
  import opened Json
  import opened Models
  import opened Stores
  import opened ReadThrough

  const CategoriesUrl := "https://phimapi.com/the-loai"
  const CountriesUrl := "https://phimapi.com/quoc-gia"

  function CategoriesKey(): (k: string)
    ensures k == "categories:" + CategoriesUrl
  {
    "categories:" + CategoriesUrl
  }

  function CountriesKey(): (k: string)
    ensures k == "countries:" + CountriesUrl
  {
    "countries:" + CountriesUrl
  }

  /** Both entries live for 23 hours. */
  const CatalogueTtl: nat := 23

  // ------------------------------------------------------------ the override

  const WesternSlug := "mien-tay"
  const WesternName := "Cao Bồi"

  /** The category as it is served: `mien-tay` is renamed, every other category is as fetched. */
  function Renamed(c: Category): Category {
    if c.slug == WesternSlug then c.(name := WesternName) else c
  }

  function RenamedAll(cs: seq<Category>): (r: seq<Category>)
    ensures |r| == |cs|
    ensures forall i :: 0 <= i < |cs| ==> r[i] == Renamed(cs[i])
  {
    seq(|cs|, i requires 0 <= i < |cs| => Renamed(cs[i]))
  }

  /** After the override every `mien-tay` is "Cao Bồi" and nothing else changed; a second override changes nothing. */
  lemma OverrideFacts(cs: seq<Category>)
    ensures forall i :: 0 <= i < |cs| ==>
              RenamedAll(cs)[i].id == cs[i].id && RenamedAll(cs)[i].slug == cs[i].slug &&
              (cs[i].slug == WesternSlug ==> RenamedAll(cs)[i].name == WesternName) &&
              (cs[i].slug != WesternSlug ==> RenamedAll(cs)[i] == cs[i])
    ensures RenamedAll(RenamedAll(cs)) == RenamedAll(cs)
  {
  }

  /** The override step of the fresh path: renames in place, slot by slot. */
  method RenameCategories(cats: seq<Category>) returns (r: seq<Category>)
    ensures r == RenamedAll(cats)
  {
    r := cats;
    var i := 0;
    while i < |r|
      invariant 0 <= i <= |r| == |cats|
      invariant forall j :: 0 <= j < i ==> r[j] == Renamed(cats[j])
      invariant forall j :: i <= j < |r| ==> r[j] == cats[j]
    {
      if r[i].slug == WesternSlug {
        r := r[i := r[i].(name := WesternName)];
      }
      i := i + 1;
    }
  }

  /** The override on a cached item: an object whose `slug` is the string `mien-tay` gets the new name. */
  function RenamedItem(j: Json): Json {
    if j.JObj? && "slug" in j.fields && j.fields["slug"] == JStr(WesternSlug) then
      JObj(j.fields["name" := JStr(WesternName)])
    else j
  }

  function RenamedItems(items: seq<Json>): (r: seq<Json>)
    ensures |r| == |items|
    ensures forall i :: 0 <= i < |items| ==> r[i] == RenamedItem(items[i])
  {
    seq(|items|, i requires 0 <= i < |items| => RenamedItem(items[i]))
  }

  /** The cached and the fresh path apply the same override, and applying it twice changes nothing. */
  lemma OverrideAgrees(cs: seq<Category>)
    ensures RenamedItems(EncodeCategories(cs)) == EncodeCategories(RenamedAll(cs))
    ensures RenamedItems(EncodeCategories(RenamedAll(cs))) == EncodeCategories(RenamedAll(cs))
  {
    OverrideCommutes(cs);
    OverrideCommutes(RenamedAll(cs));
    assert RenamedAll(RenamedAll(cs)) == RenamedAll(cs);
  }

  lemma OverrideCommutes(cs: seq<Category>)
    ensures RenamedItems(EncodeCategories(cs)) == EncodeCategories(RenamedAll(cs))
  {
    var l := RenamedItems(EncodeCategories(cs));
    var r := EncodeCategories(RenamedAll(cs));
    forall i | 0 <= i < |cs|
      ensures l[i] == r[i]
    {
      RenamedEncoded(cs[i]);
    }
  }

  /** The override on one category commutes with its encoding. */
  lemma RenamedEncoded(c: Category)
    ensures RenamedItem(EncodeCategory(c)) == EncodeCategory(Renamed(c))
  {
    var m := map["id" := JStr(c.id), "name" := JStr(c.name), "slug" := JStr(c.slug)];
    assert "slug" in m && m["slug"] == JStr(c.slug);
    if c.slug == WesternSlug {
      assert m["name" := JStr(WesternName)] == map["id" := JStr(c.id), "name" := JStr(WesternName), "slug" := JStr(c.slug)];
    }
  }

  /** The override of the cache path, on the entries of a decoded `data` array. */
  method RenameCachedItems(items: seq<Json>) returns (r: seq<Json>)
    ensures r == RenamedItems(items)
  {
    r := [];
    for i := 0 to |items|
      invariant r == RenamedItems(items[..i])
    {
      var item := items[i];
      if item.JObj? && "slug" in item.fields && item.fields["slug"] == JStr(WesternSlug) {
        item := JObj(item.fields["name" := JStr(WesternName)]);
      }
      assert RenamedItems(items[..i + 1]) == RenamedItems(items[..i]) + [item];
      r := r + [item];
    }
    assert items[..|items|] == items;
  }

  /** A cached category document as served: its `data` array renamed, marked `from_cache`. */
  function CachedCategories(doc: Object): (r: Object)
    ensures r.Keys == doc.Keys + {"from_cache"} && r["from_cache"] == JBool(true)
    ensures forall k :: k in doc && k != "from_cache" && k != "data" ==> r[k] == doc[k]
    ensures "data" in doc && doc["data"].JArr? ==> r["data"] == JArr(RenamedItems(doc["data"].items))
    ensures "data" in doc && !doc["data"].JArr? ==> r["data"] == doc["data"]
  {
    var d := if "data" in doc && doc["data"].JArr? then doc["data" := JArr(RenamedItems(doc["data"].items))] else doc;
    d["from_cache" := JBool(true)]
  }

  // ------------------------------------------------------------ syncing the tables

  /**
   * `FirstOrCreate(&Category{}, Category{ID: id})`: the row is looked up by id
   * (an empty id is dropped from the condition, so any row matches) and, when
   * none is found, a row holding only the id is inserted. A database that is
   * down writes nothing.
   */
  function CategoryCreated(table: map<string, Category>, id: string): (r: map<string, Category>)
    ensures id in table || (id == "" && table != map[]) ==> r == table
    ensures !(id in table || (id == "" && table != map[])) ==> r == table[id := Category(id, "", "")]
  {
    if id in table || (id == "" && table != map[]) then table else table[id := Category(id, "", "")]
  }

  function CategoriesSynced(table: map<string, Category>, cs: seq<Category>): map<string, Category>
    decreases |cs|
  {
    if cs == [] then table
    else CategoryCreated(CategoriesSynced(table, cs[..|cs| - 1]), cs[|cs| - 1].id)
  }

  /** The sync never changes or drops a row and leaves a row for every fetched id. */
  lemma {:induction false} CategoriesSyncKeeps(table: map<string, Category>, cs: seq<Category>)
    ensures var r := CategoriesSynced(table, cs);
            (forall id :: id in table ==> id in r && r[id] == table[id]) &&
            (forall i :: 0 <= i < |cs| ==> cs[i].id in r || (cs[i].id == "" && r != map[])) &&
            r.Keys <= table.Keys + (set i | 0 <= i < |cs| :: cs[i].id)
    decreases |cs|
  {
    if cs != [] {
      var prefix := cs[..|cs| - 1];
      CategoriesSyncKeeps(table, prefix);
      assert forall i :: 0 <= i < |prefix| ==> prefix[i] == cs[i];
      assert (set i | 0 <= i < |prefix| :: prefix[i].id) <= (set i | 0 <= i < |cs| :: cs[i].id);
    }
  }

  /** Re-running the sync creates nothing: the rows are keyed by what is looked up. */
  lemma {:induction false} CategoriesSyncIdempotent(table: map<string, Category>, cs: seq<Category>, more: seq<Category>)
    requires forall i :: 0 <= i < |more| ==> more[i] in cs
    ensures CategoriesSynced(CategoriesSynced(table, cs), more) == CategoriesSynced(table, cs)
    decreases |more|
  {
    if more != [] {
      var prefix := more[..|more| - 1];
      assert forall i :: 0 <= i < |prefix| ==> prefix[i] == more[i];
      CategoriesSyncIdempotent(table, cs, prefix);
      CategoriesSyncKeeps(table, cs);
      var j :| 0 <= j < |cs| && cs[j] == more[|more| - 1];
    }
  }

  /** Step 4 of `ListAllCategories`; the errors are dropped. */
  method SyncCategories(db: Database, cs: seq<Category>)
    modifies db
    ensures db.categories == if old(db.unavailable) then old(db.categories) else CategoriesSynced(old(db.categories), cs)
    ensures db.movies == old(db.movies) && db.episodes == old(db.episodes) && db.countries == old(db.countries)
    ensures db.unavailable == old(db.unavailable) && db.faults == old(db.faults)
  {
    if db.unavailable {
      return;
    }
    var i := 0;
    while i < |cs|
      invariant 0 <= i <= |cs|
      invariant db.categories == CategoriesSynced(old(db.categories), cs[..i])
      invariant db.movies == old(db.movies) && db.episodes == old(db.episodes) && db.countries == old(db.countries)
      invariant db.unavailable == old(db.unavailable) && db.faults == old(db.faults)
    {
      assert cs[..i + 1][..i] == cs[..i];
      var id := cs[i].id;
      if !(id in db.categories || (id == "" && db.categories != map[])) {
        db.categories := db.categories[id := Category(id, "", "")];
      }
      i := i + 1;
    }
    assert cs[..|cs|] == cs;
  }

  /** `FirstOrCreate(&Country{}, Country{Name: name})` finds a row: an empty name matches any row. */
  predicate CountryFound(table: map<string, Country>, name: string) {
    if name == "" then table != map[] else exists id :: id in table && table[id].name == name
  }

  /**
   * The country sync as written: a country whose name is not found is
   * inserted with only that name, so under the empty primary key; once that
   * key is taken, the insert of every further name fails on the primary key
   * and the error is dropped.
   */
  function CountryCreatedAsWritten(table: map<string, Country>, c: Country): map<string, Country> {
    if CountryFound(table, c.name) || "" in table then table else table["" := Country("", c.name, "")]
  }

  function CountriesSyncedAsWritten(table: map<string, Country>, cs: seq<Country>): map<string, Country>
    decreases |cs|
  {
    if cs == [] then table
    else CountryCreatedAsWritten(CountriesSyncedAsWritten(table, cs[..|cs| - 1]), cs[|cs| - 1])
  }

  /** As written, the sync adds at most one row ever: the one under the empty key. */
  lemma {:induction false} CountriesAsWrittenAddOne(table: map<string, Country>, cs: seq<Country>)
    ensures CountriesSyncedAsWritten(table, cs).Keys <= table.Keys + {""}
    decreases |cs|
  {
    if cs != [] {
      CountriesAsWrittenAddOne(table, cs[..|cs| - 1]);
    }
  }

  /** Two countries on an empty table: only the first is stored. */
  lemma CountriesAsWrittenLoseRows()
    ensures var cs := [Country("vn", "Viet Nam", "viet-nam"), Country("kr", "Han Quoc", "han-quoc")];
            var r := CountriesSyncedAsWritten(map[], cs);
            r == map["" := Country("", "Viet Nam", "")] && !CountryFound(r, "Han Quoc")
  {
    var cs := [Country("vn", "Viet Nam", "viet-nam"), Country("kr", "Han Quoc", "han-quoc")];
    assert cs[..1] == [cs[0]];
    assert cs[..1][..0] == [];
    var zero := CountriesSyncedAsWritten(map[], cs[..1][..0]);
    assert zero == map[];
    assert !CountryFound(zero, "Viet Nam");
    var one := CountriesSyncedAsWritten(map[], cs[..1]);
    assert one == CountryCreatedAsWritten(zero, cs[0]);
    assert one == map["" := Country("", "Viet Nam", "")];
    var r := CountriesSyncedAsWritten(map[], cs);
    assert r == one;
    assert r.Keys == {""} && r[""].name != "Han Quoc";
  }

  /** The country sync as intended: a country whose name is not found is inserted as fetched, under its own id. */
  function CountryCreated(table: map<string, Country>, c: Country): map<string, Country> {
    if CountryFound(table, c.name) || c.id in table then table else table[c.id := c]
  }

  function CountriesSynced(table: map<string, Country>, cs: seq<Country>): map<string, Country>
    decreases |cs|
  {
    if cs == [] then table
    else CountryCreated(CountriesSynced(table, cs[..|cs| - 1]), cs[|cs| - 1])
  }

  /** Ids that are new to the table and distinct among the fetched countries. */
  predicate FreshIds(table: map<string, Country>, cs: seq<Country>) {
    (forall i :: 0 <= i < |cs| ==> cs[i].id !in table) &&
    (forall i, j :: 0 <= i < j < |cs| ==> cs[i].id != cs[j].id)
  }

  /** The sync keeps every row, and every row it adds carries a fetched id. */
  lemma {:induction false} CountriesSyncKeeps(table: map<string, Country>, cs: seq<Country>)
    ensures var r := CountriesSynced(table, cs);
            (forall id :: id in table ==> id in r && r[id] == table[id]) &&
            (forall id :: id in r && id !in table ==> exists i :: 0 <= i < |cs| && cs[i].id == id)
    decreases |cs|
  {
    if cs != [] {
      var prefix := cs[..|cs| - 1];
      CountriesSyncKeeps(table, prefix);
      var before := CountriesSynced(table, prefix);
      var r := CountriesSynced(table, cs);
      assert r == CountryCreated(before, cs[|cs| - 1]);
      forall id | id in r && id !in table
        ensures exists i :: 0 <= i < |cs| && cs[i].id == id
      {
        if id !in before {
          assert cs[|cs| - 1].id == id;
        } else {
          var i :| 0 <= i < |prefix| && prefix[i].id == id;
          assert prefix[i] == cs[i];
        }
      }
    }
  }

  /** When the fetched ids are new and distinct, every fetched country is found by its name after the sync. */
  lemma {:induction false} CountriesSyncFinds(table: map<string, Country>, cs: seq<Country>)
    requires FreshIds(table, cs)
    ensures forall i :: 0 <= i < |cs| ==> CountryFound(CountriesSynced(table, cs), cs[i].name)
    decreases |cs|
  {
    if cs != [] {
      var prefix := cs[..|cs| - 1];
      var last := cs[|cs| - 1];
      assert forall i :: 0 <= i < |prefix| ==> prefix[i] == cs[i];
      assert FreshIds(table, prefix);
      CountriesSyncFinds(table, prefix);
      CountriesSyncKeeps(table, prefix);
      var before := CountriesSynced(table, prefix);
      var r := CountriesSynced(table, cs);
      assert r == CountryCreated(before, last);
      assert last.id !in before;
      assert forall id :: id in before ==> id in r && r[id] == before[id];
      forall i | 0 <= i < |cs|
        ensures CountryFound(r, cs[i].name)
      {
        if i < |prefix| {
          FoundKept(before, r, prefix[i].name);
        } else if !CountryFound(before, last.name) {
          assert r[last.id] == last;
        } else {
          FoundKept(before, r, last.name);
        }
      }
    }
  }

  /** A name found in a table is found in any table that keeps its rows. */
  lemma FoundKept(a: map<string, Country>, b: map<string, Country>, name: string)
    requires forall id :: id in a ==> id in b && b[id] == a[id]
    requires CountryFound(a, name)
    ensures CountryFound(b, name)
  {
    if name == "" {
      var id :| id in a;
      assert id in b;
    } else {
      var id :| id in a && a[id].name == name;
      assert id in b && b[id].name == name;
    }
  }

  /** Re-running the sync with the same countries creates nothing. */
  lemma {:induction false} CountriesSyncIdempotent(table: map<string, Country>, cs: seq<Country>, more: seq<Country>)
    requires forall i :: 0 <= i < |more| ==> more[i] in cs
    requires FreshIds(table, cs)
    ensures CountriesSynced(CountriesSynced(table, cs), more) == CountriesSynced(table, cs)
    decreases |more|
  {
    if more != [] {
      var prefix := more[..|more| - 1];
      assert forall i :: 0 <= i < |prefix| ==> prefix[i] == more[i];
      CountriesSyncIdempotent(table, cs, prefix);
      CountriesSyncFinds(table, cs);
      var c := more[|more| - 1];
      var j :| 0 <= j < |cs| && cs[j] == c;
      assert CountryFound(CountriesSynced(table, cs), c.name);
    }
  }

  /** Step 4 of `ListAllCountry`, with the insert carrying the fetched row. */
  method SyncCountries(db: Database, cs: seq<Country>)
    modifies db
    ensures db.countries == if old(db.unavailable) then old(db.countries) else CountriesSynced(old(db.countries), cs)
    ensures db.movies == old(db.movies) && db.episodes == old(db.episodes) && db.categories == old(db.categories)
    ensures db.unavailable == old(db.unavailable) && db.faults == old(db.faults)
  {
    if db.unavailable {
      return;
    }
    var i := 0;
    while i < |cs|
      invariant 0 <= i <= |cs|
      invariant db.countries == CountriesSynced(old(db.countries), cs[..i])
      invariant db.movies == old(db.movies) && db.episodes == old(db.episodes) && db.categories == old(db.categories)
      invariant db.unavailable == old(db.unavailable) && db.faults == old(db.faults)
    {
      assert cs[..i + 1][..i] == cs[..i];
      var c := cs[i];
      if !(CountryFound(db.countries, c.name) || c.id in db.countries) {
        db.countries := db.countries[c.id := c];
      }
      i := i + 1;
    }
    assert cs[..|cs|] == cs;
  }

  // ------------------------------------------------------------ the resolvers

  /** The fresh document: the fetched list under `data` (a JSON null body stays null), marked fresh. */
  function FreshDoc(data: Json, url: string, now: int): (r: Object)
    ensures r.Keys == {"success", "data", "from_cache", "request_url", "timestamp"}
    ensures r["success"] == JBool(true) && r["from_cache"] == JBool(false)
    ensures r["data"] == data && r["request_url"] == JStr(url)
  {
    map["success" := JBool(true), "data" := data, "from_cache" := JBool(false),
        "request_url" := JStr(url), "timestamp" := JNum(now)]
  }

  /** The `data` of a fresh category document: the renamed categories, or null for a null body. */
  function CategoryData(body: Bytes, cs: seq<Category>): Json {
    if body == JsonText(JNull) then JNull else JArr(EncodeCategories(RenamedAll(cs)))
  }

  /** A reply, the cache and the one table the resolver syncs. */
  datatype Listed<T> = Listed(reply: Reply, cache: CacheState, table: map<string, T>)

  /** `ListAllCategories` as a function of the stores. */
  function CategoriesResolution(st: CacheState, table: map<string, Category>, unavailable: bool,
                                origin: Origin, now: int): (o: Listed<Category>)
    ensures CachedObject(Stored(st.values, CategoriesKey())).Some? ==>
              o == Listed(Served(CachedCategories(CachedObject(Stored(st.values, CategoriesKey())).value)), st, table)
    ensures o.reply.Soft? ==>
              o.reply == Soft(ParseError, Fetch(origin, CategoriesUrl)) && o.cache == st && o.table == table
    ensures o.reply.Failed? ==> Fetch(origin, CategoriesUrl).None? && o.cache == st && o.table == table
  {
    match CachedObject(Stored(st.values, CategoriesKey()))
    case Some(doc) => Listed(Served(CachedCategories(doc)), st, table)
    case None =>
      match Fetch(origin, CategoriesUrl)
      case None => Listed(Failed("failed to fetch categories"), st, table)
      case Some(body) =>
        match DecodeCategoryList(body)
        case None => Listed(Soft(ParseError, Some(body)), st, table)
        case Some(cs) =>
          var doc := FreshDoc(CategoryData(body, cs), CategoriesUrl, now);
          Listed(Served(doc), Overwritten(st, CategoriesKey(), Marshal(doc), CatalogueTtl),
                 if unavailable then table else CategoriesSynced(table, cs))
  }

  /**
   * A fresh category list is cached for 23 hours with every category renamed,
   * and the next call is a hit serving the same document marked `from_cache`.
   */
  lemma CategoriesThenHit(st: CacheState, table: map<string, Category>, unavailable: bool,
                          origin: Origin, later: Origin, now: int, after: int)
    requires CachedObject(Stored(st.values, CategoriesKey())).None?
    requires CategoriesResolution(st, table, unavailable, origin, now).reply.Served?
    ensures var o := CategoriesResolution(st, table, unavailable, origin, now);
            var doc := o.reply.doc;
            var cs := DecodeCategoryList(Fetch(origin, CategoriesUrl).value).value;
            doc == FreshDoc(CategoryData(Fetch(origin, CategoriesUrl).value, cs), CategoriesUrl, now) &&
            o.cache == Overwritten(st, CategoriesKey(), Marshal(doc), CatalogueTtl) &&
            (forall i :: 0 <= i < |cs| && cs[i].slug == WesternSlug ==> RenamedAll(cs)[i].name == WesternName) &&
            CategoriesResolution(o.cache, o.table, unavailable, later, after) ==
              Listed(Served(doc["from_cache" := JBool(true)]), o.cache, o.table)
  {
    var o := CategoriesResolution(st, table, unavailable, origin, now);
    var body := Fetch(origin, CategoriesUrl).value;
    var cs := DecodeCategoryList(body).value;
    OverrideAgrees(cs);
    var doc := o.reply.doc;
    assert CachedObject(Stored(o.cache.values, CategoriesKey())) == Some(doc);
    assert CachedCategories(doc) == doc["from_cache" := JBool(true)];
  }

  /** `ListAllCategories`. */
  method ListAllCategories(cache: Redis, db: Database, origin: Origin, now: int) returns (r: Reply)
    modifies cache, db
    ensures Listed(r, cache.State(), db.categories) ==
            CategoriesResolution(old(cache.State()), old(db.categories), old(db.unavailable), origin, now)
    ensures db.movies == old(db.movies) && db.episodes == old(db.episodes) && db.countries == old(db.countries)
    ensures db.unavailable == old(db.unavailable) && db.faults == old(db.faults)
  {
    var key := CategoriesKey();

    // 1. The cache.
    var cached := cache.Get(key);
    if cached.Some? && NonEmpty(cached.value) {
      var result := UnmarshalObject(cached.value);
      // a cached `null` would panic at the assignment below: see `CachedObject`
      if result.Some? && !IsNull(cached.value) {
        var doc := result.value;
        if "data" in doc && doc["data"].JArr? {
          var items := RenameCachedItems(doc["data"].items);
          doc := doc["data" := JArr(items)];
        }
        return Served(doc["from_cache" := JBool(true)]);
      }
    }

    // 2. The origin.
    var body := Fetch(origin, CategoriesUrl);
    if body.None? {
      return Failed("failed to fetch categories");
    }

    // 3. Parsing, then the override.
    var raw := DecodeCategoryList(body.value);
    if raw.None? {
      return Soft(ParseError, body);
    }
    var cats := RenameCategories(raw.value);

    // 4. The table; the renamed list has the fetched ids.
    SyncCategories(db, cats);
    assert CategoriesSynced(old(db.categories), cats) == CategoriesSynced(old(db.categories), raw.value) by {
      SameIdsSameSync(old(db.categories), cats, raw.value);
    }

    // 5-6. The document and the cache.
    var data := if body.value == JsonText(JNull) then JNull else JArr(EncodeCategories(cats));
    var doc := FreshDoc(data, CategoriesUrl, now);
    cache.Set(key, Marshal(doc), CatalogueTtl);
    return Served(doc);
  }

  /** The sync looks at ids only, so renaming first does not change it. */
  lemma {:induction false} SameIdsSameSync(table: map<string, Category>, a: seq<Category>, b: seq<Category>)
    requires |a| == |b| && forall i :: 0 <= i < |a| ==> a[i].id == b[i].id
    ensures CategoriesSynced(table, a) == CategoriesSynced(table, b)
    decreases |a|
  {
    if a != [] {
      SameIdsSameSync(table, a[..|a| - 1], b[..|b| - 1]);
    }
  }

  /** `ListAllCountry` as a function of the stores. */
  function CountriesResolution(st: CacheState, table: map<string, Country>, unavailable: bool,
                               origin: Origin, now: int): (o: Listed<Country>)
    ensures CachedObject(Stored(st.values, CountriesKey())).Some? ==>
              o == Listed(Served(CachedObject(Stored(st.values, CountriesKey())).value["from_cache" := JBool(true)]), st, table)
    ensures o.reply.Soft? ==>
              o.reply == Soft(ParseError, Fetch(origin, CountriesUrl)) && o.cache == st && o.table == table
    ensures o.reply.Failed? ==> Fetch(origin, CountriesUrl).None? && o.cache == st && o.table == table
  {
    match CachedObject(Stored(st.values, CountriesKey()))
    case Some(doc) => Listed(Served(doc["from_cache" := JBool(true)]), st, table)
    case None =>
      match Fetch(origin, CountriesUrl)
      case None => Listed(Failed("failed to fetch countries"), st, table)
      case Some(body) =>
        match DecodeCountryList(body)
        case None => Listed(Soft(ParseError, Some(body)), st, table)
        case Some(cs) =>
          var data := if body == JsonText(JNull) then JNull else JArr(EncodeCountries(cs));
          var doc := FreshDoc(data, CountriesUrl, now);
          Listed(Served(doc), Overwritten(st, CountriesKey(), Marshal(doc), CatalogueTtl),
                 if unavailable then table else CountriesSynced(table, cs))
  }

  /** A fresh country list is cached for 23 hours and the next call serves it from the cache. */
  lemma CountriesThenHit(st: CacheState, table: map<string, Country>, unavailable: bool,
                         origin: Origin, later: Origin, now: int, after: int)
    requires CachedObject(Stored(st.values, CountriesKey())).None?
    requires CountriesResolution(st, table, unavailable, origin, now).reply.Served?
    ensures var o := CountriesResolution(st, table, unavailable, origin, now);
            o.reply.doc["success"] == JBool(true) && o.reply.doc["from_cache"] == JBool(false) &&
            o.cache == Overwritten(st, CountriesKey(), Marshal(o.reply.doc), CatalogueTtl) &&
            CountriesResolution(o.cache, o.table, unavailable, later, after) ==
              Listed(Served(o.reply.doc["from_cache" := JBool(true)]), o.cache, o.table)
  {
    var o := CountriesResolution(st, table, unavailable, origin, now);
    assert CachedObject(Stored(o.cache.values, CountriesKey())) == Some(o.reply.doc);
  }

  /** `ListAllCountry`. */
  method ListAllCountry(cache: Redis, db: Database, origin: Origin, now: int) returns (r: Reply)
    modifies cache, db
    ensures Listed(r, cache.State(), db.countries) ==
            CountriesResolution(old(cache.State()), old(db.countries), old(db.unavailable), origin, now)
    ensures db.movies == old(db.movies) && db.episodes == old(db.episodes) && db.categories == old(db.categories)
    ensures db.unavailable == old(db.unavailable) && db.faults == old(db.faults)
  {
    var key := CountriesKey();

    // 1. The cache.
    var cached := cache.Get(key);
    if cached.Some? && NonEmpty(cached.value) {
      var result := UnmarshalObject(cached.value);
      // a cached `null` would panic at the assignment below: see `CachedObject`
      if result.Some? && !IsNull(cached.value) {
        return Served(result.value["from_cache" := JBool(true)]);
      }
    }

    // 2. The origin.
    var body := Fetch(origin, CountriesUrl);
    if body.None? {
      return Failed("failed to fetch countries");
    }

    // 3. Parsing.
    var raw := DecodeCountryList(body.value);
    if raw.None? {
      return Soft(ParseError, body);
    }

    // 4-6. The table, the document and the cache.
    SyncCountries(db, raw.value);
    var data := if body.value == JsonText(JNull) then JNull else JArr(EncodeCountries(raw.value));
    var doc := FreshDoc(data, CountriesUrl, now);
    cache.Set(key, Marshal(doc), CatalogueTtl);
    return Served(doc);
  }
}
