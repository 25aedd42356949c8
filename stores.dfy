/**
 * The shared collaborators as abstract stores: the Redis cache (string keys
 * and set-valued tag keys, each with the TTL it was last given), the Postgres
 * tables, the MinIO bucket, and the upstream HTTP origin as a response oracle.
 * TTLs are recorded in hours; no clock is modelled, so nothing expires.
 */
module Stores {
  import opened Wrappers
  import opened Json
  import opened Models

  /** `SMEMBERS`: the members of a tag, empty when the tag is absent. */
  function Members(sets: map<string, set<string>>, tag: string): set<string> {
    if tag in sets then sets[tag] else {}
  }

  /** A snapshot of the whole cache, for stating what an operation changed. */
  datatype CacheState = CacheState(values: map<string, Bytes>, sets: map<string, set<string>>, ttl: map<string, nat>)

  /** `DEL key` as a function of the cache. */
  function Deleted(st: CacheState, key: string): CacheState {
    CacheState(st.values - {key}, st.sets - {key}, st.ttl - {key})
  }

  /** `SET key v EX hours` as a function of the cache. */
  function Overwritten(st: CacheState, key: string, v: Bytes, hours: nat): CacheState {
    CacheState(st.values[key := v], st.sets - {key}, st.ttl[key := hours])
  }

  class Redis {
    var values: map<string, Bytes>
    var sets: map<string, set<string>>
    var ttl: map<string, nat>

    function State(): CacheState
      reads this
    {
      CacheState(values, sets, ttl)
    }

    constructor ()
      ensures values == map[] && sets == map[] && ttl == map[]
    {
      values, sets, ttl := map[], map[], map[];
    }

    /** `GET`: a missing key is an error to the caller, here None. */
    method Get(key: string) returns (r: Option<Bytes>)
      ensures r.Some? <==> key in values
      ensures r.Some? ==> r.value == values[key]
    {
      r := if key in values then Some(values[key]) else None;
    }

    /** `SET key value EX ttl`: replaces whatever the key held. */
    method Set(key: string, v: Bytes, hours: nat)
      modifies this
      ensures values == old(values)[key := v]
      ensures ttl == old(ttl)[key := hours]
      ensures sets == old(sets) - {key}
    {
      values := values[key := v];
      ttl := ttl[key := hours];
      sets := sets - {key};
    }

    /** `DEL`. */
    method Del(key: string)
      modifies this
      ensures values == old(values) - {key}
      ensures sets == old(sets) - {key}
      ensures ttl == old(ttl) - {key}
    {
      values, sets, ttl := values - {key}, sets - {key}, ttl - {key};
    }

    /** `SADD tag member`; on a key holding a string Redis refuses, and the pipeline drops the error. */
    method SAdd(tag: string, member: string)
      modifies this
      ensures tag in old(values) ==> sets == old(sets)
      ensures tag !in old(values) ==> sets == old(sets)[tag := Members(old(sets), tag) + {member}]
      ensures values == old(values) && ttl == old(ttl)
    {
      if tag !in values {
        sets := sets[tag := Members(sets, tag) + {member}];
      }
    }

    /** `EXPIRE key ttl`: only an existing key gets a TTL. */
    method Expire(key: string, hours: nat)
      modifies this
      ensures ttl == if key in old(values) || key in old(sets) then old(ttl)[key := hours] else old(ttl)
      ensures values == old(values) && sets == old(sets)
    {
      if key in values || key in sets {
        ttl := ttl[key := hours];
      }
    }

    method SMembers(tag: string) returns (s: set<string>)
      ensures s == Members(sets, tag)
    {
      s := Members(sets, tag);
    }
  }

  /** Faults the database may raise inside the detail transaction. */
  datatype TxFaults = TxFaults(movieInsertFails: bool, rejectedEpisodes: set<string>, commitFails: bool)

  /** The Postgres tables the core touches, with the database's fault behaviour. */
  class Database {
    /** `movies`, primary key `id`. */
    var movies: map<string, Movie>
    /** `episodes` in insertion order; the unique index on `slug` is kept by the inserts. */
    var episodes: seq<Episode>
    /** `categories`, primary key `id`. */
    var categories: map<string, Category>
    /** `countries`, primary key `id` (the sync looks rows up by `name`). */
    var countries: map<string, Country>
    /** When set, every query and every write fails. */
    var unavailable: bool
    var faults: TxFaults

    constructor ()
      ensures movies == map[] && episodes == [] && categories == map[] && countries == map[]
      ensures !unavailable && faults == TxFaults(false, {}, false)
    {
      movies, episodes, categories, countries := map[], [], map[], map[];
      unavailable := false;
      faults := TxFaults(false, {}, false);
    }
  }

  datatype StoredObject = StoredObject(data: Bytes, contentType: string)

  /** A snapshot of the bucket. */
  datatype BlobState = BlobState(bucketExists: bool, objects: map<string, StoredObject>)

  /** `StatObject` succeeds: the bucket exists and holds the key. */
  predicate Present(st: BlobState, key: string) {
    st.bucketExists && key in st.objects
  }

  /** The one MinIO bucket the service uses. */
  class BlobStore {
    var bucketExists: bool
    var objects: map<string, StoredObject>

    function State(): BlobState
      reads this
    {
      BlobState(bucketExists, objects)
    }

    constructor ()
      ensures !bucketExists && objects == map[]
    {
      bucketExists, objects := false, map[];
    }

    /** `GetObject` followed by `Stat` and a full read: fails when the bucket or the object is missing. */
    method GetObject(key: string) returns (r: Option<StoredObject>)
      ensures r.Some? <==> Present(State(), key)
      ensures r.Some? ==> r.value == objects[key]
    {
      r := if bucketExists && key in objects then Some(objects[key]) else None;
    }

    method BucketExists() returns (b: bool)
      ensures b == bucketExists
    {
      b := bucketExists;
    }

    method MakeBucket()
      modifies this
      ensures bucketExists && objects == old(objects)
    {
      bucketExists := true;
    }

    /** `PutObject` into an existing bucket: replaces whatever the key held. */
    method PutObject(key: string, obj: StoredObject)
      requires bucketExists
      modifies this
      ensures bucketExists && objects == old(objects)[key := obj]
    {
      objects := objects[key := obj];
    }
  }

  /** An HTTP response of the origin. */
  datatype Response = Response(status: int, body: Bytes, contentType: string)

  /** The upstream hosts as an oracle: a URL absent from the map fails at the transport level. */
  type Origin = map<string, Response>

  /** `MakeAnonymousRequest`: the body of any response, whatever its status. */
  function Fetch(origin: Origin, url: string): (r: Option<Bytes>)
    ensures r.Some? <==> url in origin
    ensures r.Some? ==> r.value == origin[url].body
  {
    if url in origin then Some(origin[url].body) else None
  }
}
