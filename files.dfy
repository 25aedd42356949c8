/**
 * `FileService` of file.services.go: an image path is resolved through three
 * tiers (the Redis cache, then the bucket, then a download from the image
 * host) and each lower tier that answers warms the cache.
 */
module Files {
  import opened Wrappers
  import opened Json
  import opened Text
  import opened Stores
  import opened Images

  const CachePrefix := "image_cache:"

  /** Where a reply's `Content-Type` comes from: sniffed from cached bytes, or as the bucket recorded it. */
  datatype ContentType = Sniffed | Declared(value: string)

  datatype FileReply = FileReply(data: Bytes, contentType: ContentType)

  datatype ServiceError = ServiceError(status: int, message: string)

  /** The object key: the path less one leading `/`. */
  function ObjectKey(filePath: string): (k: string)
    ensures HasPrefix(filePath, "/") ==> filePath == "/" + k
    ensures !HasPrefix(filePath, "/") ==> k == filePath
  {
    TrimPrefix(filePath, "/")
  }

  function ImageCacheKey(objectKey: string): (k: string)
    ensures |k| == |CachePrefix| + |objectKey| && k[..|CachePrefix|] == CachePrefix && k[|CachePrefix|..] == objectKey
  {
    CachePrefix + objectKey
  }

  /** A reply and the two stores after it. */
  datatype Served = Served(reply: Result<FileReply, ServiceError>, cache: CacheState, blobs: BlobState)

  /** The cache holds non-empty bytes for the path. */
  predicate CacheHit(cache: CacheState, filePath: string) {
    var key := ImageCacheKey(ObjectKey(filePath));
    key in cache.values && NonEmpty(cache.values[key])
  }

  /** The resolver as a function of the stores. */
  function Serve(cache: CacheState, blobs: BlobState, images: Origin, filePath: string): (s: Served)
    ensures CacheHit(cache, filePath) ==>
              s == Served(Ok(FileReply(cache.values[ImageCacheKey(ObjectKey(filePath))], Sniffed)), cache, blobs)
    ensures s.reply.Err? ==> s.reply.error.status == 404 && s.cache == cache && s.blobs == blobs
    ensures s.reply.Ok? && !CacheHit(cache, filePath) ==>
              var key := ImageCacheKey(ObjectKey(filePath));
              key in s.cache.values && s.cache.values[key] == s.reply.value.data && s.reply.value.contentType.Declared? &&
              Present(s.blobs, ObjectKey(filePath))
  {
    var objectKey := ObjectKey(filePath);
    var key := ImageCacheKey(objectKey);
    if key in cache.values && NonEmpty(cache.values[key]) then
      Served(Ok(FileReply(cache.values[key], Sniffed)), cache, blobs)
    else if Present(blobs, objectKey) then
      var o := blobs.objects[objectKey];
      Served(Ok(FileReply(o.data, Declared(o.contentType))), Overwritten(cache, key, o.data, 6), blobs)
    else
      var d := Downloaded(blobs, images, ImageHost + objectKey);
      if d.result.Err? then
        Served(Err(ServiceError(404, "object not found and failed to download: " + objectKey)), cache, blobs)
      else
        var o := d.after.objects[d.result.value];
        Served(Ok(FileReply(o.data, Declared(o.contentType))), Overwritten(cache, key, o.data, 24), d.after)
  }

  /** The download strips the host it was given, so the retried read uses the object key itself. */
  lemma RetryUsesObjectKey(blobs: BlobState, images: Origin, objectKey: string)
    ensures var d := Downloaded(blobs, images, ImageHost + objectKey);
            d.result.Ok? ==> d.result.value == objectKey
  {
    var url := ImageHost + objectKey;
    assert url[..|ImageHost|] == ImageHost;
    var d := Downloaded(blobs, images, url);
    if d.result.Ok? {
      assert url[|ImageHost|..] == objectKey;
      assert url[|ImageHost|..] == d.result.value;
    }
  }

  /** A bucket hit is served as stored and cached for 6 hours; the image host is not consulted. */
  lemma BucketHit(cache: CacheState, blobs: BlobState, images: Origin, later: Origin, filePath: string)
    requires !CacheHit(cache, filePath) && Present(blobs, ObjectKey(filePath))
    ensures var o := blobs.objects[ObjectKey(filePath)];
            var s := Serve(cache, blobs, images, filePath);
            s == Serve(cache, blobs, later, filePath) &&
            s.reply == Ok(FileReply(o.data, Declared(o.contentType))) && s.blobs == blobs &&
            s.cache == Overwritten(cache, ImageCacheKey(ObjectKey(filePath)), o.data, 6)
  {
  }

  /**
   * A miss in both tiers downloads `https://phimimg.com/` + the object key;
   * a good response is stored in the bucket and cached for 24 hours.
   */
  lemma DownloadedImage(cache: CacheState, blobs: BlobState, images: Origin, filePath: string)
    requires !CacheHit(cache, filePath) && !Present(blobs, ObjectKey(filePath))
    requires ImageHost + ObjectKey(filePath) in images && images[ImageHost + ObjectKey(filePath)].status == 200
    ensures var resp := images[ImageHost + ObjectKey(filePath)];
            var s := Serve(cache, blobs, images, filePath);
            s.reply == Ok(FileReply(resp.body, Declared(resp.contentType))) &&
            s.blobs.bucketExists &&
            s.blobs.objects == blobs.objects[ObjectKey(filePath) := StoredObject(resp.body, resp.contentType)] &&
            s.cache == Overwritten(cache, ImageCacheKey(ObjectKey(filePath)), resp.body, 24)
  {
    var url := ImageHost + ObjectKey(filePath);
    assert url[..|ImageHost|] == ImageHost;
    assert TrimPrefix(url, ImageHost) == ObjectKey(filePath);
    DownloadStores(blobs, images, url);
  }

  /** After a success with non-empty bytes, asking again is a cache hit with the same bytes that changes nothing. */
  lemma ServeThenHit(cache: CacheState, blobs: BlobState, images: Origin, later: Origin, filePath: string)
    requires Serve(cache, blobs, images, filePath).reply.Ok?
    requires NonEmpty(Serve(cache, blobs, images, filePath).reply.value.data)
    ensures var s := Serve(cache, blobs, images, filePath);
            Serve(s.cache, s.blobs, later, filePath) ==
              Served(Ok(FileReply(s.reply.value.data, Sniffed)), s.cache, s.blobs)
  {
  }

  /** `FileService`. */
  method FileService(filePath: string, cache: Redis, store: BlobStore, images: Origin)
    returns (r: Result<FileReply, ServiceError>)
    modifies cache, store
    ensures Served(r, cache.State(), store.State()) == Serve(old(cache.State()), old(store.State()), images, filePath)
  {
    var objectKey := ObjectKey(filePath);
    var key := ImageCacheKey(objectKey);

    // 1. The cache.
    var cached := cache.Get(key);
    if cached.Some? && NonEmpty(cached.value) {
      return Ok(FileReply(cached.value, Sniffed));
    }

    // 2. The bucket.
    var obj := store.GetObject(objectKey);
    if obj.Some? {
      cache.Set(key, obj.value.data, 6);
      return Ok(FileReply(obj.value.data, Declared(obj.value.contentType)));
    }

    // 3. The image host.
    var newPath := DownloadImageIfNotExist(ImageHost + objectKey, store, images);
    if newPath.Err? {
      return Err(ServiceError(404, "object not found and failed to download: " + objectKey));
    }
    obj := store.GetObject(newPath.value);
    if obj.None? {
      assert false;
    }
    cache.Set(key, obj.value.data, 24);
    return Ok(FileReply(obj.value.data, Declared(obj.value.contentType)));
  }
}
