/**
 * `DownloadImageIfNotExist` of helpers.go: an image of the image host is
 * mirrored into the bucket under its path on that host, once; any other URL
 * is handed back untouched.
 */
module Images {
  import opened Wrappers
  import opened Text
  import opened Helpers
  import opened Stores

  const ImageHost := "https://phimimg.com/"

  /** A download's outcome (the object path, the URL itself, or an error) and the bucket after it. */
  datatype Download = Download(result: Result<string, string>, after: BlobState)

  function Downloaded(st: BlobState, images: Origin, url: string): (d: Download)
    ensures !HasPrefix(url, ImageHost) ==> d == Download(Ok(url), st)
    ensures HasPrefix(url, ImageHost) && d.result.Ok? ==>
              url == ImageHost + d.result.value && Present(d.after, d.result.value)
    ensures HasPrefix(url, ImageHost) && Present(st, TrimPrefix(url, ImageHost)) ==>
              d == Download(Ok(TrimPrefix(url, ImageHost)), st)
    ensures HasPrefix(url, ImageHost) && url in images && images[url].status != 200 && !Present(st, TrimPrefix(url, ImageHost)) ==> d.result.Err?
    ensures d.result.Err? ==> d.after == st && HasPrefix(url, ImageHost)
    ensures d.after != st ==>
              d.after.bucketExists && !Present(st, TrimPrefix(url, ImageHost)) && url in images && images[url].status == 200
    ensures st.bucketExists ==> d.after.bucketExists
    ensures forall k :: k in st.objects && k != TrimPrefix(url, ImageHost) ==>
              k in d.after.objects && d.after.objects[k] == st.objects[k]
  {
    if !HasPrefix(url, ImageHost) then Download(Ok(url), st)
    else
      var rel := TrimPrefix(url, ImageHost);
      if Present(st, rel) then Download(Ok(rel), st)
      else if url !in images then Download(Err("failed to download image"), st)
      else if images[url].status != 200 then
        Download(Err("bad status when downloading image: " + ConvertInt64ToString(images[url].status)), st)
      else
        Download(Ok(rel), BlobState(true, st.objects[rel := StoredObject(images[url].body, images[url].contentType)]))
  }

  /** A successful download stores the origin's bytes and content type under the path. */
  lemma DownloadStores(st: BlobState, images: Origin, url: string)
    requires HasPrefix(url, ImageHost) && !Present(st, TrimPrefix(url, ImageHost))
    requires url in images && images[url].status == 200
    ensures var d := Downloaded(st, images, url);
            var rel := TrimPrefix(url, ImageHost);
            d.result == Ok(rel) && d.after.bucketExists &&
            d.after.objects == st.objects[rel := StoredObject(images[url].body, images[url].contentType)]
  {
  }

  /** Once downloaded, an image is never fetched again: the second call answers from the bucket, changing nothing. */
  lemma DownloadIdempotent(st: BlobState, images: Origin, later: Origin, url: string)
    requires Downloaded(st, images, url).result.Ok?
    ensures var d := Downloaded(st, images, url);
            Downloaded(d.after, later, url) == Download(d.result, d.after)
  {
  }

  /** `DownloadImageIfNotExist`. */
  method DownloadImageIfNotExist(url: string, store: BlobStore, images: Origin) returns (r: Result<string, string>)
    modifies store
    ensures Download(r, store.State()) == Downloaded(old(store.State()), images, url)
  {
    if !HasPrefix(url, ImageHost) {
      return Ok(url);
    }
    var rel := TrimPrefix(url, ImageHost);
    var stat := store.GetObject(rel);
    if stat.Some? {
      return Ok(rel);
    }
    if url !in images {
      return Err("failed to download image");
    }
    var resp := images[url];
    if resp.status != 200 {
      return Err("bad status when downloading image: " + ConvertInt64ToString(resp.status));
    }
    var found := store.BucketExists();
    if !found {
      store.MakeBucket();
    }
    store.PutObject(rel, StoredObject(resp.body, resp.contentType));
    return Ok(rel);
  }
}
