/**
 * The image-path work of background.services.go: the path `url.Parse`
 * extracts from an image URL, the key `syncImage` resolves, and the remote
 * URL `processImageField` derives from a stored thumbnail or poster field.
 */
module Paths {
  import opened Wrappers
  import opened Text
  import opened Images

  // ------------------------------------------------------------ url.Parse, for the path only

  /** An ASCII control character; `url.Parse` rejects any before the fragment. */
  predicate IsCtl(c: char) {
    c < ' ' || c == 127 as char
  }

  predicate HasCtl(s: string) {
    exists i :: 0 <= i < |s| && IsCtl(s[i])
  }

  predicate IsLetter(c: char) {
    'a' <= c <= 'z' || 'A' <= c <= 'Z'
  }

  /** `strings.Cut(s, sep)`: the text before the first `sep` and the text after it. */
  function Cut(s: string, sep: char): (r: (string, string))
    ensures sep !in r.0
    ensures sep in s ==> s == r.0 + [sep] + r.1
    ensures sep !in s ==> r == (s, "")
  {
    if s == [] then ("", "")
    else if s[0] == sep then ("", s[1..])
    else
      var t := Cut(s[1..], sep);
      assert s == [s[0]] + s[1..];
      ([s[0]] + t.0, t.1)
  }

  /** What `getScheme` finds at the front of a URL. */
  datatype SchemeSplit = NoScheme | Scheme(name: string, rest: string) | MissingScheme

  /** `getScheme` from position `i` on: letters, then digits or `+-.` after the first, up to a `:`. */
  function SchemeFrom(s: string, i: nat): SchemeSplit
    requires i <= |s|
    decreases |s| - i
  {
    if i == |s| then NoScheme
    else if IsLetter(s[i]) then SchemeFrom(s, i + 1)
    else if '0' <= s[i] <= '9' || s[i] == '+' || s[i] == '-' || s[i] == '.' then
      if i == 0 then NoScheme else SchemeFrom(s, i + 1)
    else if s[i] == ':' then
      if i == 0 then MissingScheme else Scheme(s[..i], s[i + 1..])
    else NoScheme
  }

  /** The path after an authority: from the first `/` on, or empty. */
  function AfterAuthority(a: string): (p: string)
    ensures p == "" || p[0] == '/'
  {
    if '/' in a then "/" + Cut(a, '/').1 else ""
  }

  /** The path of what follows `scheme:`: an opaque URL has none; `//` opens an authority. */
  function PathAfterScheme(afterColon: string): string {
    var rest := Cut(afterColon, '?').0;
    if !HasPrefix(rest, "/") then ""
    else if HasPrefix(rest, "//") then AfterAuthority(rest[2..])
    else rest
  }

  /** The path of a URL without a scheme; a colon in its first segment is an error. */
  function PathWithoutScheme(u: string): Option<string> {
    var rest := Cut(u, '?').0;
    if !HasPrefix(rest, "/") && ':' in Cut(rest, '/').0 then None
    else if HasPrefix(rest, "//") && !HasPrefix(rest, "///") then Some(AfterAuthority(rest[2..]))
    else Some(rest)
  }

  /**
   * `url.Parse(raw).Path`, or None when `url.Parse` fails. The fragment is
   * cut first, then the query; a scheme followed by anything but `/` is an
   * opaque URL with an empty path; `//` opens an authority that runs to the
   * next `/`.
   */
  function UrlPath(raw: string): Option<string> {
    var u := Cut(raw, '#').0;
    if HasCtl(u) then None
    else if u == "*" then Some("*")
    else
      match SchemeFrom(u, 0)
      case MissingScheme => None
      case NoScheme => PathWithoutScheme(u)
      case Scheme(_, afterColon) => Some(PathAfterScheme(afterColon))
  }

  lemma {:induction false} SchemeOfLetters(s: string, k: nat, i: nat)
    requires 0 <= k <= i < |s| && 0 < i && s[i] == ':'
    requires forall j :: k <= j < i ==> IsLetter(s[j])
    ensures SchemeFrom(s, k) == Scheme(s[..i], s[i + 1..])
    decreases i - k
  {
    if k < i {
      SchemeOfLetters(s, k + 1, i);
    }
  }

  lemma NoCtlJoin(a: string, b: string)
    requires !HasCtl(a) && !HasCtl(b)
    ensures !HasCtl(a + b)
  {
    forall i | 0 <= i < |a + b|
      ensures !IsCtl((a + b)[i])
    {
      if i >= |a| {
        assert (a + b)[i] == b[i - |a|];
      }
    }
  }

  /** A host and a path free of `/`, `?`, `#` and control characters. */
  predicate PlainHost(host: string) {
    '/' !in host && '?' !in host && '#' !in host && !HasCtl(host)
  }

  predicate PlainPath(p: string) {
    '?' !in p && '#' !in p && !HasCtl(p)
  }

  /** Cutting at the first separator finds the text before it. */
  lemma {:induction false} CutAt(x: string, y: string, sep: char)
    requires sep !in x
    ensures Cut(x + [sep] + y, sep) == (x, y)
  {
    if x == [] {
      assert x + [sep] + y == [sep] + y;
    } else {
      CutAt(x[1..], y, sep);
      var s := x + [sep] + y;
      assert s[0] == x[0] && s[0] != sep;
      assert s[1..] == x[1..] + [sep] + y;
      assert [x[0]] + x[1..] == x;
    }
  }

  /** After `scheme:`, the text `//host/path` has the path `/path`. */
  lemma PathAfterAuthority(host: string, p: string)
    requires PlainHost(host) && PlainPath(p)
    ensures PathAfterScheme("//" + host + "/" + p) == "/" + p
  {
    var afterColon := "//" + host + "/" + p;
    assert '?' !in afterColon;
    var a := afterColon[2..];
    assert a == host + ['/'] + p;
    CutAt(host, p, '/');
  }

  /** The path of `scheme://host/path` is `/path`, for a letter-only scheme. */
  lemma PathOfAbsoluteUrl(scheme: string, host: string, p: string)
    requires |scheme| > 0 && forall j :: 0 <= j < |scheme| ==> IsLetter(scheme[j])
    requires PlainHost(host) && PlainPath(p)
    ensures UrlPath(scheme + "://" + host + "/" + p) == Some("/" + p)
  {
    var tail := "://" + host + "/" + p;
    var raw := scheme + tail;
    assert raw == scheme + "://" + host + "/" + p;
    assert !HasCtl(scheme) by {
      assert forall j :: 0 <= j < |scheme| ==> !IsCtl(scheme[j]);
    }
    assert !HasCtl("://") by {
      assert forall j :: 0 <= j < 3 ==> !IsCtl("://"[j]);
    }
    assert !HasCtl("/") by {
      assert !IsCtl("/"[0]);
    }
    NoCtlJoin("://", host);
    NoCtlJoin("://" + host, "/");
    NoCtlJoin("://" + host + "/", p);
    NoCtlJoin(scheme, tail);
    assert '#' !in scheme by {
      assert forall j :: 0 <= j < |scheme| ==> scheme[j] != '#';
    }
    assert '#' !in raw;
    assert raw != "*" by {
      assert |raw| > 1;
    }
    assert raw[|scheme|] == ':';
    assert raw[..|scheme|] == scheme;
    SchemeOfLetters(raw, 0, |scheme|);
    assert raw[|scheme| + 1..] == "//" + host + "/" + p;
    PathAfterAuthority(host, p);
  }

  // ------------------------------------------------------------ syncImage

  /**
   * The object path `syncImage` resolves: "" and "/" are rejected, a full
   * http(s) URL is reduced to its path, and one leading `/` is dropped.
   */
  function CleanThumb(thumb: string): (r: Result<string, string>)
    ensures thumb == "" || thumb == "/" ==> r == Err("invalid thumbnail URL")
    ensures !HasPrefix(thumb, "http://") && !HasPrefix(thumb, "https://") && thumb != "" && thumb != "/" ==>
              r == Ok(TrimPrefix(thumb, "/"))
    ensures r.Err? && thumb != "" && thumb != "/" ==>
              (HasPrefix(thumb, "http://") || HasPrefix(thumb, "https://")) && UrlPath(thumb).None?
  {
    if thumb == "" || thumb == "/" then Err("invalid thumbnail URL")
    else if HasPrefix(thumb, "http://") || HasPrefix(thumb, "https://") then
      match UrlPath(thumb)
      case None => Err("failed to parse thumbnail URL")
      case Some(p) => Ok(TrimPrefix(p, "/"))
    else Ok(TrimPrefix(thumb, "/"))
  }

  lemma CleanThumbOfParsed(thumb: string, k: string)
    requires HasPrefix(thumb, "http://") || HasPrefix(thumb, "https://")
    requires UrlPath(thumb) == Some("/" + k)
    ensures CleanThumb(thumb) == Ok(k)
  {
    assert thumb != "" && thumb != "/";
    assert ("/" + k)[1..] == k;
  }

  /** `http://…` and `https://…` start with the prefix `syncImage` tests for. */
  lemma SchemePrefix(scheme: string, rest: string)
    requires scheme == "https" || scheme == "http"
    ensures HasPrefix(scheme + "://" + rest, "http://") || HasPrefix(scheme + "://" + rest, "https://")
  {
    var raw := scheme + "://" + rest;
    assert raw[..|scheme| + 3] == scheme + "://";
  }

  /** A full image URL is resolved under its path on the host, whatever the host. */
  lemma CleanThumbOfUrl(scheme: string, host: string, k: string)
    requires scheme == "https" || scheme == "http"
    requires PlainHost(host) && PlainPath(k)
    ensures CleanThumb(scheme + "://" + host + "/" + k) == Ok(k)
  {
    var raw := scheme + "://" + host + "/" + k;
    PathOfAbsoluteUrl(scheme, host, k);
    SchemePrefix(scheme, host + "/" + k);
    assert raw == scheme + "://" + (host + "/" + k);
    CleanThumbOfParsed(raw, k);
  }

  // ------------------------------------------------------------ processImageField

  /** The image host without its trailing slash, as `processImageField` prefixes it to a path. */
  const ImageOrigin := "https://phimimg.com"

  /**
   * The URL `processImageField` downloads for a stored field: None for "" and
   * "/", for a URL `url.Parse` rejects and for any unrecognised format.
   */
  function RemoteUrl(original: string): (r: Option<string>)
    ensures original == "" || original == "/" ==> r.None?
    ensures !HasPrefix(original, "http") && (HasPrefix(original, "upload/") || HasPrefix(original, "/upload/")) ==>
              r == Some(ImageHost + TrimPrefix(original, "/"))
    ensures !HasPrefix(original, "http") && !HasPrefix(original, "upload/") && !HasPrefix(original, "/upload/") ==> r.None?
    ensures HasPrefix(original, "http") ==>
              r == (if UrlPath(original).Some? then Some(ImageOrigin + UrlPath(original).value) else None)
  {
    if original == "" || original == "/" then None
    else if HasPrefix(original, "http") then
      match UrlPath(original)
      case None => None
      case Some(p) => Some(ImageOrigin + p)
    else if HasPrefix(original, "upload/") || HasPrefix(original, "/upload/") then
      Some(ImageHost + TrimPrefix(original, "/"))
    else None
  }

  lemma RemoteOfParsed(original: string, p: string)
    requires HasPrefix(original, "http") && UrlPath(original) == Some(p)
    ensures RemoteUrl(original) == Some(ImageOrigin + p)
  {
  }

  /** A full image URL on any host is re-pointed at the image host, keeping its path. */
  lemma RemoteOfUrl(scheme: string, host: string, k: string)
    requires scheme == "https" || scheme == "http"
    requires PlainHost(host) && PlainPath(k)
    ensures RemoteUrl(scheme + "://" + host + "/" + k) == Some(ImageHost + k)
  {
    var raw := scheme + "://" + host + "/" + k;
    assert HasPrefix(raw, "http") by {
      assert raw == scheme + ("://" + host + "/" + k);
      assert raw[..4] == scheme[..4] == "http";
    }
    assert UrlPath(raw) == Some("/" + k) by {
      PathOfAbsoluteUrl(scheme, host, k);
    }
    RemoteOfParsed(raw, "/" + k);
    OriginThenSlash(k);
  }

  lemma OriginThenSlash(k: string)
    ensures ImageOrigin + ("/" + k) == ImageHost + k
  {
    assert ImageOrigin + "/" == ImageHost;
  }

  /** A stored `upload/` path is downloaded from the image host under that same path. */
  lemma RemoteOfUpload(k: string)
    requires HasPrefix(k, "upload/")
    ensures RemoteUrl(k) == Some(ImageHost + k)
    ensures RemoteUrl("/" + k) == Some(ImageHost + k)
  {
    assert k[..4] == "uplo";
    assert !HasPrefix(k, "http");
    assert ("/" + k)[1..] == k;
    assert ("/" + k)[..8] == "/" + k[..7];
    assert HasPrefix("/" + k, "/upload/");
    assert ("/" + k)[..4] == "/" + k[..3];
    assert !HasPrefix("/" + k, "http");
  }
}
