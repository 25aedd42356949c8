/**
 * `url.Values`: parameters are added in order and `Encode` renders them as
 * `k=v` pairs joined by `&`, sorted by key (a stable sort, so values of one
 * key keep their insertion order).  Percent-encoding is not modelled.
 */
module QueryParams {
  import opened Text

  type Param = (string, string)

  /** Byte-wise (here: character-wise) lexicographic order on strings, as `sort.Strings` uses. */
  predicate Less(a: string, b: string)
    decreases |a|
  {
    if |a| == 0 then |b| > 0
    else if |b| == 0 then false
    else if a[0] != b[0] then a[0] < b[0]
    else Less(a[1..], b[1..])
  }

  lemma {:induction false} LessAsymmetric(a: string, b: string)
    ensures !(Less(a, b) && Less(b, a))
    decreases |a|
  {
    if |a| > 0 && |b| > 0 && a[0] == b[0] {
      LessAsymmetric(a[1..], b[1..]);
    }
  }


  /** Adjacent keys never decrease. */
  predicate SortedByKey(ps: seq<Param>) {
    forall i :: 0 <= i < |ps| - 1 ==> !Less(ps[i + 1].0, ps[i].0)
  }

  /** Inserts `p` after every parameter whose key is not greater than its own. */
  function Insert(p: Param, ps: seq<Param>): (r: seq<Param>)
    requires SortedByKey(ps)
    ensures SortedByKey(r)
    ensures multiset(r) == multiset(ps) + multiset{p}
    ensures |r| == |ps| + 1
    ensures |r| > 0 && (r[0] == p || (|ps| > 0 && r[0] == ps[0]))
  {
    if |ps| == 0 then [p]
    else if !Less(p.0, ps[0].0) then
      var rest := Insert(p, ps[1..]);
      LessAsymmetric(p.0, ps[0].0);
      assert ps == [ps[0]] + ps[1..];
      [ps[0]] + rest
    else
      LessAsymmetric(p.0, ps[0].0);
      [p] + ps
  }

  /** The parameters in the order `Encode` writes them. */
  function SortByKey(ps: seq<Param>): (r: seq<Param>)
    ensures SortedByKey(r)
    ensures multiset(r) == multiset(ps)
    ensures |r| == |ps|
  {
    if |ps| == 0 then []
    else
      assert ps == ps[..|ps| - 1] + [ps[|ps| - 1]];
      Insert(ps[|ps| - 1], SortByKey(ps[..|ps| - 1]))
  }

  function Pair(p: Param): string {
    p.0 + "=" + p.1
  }

  function Pairs(ps: seq<Param>): (r: seq<string>)
    ensures |r| == |ps|
    ensures forall i :: 0 <= i < |ps| ==> r[i] == Pair(ps[i])
  {
    if |ps| == 0 then [] else [Pair(ps[0])] + Pairs(ps[1..])
  }

  /** `url.Values.Encode`. */
  function Encode(ps: seq<Param>): (r: string)
    ensures |ps| == 0 ==> r == ""
  {
    if |ps| == 0 then "" else Join(Pairs(SortByKey(ps)), '&')
  }

  /** A URL as `base + "?" + params.Encode()`, kept structured so that its parameters can be stated. */
  datatype Url = Url(base: string, params: seq<Param>)
  {
    function Render(): string {
      base + "?" + Encode(params)
    }

    /** The encoded query holds the pair `(k, v)`. */
    predicate Carries(k: string, v: string) {
      (k, v) in SortByKey(params)
    }

    /** The encoded query holds some value for `k`. */
    predicate HasKey(k: string) {
      k in Keys(SortByKey(params))
    }
  }

  /** The keys of a parameter list. */
  function Keys(ps: seq<Param>): set<string> {
    if |ps| == 0 then {} else {ps[0].0} + Keys(ps[1..])
  }

  lemma {:induction false} KeysAppend(a: seq<Param>, b: seq<Param>)
    ensures Keys(a + b) == Keys(a) + Keys(b)
  {
    if |a| > 0 {
      assert (a + b)[0] == a[0];
      assert (a + b)[1..] == a[1..] + b;
      KeysAppend(a[1..], b);
    } else {
      assert a + b == b;
    }
  }

  lemma {:induction false} KeysWithin(ps: seq<Param>, allowed: set<string>)
    requires forall i :: 0 <= i < |ps| ==> ps[i].0 in allowed
    ensures Keys(ps) <= allowed
  {
    if |ps| > 0 {
      KeysWithin(ps[1..], allowed);
    }
  }

  lemma {:induction false} InKeys(ps: seq<Param>, k: string)
    ensures k in Keys(ps) <==> exists i :: 0 <= i < |ps| && ps[i].0 == k
  {
    if |ps| > 0 {
      InKeys(ps[1..], k);
      if exists i :: 0 <= i < |ps| && ps[i].0 == k {
        var i :| 0 <= i < |ps| && ps[i].0 == k;
        if i > 0 {
          assert ps[1..][i - 1].0 == k;
        }
      }
    }
  }

  /** Sorting keeps exactly the added pairs. */
  lemma CarriesIffAdded(u: Url, k: string, v: string)
    ensures u.Carries(k, v) <==> (k, v) in u.params
  {
    assert (k, v) in SortByKey(u.params) <==> (k, v) in multiset(SortByKey(u.params));
  }

  /** A key is present after sorting exactly when some added pair has it. */
  lemma HasKeyIffAdded(u: Url, k: string)
    ensures u.HasKey(k) <==> k in Keys(u.params)
  {
    var s := SortByKey(u.params);
    InKeys(s, k);
    InKeys(u.params, k);
    if k in Keys(s) {
      var i :| 0 <= i < |s| && s[i].0 == k;
      assert s[i] in multiset(u.params);
      var j :| 0 <= j < |u.params| && u.params[j] == s[i];
    }
    if k in Keys(u.params) {
      var i :| 0 <= i < |u.params| && u.params[i].0 == k;
      assert u.params[i] in multiset(s);
      var j :| 0 <= j < |s| && s[j] == u.params[i];
    }
  }
}
