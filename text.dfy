/** String helpers shared by the key, URL and path code: Go's `strings` functions. */
module Text {

  /** `strings.HasPrefix(s, p)`. */
  predicate HasPrefix(s: string, p: string) {
    |p| <= |s| && s[..|p|] == p
  }

  /** `strings.TrimPrefix(s, p)`: drops one copy of `p` from the front, if there is one. */
  function TrimPrefix(s: string, p: string): (r: string)
    ensures HasPrefix(s, p) ==> s == p + r
    ensures !HasPrefix(s, p) ==> r == s
  {
    if HasPrefix(s, p) then s[|p|..] else s
  }

  /** Fields joined by one separator character, as a `fmt.Sprintf("%s:%s:...")` key is. */
  function Join(fields: seq<string>, sep: char): string
    requires |fields| > 0
  {
    if |fields| == 1 then fields[0] else fields[0] + [sep] + Join(fields[1..], sep)
  }

  /** The text before the first separator is determined when neither side contains the separator. */
  lemma SplitAtSeparator(a: string, b: string, c: string, d: string, sep: char)
    requires sep !in a && sep !in c
    requires a + [sep] + b == c + [sep] + d
    ensures a == c && b == d
  {
    var s := a + [sep] + b;
    assert s[|a|] == sep && s[|c|] == sep;
    assert a == s[..|a|] && c == s[..|c|];
    assert b == s[|a| + 1..] && d == s[|c| + 1..];
  }

  /** Joining separator-free fields is injective: the fields can be read back. */
  lemma {:induction false} JoinInjective(xs: seq<string>, ys: seq<string>, sep: char)
    requires |xs| == |ys| > 0
    requires forall i :: 0 <= i < |xs| ==> sep !in xs[i] && sep !in ys[i]
    requires Join(xs, sep) == Join(ys, sep)
    ensures xs == ys
  {
    if |xs| > 1 {
      SplitAtSeparator(xs[0], Join(xs[1..], sep), ys[0], Join(ys[1..], sep), sep);
      JoinInjective(xs[1..], ys[1..], sep);
      assert xs == [xs[0]] + xs[1..] && ys == [ys[0]] + ys[1..];
    }
  }

  /** Two strings whose prefixes disagree at some position are different. */
  lemma PrefixesDiffer(p: string, q: string, x: string, y: string, k: nat)
    requires k < |p| && k < |q| && p[k] != q[k]
    ensures p + x != q + y
  {
    assert (p + x)[k] == p[k] && (q + y)[k] == q[k];
  }
}
