/** The few operations of Go's `strings` and `path` packages that the core uses,
    on strings seen as sequences of runes. */
module StrUtil {

  /** `strings.LastIndexByte(s, c)`: the last position of `c`, or -1. */
  function LastIndexOf(s: string, c: char): (r: int)
    ensures -1 <= r < |s|
    ensures r == -1 <==> c !in s
    ensures r >= 0 ==> s[r] == c && c !in s[r + 1..]
  {
    if |s| == 0 then -1
    else if s[|s| - 1] == c then |s| - 1
    else LastIndexOf(s[..|s| - 1], c)
  }

  /** The last position of `c` is the one after which `c` no longer occurs. */
  lemma LastIndexOfAt(s: string, c: char, i: nat)
    requires i < |s| && s[i] == c
    requires forall j :: i < j < |s| ==> s[j] != c
    ensures LastIndexOf(s, c) == i
  {
  }

  /** The same, with the tail after `i` given as a slice. */
  lemma LastIndexOfBefore(s: string, c: char, i: nat)
    requires i < |s| && s[i] == c && c !in s[i + 1..]
    ensures LastIndexOf(s, c) == i
  {
  }

  /** Replacing a rune that does not occur changes nothing. */
  lemma ReplaceCharAbsent(s: string, a: char, b: char)
    requires a !in s
    ensures ReplaceChar(s, a, b) == s
  {
  }

  /** `strings.Index(s, string(c))`: the first position of `c`, or -1. */
  function IndexOf(s: string, c: char): (r: int)
    ensures -1 <= r < |s|
    ensures r == -1 <==> c !in s
    ensures r >= 0 ==> s[r] == c && c !in s[..r]
  {
    if |s| == 0 then -1
    else if s[0] == c then 0
    else var k := IndexOf(s[1..], c); if k == -1 then -1 else k + 1
  }

  predicate HasPrefix(s: string, p: string) {
    |p| <= |s| && s[..|p|] == p
  }

  predicate HasSuffix(s: string, p: string) {
    |p| <= |s| && s[|s| - |p|..] == p
  }

  function TrimPrefix(s: string, p: string): string {
    if HasPrefix(s, p) then s[|p|..] else s
  }

  function TrimSuffix(s: string, p: string): string {
    if HasSuffix(s, p) then s[..|s| - |p|] else s
  }

  /** `strings.ReplaceAll(s, string(a), string(b))` for one-rune patterns. */
  function ReplaceChar(s: string, a: char, b: char): (r: string)
    ensures |r| == |s|
    ensures forall i :: 0 <= i < |s| ==> r[i] == (if s[i] == a then b else s[i])
  {
    if |s| == 0 then [] else ReplaceChar(s[..|s| - 1], a, b) + [if s[|s| - 1] == a then b else s[|s| - 1]]
  }

  /** `s[k..]` with every `a` turned into `b`, built from the front. */
  function ReplaceFrom(s: string, k: nat, a: char, b: char): string
    requires k <= |s|
    decreases |s| - k
  {
    if k == |s| then [] else [if s[k] == a then b else s[k]] + ReplaceFrom(s, k + 1, a, b)
  }

  /** Built from the front or from the back, the replacement is the same. */
  lemma {:induction false} ReplaceFromIsReplaceChar(s: string, k: nat, a: char, b: char)
    requires k <= |s|
    ensures ReplaceFrom(s, k, a, b) == ReplaceChar(s[k..], a, b)
    decreases |s| - k
  {
    if k < |s| {
      ReplaceFromIsReplaceChar(s, k + 1, a, b);
      var r := ReplaceChar(s[k..], a, b);
      var tail := ReplaceChar(s[k + 1..], a, b);
      assert r == [r[0]] + tail by {
        forall i | 0 <= i < |r| ensures r[i] == ([r[0]] + tail)[i] {
          if i > 0 {
            assert s[k..][i] == s[k + 1..][i - 1];
          }
        }
      }
    }
  }

  /** Turning the dots of a concrete string into dashes. */
  lemma DotsToDashes(t: string, dotted: string, dashed: string)
    requires t == dotted && |dotted| == |dashed|
    requires forall i :: 0 <= i < |dotted| ==> dashed[i] == (if dotted[i] == '.' then '-' else dotted[i])
    ensures ReplaceChar(t, '.', '-') == dashed
  {
  }

  /** `strings.Contains(s, sub)`. */
  predicate Contains(s: string, sub: string) {
    HasPrefix(s, sub) || (|s| > 0 && Contains(s[1..], sub))
  }

  /** `s` without its trailing '/' runes. */
  function TrimTrailingSlashes(s: string): (r: string)
    ensures |r| <= |s| && r == s[..|r|]
    ensures r == [] || r[|r| - 1] != '/'
    ensures forall i :: |r| <= i < |s| ==> s[i] == '/'
  {
    if |s| > 0 && s[|s| - 1] == '/' then TrimTrailingSlashes(s[..|s| - 1]) else s
  }

  /** `path.Base(p)`: the last element of a slash-separated path. */
  function PathBase(p: string): (r: string)
    ensures r != []
    ensures '/' in r ==> r == "/"
  {
    if p == [] then "."
    else
      var q := TrimTrailingSlashes(p);
      var i := LastIndexOf(q, '/');
      var last := q[i + 1..];
      if last == [] then "/" else last
  }

  /** The base of a path whose last element is `name` is `name`. */
  lemma PathBaseJoin(dir: string, name: string)
    requires name != [] && '/' !in name
    ensures PathBase(dir + "/" + name) == name
  {
    var p := dir + "/" + name;
    assert p[|p| - 1] == name[|name| - 1];
    assert TrimTrailingSlashes(p) == p;
    forall j | |dir| < j < |p|
      ensures p[j] != '/'
    {
      assert p[j] == name[j - |dir| - 1];
    }
    LastIndexOfAt(p, '/', |dir|);
    assert p[|dir| + 1..] == name;
  }

  /** Trimming a suffix that is there leaves what comes before it. */
  lemma TrimSuffixJoin(s: string, p: string)
    ensures TrimSuffix(s + p, p) == s
  {
    assert (s + p)[|s + p| - |p|..] == p;
    assert (s + p)[..|s|] == s;
  }
}
