/** Go strings are byte strings holding UTF-8; here a string is its sequence of runes, and
    the byte length Go's `len` reports is `Utf8Len`. */
module Utf8 {

  /** Bytes UTF-8 needs for one rune. */
  function RuneLen(c: char): (k: nat)
    ensures 1 <= k <= 4
  {
    if c as int < 0x80 then 1
    else if c as int < 0x800 then 2
    else if c as int < 0x1_0000 then 3
    else 4
  }

  /** `len(s)` in Go: the number of bytes of the UTF-8 encoding. */
  function Utf8Len(s: string): (n: nat)
    ensures |s| <= n <= 4 * |s|
  {
    if |s| == 0 then 0 else RuneLen(s[0]) + Utf8Len(s[1..])
  }

  lemma {:induction false} Utf8LenAppend(a: string, b: string)
    ensures Utf8Len(a + b) == Utf8Len(a) + Utf8Len(b)
  {
    if |a| > 0 {
      assert (a + b)[0] == a[0];
      assert (a + b)[1..] == a[1..] + b;
      Utf8LenAppend(a[1..], b);
      assert Utf8Len(a + b) == RuneLen(a[0]) + Utf8Len(a[1..] + b);
    } else {
      assert a + b == b;
    }
  }

  const RuneError: char := '\U{FFFD}'

  /** `[]rune(s[:m])`: the runes whose encoding lies within the first `m` bytes; the bytes of
      a rune cut in two decode as one `RuneError` each. */
  function DecodePrefix(s: string, m: nat): string {
    if |s| == 0 || m == 0 then []
    else if RuneLen(s[0]) <= m then [s[0]] + DecodePrefix(s[1..], m - RuneLen(s[0]))
    else seq(m, _ => RuneError)
  }

  /** `[]rune(s[len(s)-m:])`: the same for the last `m` bytes. */
  function DecodeSuffix(s: string, m: nat): string {
    if |s| == 0 || m == 0 then []
    else if RuneLen(s[|s| - 1]) <= m then DecodeSuffix(s[..|s| - 1], m - RuneLen(s[|s| - 1])) + [s[|s| - 1]]
    else seq(m, _ => RuneError)
  }

  /** The first `k` runes encode within `4k` bytes, so they come out of the decoding whole. */
  lemma {:induction false} DecodePrefixKeeps(s: string, m: nat, k: nat)
    requires 4 * k <= m || Utf8Len(s) <= m
    ensures var d := DecodePrefix(s, m);
            var j := if k < |s| then k else |s|;
            j <= |d| && d[..j] == s[..j]
    ensures Utf8Len(s) <= m ==> DecodePrefix(s, m) == s
  {
    if |s| > 0 && m > 0 && RuneLen(s[0]) <= m {
      var rest := DecodePrefix(s[1..], m - RuneLen(s[0]));
      if k > 0 {
        DecodePrefixKeeps(s[1..], m - RuneLen(s[0]), k - 1);
      } else {
        DecodePrefixKeeps(s[1..], m - RuneLen(s[0]), 0);
      }
      assert DecodePrefix(s, m) == [s[0]] + rest;
    }
  }

  lemma {:induction false} DecodeSuffixKeeps(s: string, m: nat, k: nat)
    requires 4 * k <= m || Utf8Len(s) <= m
    ensures var d := DecodeSuffix(s, m);
            var j := if k < |s| then k else |s|;
            j <= |d| && d[|d| - j..] == s[|s| - j..]
    ensures Utf8Len(s) <= m ==> DecodeSuffix(s, m) == s
  {
    if |s| == 0 || m == 0 {
      return;
    }
    var init := s[..|s| - 1];
    var last := s[|s| - 1];
    assert s == init + [last];
    Utf8LenAppend(init, [last]);
    assert Utf8Len([last]) == RuneLen(last);
    if RuneLen(last) > m {
      return;
    }
    var m' := m - RuneLen(last);
    var rest := DecodeSuffix(init, m');
    var d := DecodeSuffix(s, m);
    assert d == rest + [last];
    if k > 0 {
      DecodeSuffixKeeps(init, m', k - 1);
      var j' := if k - 1 < |init| then k - 1 else |init|;
      var j := if k < |s| then k else |s|;
      assert j == j' + 1;
      SuffixSnoc(rest, init, last, j');
    } else {
      DecodeSuffixKeeps(init, m', 0);
    }
  }

  /** Equal tails stay equal when the same rune is appended to both. */
  lemma SuffixSnoc(a: string, b: string, c: char, j: nat)
    requires j <= |a| && j <= |b| && a[|a| - j..] == b[|b| - j..]
    ensures (a + [c])[|a| - j..] == (b + [c])[|b| - j..]
  {
    assert (a + [c])[|a| - j..] == a[|a| - j..] + [c];
    assert (b + [c])[|b| - j..] == b[|b| - j..] + [c];
  }
}

/** String helpers shared by the step handlers. */
module StepSupport {
  import opened Wrappers
  import opened StrUtil
  import opened Utf8
  import opened Unstructured

  /** `Strval`: a string as is, the text of a byte slice, an error's text, a Stringer's
      `String()`, and `%v` for anything else. */
  function Strval(v: Any): (r: string)
    ensures v.AString? ==> r == v.s
    ensures v.ABytes? ==> r == v.text
    ensures v.AError? ==> r == v.e.msg
    ensures v.AStringer? ==> r == v.str
    ensures v.AOther? ==> r == v.formatted
  {
    match v
    case AString(s) => s
    case ABytes(text) => text
    case AError(e) => e.msg
    case AStringer(str) => str
    case AOther(formatted) => formatted
  }

  /** The file name of a chart URL without ".tgz". */
  function ChartFileName(url: string): (r: string)
    ensures '/' in r ==> r == "/"
  {
    TrimSuffix(PathBase(url), ".tgz")
  }

  /** `DeriveReleaseName` as written: the file name up to its last '-'. When the file name
      holds no '-' the slice bound is -1 and the call panics (None here). */
  function DeriveReleaseNameAsWritten(url: string): (r: Option<string>)
    ensures r.None? <==> '-' !in ChartFileName(url)
    ensures r.Some? ==> var f := ChartFileName(url);
                        |r.value| < |f| && r.value == f[..|r.value|] && f[|r.value|] == '-'
                        && '-' !in f[|r.value| + 1..]
  {
    var f := ChartFileName(url);
    var i := LastIndexOf(f, '-');
    if i < 0 then None else Some(f[..i])
  }

  /** The file name of an archive URL `dir/name.tgz` is `name`. */
  lemma ChartFileNameJoin(dir: string, name: string)
    requires '/' !in name
    ensures ChartFileName(dir + "/" + name + ".tgz") == name
  {
    assert '/' !in name + ".tgz";
    PathBaseJoin(dir, name + ".tgz");
    assert dir + "/" + (name + ".tgz") == dir + "/" + name + ".tgz";
    TrimSuffixJoin(name, ".tgz");
  }

  /** A chart archive URL whose file name holds no '-' (such as
      https://example.com/charts/mychart.tgz) makes the function as written panic. */
  lemma DeriveReleaseNamePanics(dir: string, name: string)
    requires '/' !in name && '-' !in name
    ensures DeriveReleaseNameAsWritten(dir + "/" + name + ".tgz").None?
  {
    ChartFileNameJoin(dir, name);
  }

  /** `DeriveReleaseName` as evidently intended: drop the version suffix after the last '-'
      when there is one, keep the whole file name otherwise. */
  function DeriveReleaseName(url: string): (r: string)
    ensures var f := ChartFileName(url);
            |r| <= |f| && r == f[..|r|]
    ensures DeriveReleaseNameAsWritten(url).Some? ==> r == DeriveReleaseNameAsWritten(url).value
    ensures DeriveReleaseNameAsWritten(url).None? ==> r == ChartFileName(url)
  {
    var f := ChartFileName(url);
    var i := LastIndexOf(f, '-');
    if i < 0 then f else f[..i]
  }

  /** In `chart-version` with no '-' in the version, the last '-' is the one before it. */
  lemma LastDashBeforeVersion(chart: string, version: string)
    requires '-' !in version
    ensures LastIndexOf(chart + "-" + version, '-') == |chart|
  {
    var f := chart + "-" + version;
    assert f[|chart| + 1..] == version;
    LastIndexOfBefore(f, '-', |chart|);
  }

  /** A versioned archive URL `dir/chart-version.tgz` gives the chart name, even when the
      chart name itself holds '-' (as in .../main/krateo-bff-0.18.1.tgz, the example named
      beside the Go function). */
  lemma DeriveReleaseNameVersioned(dir: string, chart: string, version: string)
    requires '/' !in chart && '/' !in version && '-' !in version
    ensures DeriveReleaseName(dir + "/" + (chart + "-" + version) + ".tgz") == chart
  {
    var f := chart + "-" + version;
    assert '/' !in f by {
      forall j | 0 <= j < |f| ensures f[j] != '/' {
        if j > |chart| { assert f[j] == version[j - |chart| - 1]; }
      }
    }
    ChartFileNameJoin(dir, f);
    LastDashBeforeVersion(chart, version);
    assert f[..|chart|] == chart;
  }

  /** Where `DeriveRepoName` starts: after the second-to-last '.' when the last '.' comes
      after the last '/', after the last '/' otherwise. */
  function RepoNameStart(url: string): (k: nat)
    ensures k <= |url|
  {
    var dot := LastIndexOf(url, '.');
    var slash := LastIndexOf(url, '/');
    if dot > slash then LastIndexOf(url[..dot], '.') + 1 else slash + 1
  }

  /** `DeriveRepoName`: the last two dot-separated labels of a host-like tail, dots turned into '-'. */
  function DeriveRepoName(url: string): (r: string)
    ensures '.' !in r
    ensures |r| <= |url| && r == ReplaceChar(url[|url| - |r|..], '.', '-')
  {
    var r := ReplaceChar(url[RepoNameStart(url)..], '.', '-');
    assert forall i | 0 <= i < |r| :: r[i] != '.';
    r
  }

  /** For a host-like tail (a '.' after the last '/'), the name is what follows the
      second-to-last '.', dots turned into '-'. */
  lemma DeriveRepoNameHost(url: string, slash: nat, prev: nat, dot: nat)
    requires slash < prev < dot < |url|
    requires url[slash] == '/' && url[prev] == '.' && url[dot] == '.'
    requires forall j :: slash < j < |url| ==> url[j] != '/'
    requires forall j :: prev < j < |url| && j != dot ==> url[j] != '.'
    ensures DeriveRepoName(url) == ReplaceChar(url[prev + 1..], '.', '-')
  {
    LastIndexOfAt(url, '.', dot);
    LastIndexOfAt(url, '/', slash);
    LastIndexOfAt(url[..dot], '.', prev);
    assert RepoNameStart(url) == prev + 1;
  }

  /** `Ellipsis`: "..." for n <= 3, `s` when it fits in n bytes, otherwise its first n-3 runes
      and "...". */
  function Ellipsis(s: string, n: int): (r: string)
    ensures n <= 3 ==> r == "..."
    ensures n > 3 && Utf8Len(s) <= n ==> r == s
    ensures n > 3 && Utf8Len(s) > n ==>
              var k := if n - 3 < |s| then n - 3 else |s|;
              r == s[..k] + "..."
    ensures n >= 3 ==> |r| <= n
  {
    if n <= 3 then "..."
    else if Utf8Len(s) <= n then s
    else
      CutStringSound(s, n - 3, true);
      CutString(s, n - 3, true) + "..."
  }

  /** `cutString`: at most n runes of `s`, from the front or from the back. */
  function CutString(s: string, n: int, leftToRight: bool): string {
    if n <= 0 then ""
    else if n >= Utf8Len(s) then s
    else
      var maxLen := if 4 * n >= Utf8Len(s) then Utf8Len(s) else 4 * n;
      if leftToRight then
        var runes := DecodePrefix(s, maxLen);
        if |runes| > n then runes[..n] else runes
      else
        var runes := DecodeSuffix(s, maxLen);
        if |runes| > n then runes[|runes| - n..] else runes
  }

  /** What `cutString` returns: the first (or last) min(n, runes) runes; the runes a byte cut
      splits never reach the result. */
  lemma CutStringSound(s: string, n: int, leftToRight: bool)
    ensures n <= 0 ==> CutString(s, n, leftToRight) == ""
    ensures n > 0 ==>
              var k := if n < |s| then n else |s|;
              CutString(s, n, leftToRight) == (if leftToRight then s[..k] else s[|s| - k..])
  {
    if n > 0 && n < Utf8Len(s) {
      var maxLen := if 4 * n >= Utf8Len(s) then Utf8Len(s) else 4 * n;
      var k := if n < |s| then n else |s|;
      if leftToRight {
        DecodePrefixKeeps(s, maxLen, n);
        var d := DecodePrefix(s, maxLen);
        if maxLen == Utf8Len(s) {
          assert d == s;
        } else {
          assert d[..k] == s[..k];
          if |d| <= n {
            assert k == |d| || k == n;
          }
        }
      } else {
        DecodeSuffixKeeps(s, maxLen, n);
        var d := DecodeSuffix(s, maxLen);
        if maxLen == Utf8Len(s) {
          assert d == s;
        } else {
          assert d[|d| - k..] == s[|s| - k..];
        }
      }
    }
  }
}

/** Helpers of the legacy release installer. */
module ReleaseSupport {
  import opened StrUtil

  /** Where the repository name starts in `url[..n]`, scanning it from the end; `seen` counts
      the dots already passed (0 or 1). */
  function NameStart(url: string, n: nat, seen: nat): (k: nat)
    requires n <= |url|
    ensures k <= n
  {
    if n == 0 then 0
    else if url[n - 1] == '.' then
      if seen == 1 then n else if n == 1 then 1 else NameStart(url, n - 1, 1)
    else NameStart(url, n - 1, seen)
  }

  /** `deriveRepoName`: the text after the second-to-last '.', dots turned into '-'. */
  function DeriveRepoName(url: string): string {
    ReplaceFrom(url, NameStart(url, |url|, 0), '.', '-')
  }

  /** Where Go's `deriveRepoName` starts the name: after the last '.' before the last '.'
      (or after the last '.' alone when that one is at position 0). */
  function GoNameStart(t: string): int {
    var i := LastIndexOf(t, '.');
    (if i > 0 then LastIndexOf(t[..i], '.') else i) + 1
  }

  /** With one dot already passed, the name starts after the last dot of `url[..n]`. */
  lemma {:induction false} NameStartAfterDot(url: string, n: nat)
    requires n <= |url|
    ensures NameStart(url, n, 1) == LastIndexOf(url[..n], '.') + 1
  {
    if n > 0 && url[n - 1] != '.' {
      NameStartAfterDot(url, n - 1);
      assert url[..n][..n - 1] == url[..n - 1];
    }
  }

  /** The scan finds what the two `LastIndexByte` calls find. */
  lemma {:induction false} NameStartByLastIndex(url: string, n: nat)
    requires n <= |url|
    ensures NameStart(url, n, 0) == GoNameStart(url[..n])
  {
    if n > 0 {
      var t := url[..n];
      var u := url[..n - 1];
      assert t[..n - 1] == u;
      assert LastIndexOf(t, '.') == if url[n - 1] == '.' then n - 1 else LastIndexOf(u, '.');
      if url[n - 1] == '.' {
        if n > 1 {
          NameStartAfterDot(url, n - 1);
        }
      } else {
        NameStartByLastIndex(url, n - 1);
        var i := LastIndexOf(u, '.');
        if i > 0 {
          assert t[..i] == u[..i];
        }
      }
    }
  }

  /** `deriveRepoName` as Go writes it: the last '.', then the last '.' before it (unless the
      first was at position 0), and everything after that, dots turned into '-'. */
  lemma DeriveRepoNameByLastIndex(url: string)
    ensures DeriveRepoName(url) == ReplaceChar(url[GoNameStart(url)..], '.', '-')
  {
    NameStartByLastIndex(url, |url|);
    assert url[..|url|] == url;
    ReplaceFromIsReplaceChar(url, NameStart(url, |url|, 0), '.', '-');
  }

  /** The name never holds a '.', it is a dot-replaced suffix of the URL, and a URL without dots
      is its own name. */
  lemma DeriveRepoNameShape(url: string)
    ensures var r := DeriveRepoName(url);
            '.' !in r && |r| <= |url| && r == ReplaceChar(url[|url| - |r|..], '.', '-')
            && ('.' !in url ==> r == url)
  {
    DeriveRepoNameByLastIndex(url);
    var k := GoNameStart(url);
    var r := ReplaceChar(url[k..], '.', '-');
    assert '.' !in r by {
      forall j | 0 <= j < |r| ensures r[j] != '.' {
      }
    }
    if '.' !in url {
      assert k == 0;
      assert url[k..] == url;
      ReplaceCharAbsent(url, '.', '-');
    }
  }

  /** With at least two dots, the name is what follows the second-to-last '.'. */
  lemma DeriveRepoNameTail(url: string, prev: nat, dot: nat)
    requires prev < dot < |url| && url[prev] == '.' && url[dot] == '.'
    requires forall j :: prev < j < |url| && j != dot ==> url[j] != '.'
    ensures DeriveRepoName(url) == ReplaceChar(url[prev + 1..], '.', '-')
  {
    DeriveRepoNameByLastIndex(url);
    LastIndexOfAt(url, '.', dot);
    var t := url[..dot];
    forall j | prev < j < |t| ensures t[j] != '.' {
      assert t[j] == url[j];
    }
    LastIndexOfAt(t, '.', prev);
    assert GoNameStart(url) == prev + 1;
  }

  lemma DeriveRepoNameLoft(url: string)
    requires url == "https://charts.loft.sh"
    ensures DeriveRepoName(url) == "loft-sh"
  {
    DeriveRepoNameTail(url, 14, 19);
    DotsToDashes(url[15..], "loft.sh", "loft-sh");
  }

  /** A doubled scheme does not matter: only the last two labels are kept. */
  lemma DeriveRepoNameKrateo(url: string)
    requires url == "https://https://charts.krateo.io"
    ensures DeriveRepoName(url) == "krateo-io"
  {
    DeriveRepoNameTail(url, 22, 29);
    DotsToDashes(url[23..], "krateo.io", "krateo-io");
  }

  predicate IsKrateoGateway(n: string) {
    HasPrefix(n, "gateway-") || HasSuffix(n, "-gateway")
  }

  predicate IsVcluster(n: string) {
    HasPrefix(n, "vcluster-") || HasSuffix(n, "-vcluster")
  }

  /** A name is a gateway name exactly when it starts with "gateway-" or ends with "-gateway". */
  lemma GatewayNames(n: string)
    ensures IsKrateoGateway("gateway-" + n) && IsKrateoGateway(n + "-gateway")
    ensures IsKrateoGateway(n) ==> exists m :: n == "gateway-" + m || n == m + "-gateway"
  {
    assert ("gateway-" + n)[..8] == "gateway-";
    assert (n + "-gateway")[|n|..] == "-gateway";
    if HasPrefix(n, "gateway-") {
      assert n == "gateway-" + n[8..];
    } else if IsKrateoGateway(n) {
      assert n == n[..|n| - 8] + "-gateway";
    }
  }

  lemma VclusterNames(n: string)
    ensures IsVcluster("vcluster-" + n) && IsVcluster(n + "-vcluster")
    ensures IsVcluster(n) ==> exists m :: n == "vcluster-" + m || n == m + "-vcluster"
  {
    assert ("vcluster-" + n)[..9] == "vcluster-";
    assert (n + "-vcluster")[|n|..] == "-vcluster";
    if HasPrefix(n, "vcluster-") {
      assert n == "vcluster-" + n[9..];
    } else if IsVcluster(n) {
      assert n == n[..|n| - 9] + "-vcluster";
    }
  }
}
