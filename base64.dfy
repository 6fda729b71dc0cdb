/** The base 64 encoding of section 4 of RFC 4648 (standard alphabet, '=' padding), as Go's
    `base64.StdEncoding` decodes it: carriage returns and line feeds are ignored, padding
    is required, and unused bits of the last group need not be zero. */
module Base64 {
  import opened Wrappers

  predicate IsAlphabet(c: char) {
    'A' <= c <= 'Z' || 'a' <= c <= 'z' || '0' <= c <= '9' || c == '+' || c == '/'
  }

  /** The character for a 6-bit value (Table 1 of RFC 4648). */
  function Char(v: nat): (c: char)
    requires v < 64
    ensures IsAlphabet(c)
  {
    if v < 26 then ('A' as int + v) as char
    else if v < 52 then ('a' as int + v - 26) as char
    else if v < 62 then ('0' as int + v - 52) as char
    else if v == 62 then '+'
    else '/'
  }

  function Value(c: char): (v: nat)
    requires IsAlphabet(c)
    ensures v < 64
  {
    if 'A' <= c <= 'Z' then c as int - 'A' as int
    else if 'a' <= c <= 'z' then c as int - 'a' as int + 26
    else if '0' <= c <= '9' then c as int - '0' as int + 52
    else if c == '+' then 62
    else 63
  }

  lemma ValueChar(v: nat)
    requires v < 64
    ensures Value(Char(v)) == v
  {
  }

  /** The four characters of a whole 3-byte group. */
  function Group3(n0: nat, n1: nat, n2: nat): string
    requires n0 < 256 && n1 < 256 && n2 < 256
  {
    [Char(n0 / 4), Char((n0 % 4) * 16 + n1 / 16), Char((n1 % 16) * 4 + n2 / 64), Char(n2 % 64)]
  }

  /** A final group of two bytes, padded with one '='. */
  function Group2(n0: nat, n1: nat): string
    requires n0 < 256 && n1 < 256
  {
    [Char(n0 / 4), Char((n0 % 4) * 16 + n1 / 16), Char((n1 % 16) * 4), '=']
  }

  /** A final group of one byte, padded with "==". */
  function Group1(n0: nat): string
    requires n0 < 256
  {
    [Char(n0 / 4), Char((n0 % 4) * 16), '=', '=']
  }

  /** Encoding: each 3-byte group becomes 4 characters, a final 1- or 2-byte group is
      padded with "==" or "=". */
  function Encode(b: Bytes): (s: string)
    ensures |s| % 4 == 0
  {
    if |b| == 0 then ""
    else if |b| == 1 then Group1(b[0] as nat)
    else if |b| == 2 then Group2(b[0] as nat, b[1] as nat)
    else
      var g, rest := Group3(b[0] as nat, b[1] as nat, b[2] as nat), Encode(b[3..]);
      assert |g + rest| == |rest| + 4;
      g + rest
  }

  /** One 4-character group; `last` says whether padding may appear in it. */
  function DecodeGroup(g: string, last: bool): Option<Bytes>
    requires |g| == 4
  {
    if IsAlphabet(g[0]) && IsAlphabet(g[1]) && IsAlphabet(g[2]) && IsAlphabet(g[3]) then
      var v0, v1, v2, v3 := Value(g[0]), Value(g[1]), Value(g[2]), Value(g[3]);
      Some([(v0 * 4 + v1 / 16) as byte, ((v1 % 16) * 16 + v2 / 4) as byte, ((v2 % 4) * 64 + v3) as byte])
    else if last && IsAlphabet(g[0]) && IsAlphabet(g[1]) && IsAlphabet(g[2]) && g[3] == '=' then
      var v0, v1, v2 := Value(g[0]), Value(g[1]), Value(g[2]);
      Some([(v0 * 4 + v1 / 16) as byte, ((v1 % 16) * 16 + v2 / 4) as byte])
    else if last && IsAlphabet(g[0]) && IsAlphabet(g[1]) && g[2] == '=' && g[3] == '=' then
      var v0, v1 := Value(g[0]), Value(g[1]);
      Some([(v0 * 4 + v1 / 16) as byte])
    else None
  }

  /** Decoding of a text without line breaks: whole groups of four only. */
  function DecodeGroups(s: string): Option<Bytes>
    decreases |s|
  {
    if |s| == 0 then Some([])
    else if |s| < 4 then None
    else
      match DecodeGroup(s[..4], |s| == 4)
      case None => None
      case Some(head) =>
        match DecodeGroups(s[4..])
        case None => None
        case Some(tail) => Some(head + tail)
  }

  function StripNewlines(s: string): (r: string)
    ensures forall i :: 0 <= i < |r| ==> r[i] != '\r' && r[i] != '\n'
  {
    if |s| == 0 then ""
    else if s[0] == '\r' || s[0] == '\n' then StripNewlines(s[1..])
    else [s[0]] + StripNewlines(s[1..])
  }

  /** `base64.StdEncoding.DecodeString`; the offset Go reports in its error is not kept. */
  function Decode(s: string): Result<Bytes> {
    match DecodeGroups(StripNewlines(s))
    case None => Fail(Errorf("illegal base64 data"))
    case Some(b) => Ok(b)
  }

  lemma {:induction false} DecodeGroupsLength(s: string)
    requires |s| % 4 != 0
    ensures DecodeGroups(s).None?
  {
    if |s| >= 4 {
      DecodeGroupsLength(s[4..]);
    }
  }

  /** Once line breaks are dropped, a text that is not whole groups of four is refused. */
  lemma DecodeLength(s: string)
    requires |StripNewlines(s)| % 4 != 0
    ensures Decode(s).Fail?
  {
    DecodeGroupsLength(StripNewlines(s));
  }

  /** The three bytes a whole group encodes come back out of it. */
  lemma DecodeGroup3(n0: nat, n1: nat, n2: nat, last: bool)
    requires n0 < 256 && n1 < 256 && n2 < 256
    ensures DecodeGroup(Group3(n0, n1, n2), last) == Some([n0 as byte, n1 as byte, n2 as byte])
  {
    var c0, c1, c2, c3 := n0 / 4, (n0 % 4) * 16 + n1 / 16, (n1 % 16) * 4 + n2 / 64, n2 % 64;
    ValueChar(c0);
    ValueChar(c1);
    ValueChar(c2);
    ValueChar(c3);
    assert c0 * 4 + c1 / 16 == n0;
    assert (c1 % 16) * 16 + c2 / 4 == n1;
    assert (c2 % 4) * 64 + c3 == n2;
  }

  lemma DecodeGroup2(n0: nat, n1: nat)
    requires n0 < 256 && n1 < 256
    ensures DecodeGroup(Group2(n0, n1), true) == Some([n0 as byte, n1 as byte])
  {
    var c0, c1, c2 := n0 / 4, (n0 % 4) * 16 + n1 / 16, (n1 % 16) * 4;
    ValueChar(c0);
    ValueChar(c1);
    ValueChar(c2);
    assert c0 * 4 + c1 / 16 == n0;
    assert (c1 % 16) * 16 + c2 / 4 == n1;
  }

  lemma DecodeGroup1(n0: nat)
    requires n0 < 256
    ensures DecodeGroup(Group1(n0), true) == Some([n0 as byte])
  {
    var c0, c1 := n0 / 4, (n0 % 4) * 16;
    ValueChar(c0);
    ValueChar(c1);
    assert c0 * 4 + c1 / 16 == n0;
  }

  lemma DecodeGroupsStep(g: string, rest: string, head: Bytes, tail: Bytes)
    requires |g| == 4 && DecodeGroup(g, |rest| == 0) == Some(head) && DecodeGroups(rest) == Some(tail)
    ensures DecodeGroups(g + rest) == Some(head + tail)
  {
    var s := g + rest;
    assert s[..4] == g && s[4..] == rest;
  }

  lemma DecodeGroupsOne(b: Bytes)
    requires |b| == 1
    ensures DecodeGroups(Encode(b)) == Some(b)
  {
    var g := Group1(b[0] as nat);
    DecodeGroup1(b[0] as nat);
    assert [(b[0] as nat) as byte] == b;
    assert Encode(b) == g + "";
    assert DecodeGroups("") == Some([]);
    DecodeGroupsStep(g, "", b, []);
    assert b + [] == b;
  }

  lemma DecodeGroupsTwo(b: Bytes)
    requires |b| == 2
    ensures DecodeGroups(Encode(b)) == Some(b)
  {
    var g := Group2(b[0] as nat, b[1] as nat);
    DecodeGroup2(b[0] as nat, b[1] as nat);
    assert [(b[0] as nat) as byte, (b[1] as nat) as byte] == b;
    assert Encode(b) == g + "";
    assert DecodeGroups("") == Some([]);
    DecodeGroupsStep(g, "", b, []);
    assert b + [] == b;
  }

  lemma DecodeGroupsFront(b: Bytes)
    requires |b| >= 3 && DecodeGroups(Encode(b[3..])) == Some(b[3..])
    ensures DecodeGroups(Encode(b)) == Some(b)
  {
    var x, y, z, rest := b[0], b[1], b[2], b[3..];
    var g := Group3(x as nat, y as nat, z as nat);
    assert Encode(b) == g + Encode(rest);
    DecodeGroup3(x as nat, y as nat, z as nat, |Encode(rest)| == 0);
    assert (x as nat) as byte == x && (y as nat) as byte == y && (z as nat) as byte == z;
    DecodeGroupsStep(g, Encode(rest), [x, y, z], rest);
    SplitThree(b);
  }

  lemma SplitThree(b: Bytes)
    requires |b| >= 3
    ensures [b[0], b[1], b[2]] + b[3..] == b
  {
  }

  /** Decoding an encoding gives the bytes back. */
  lemma {:induction false} DecodeGroupsEncode(b: Bytes)
    ensures DecodeGroups(Encode(b)) == Some(b)
  {
    if |b| == 1 {
      DecodeGroupsOne(b);
    } else if |b| == 2 {
      DecodeGroupsTwo(b);
    } else if |b| >= 3 {
      DecodeGroupsEncode(b[3..]);
      DecodeGroupsFront(b);
    }
  }

  lemma {:induction false} StripNewlinesEncode(b: Bytes)
    ensures StripNewlines(Encode(b)) == Encode(b)
  {
    var s := Encode(b);
    assert forall i :: 0 <= i < |s| ==> s[i] != '\r' && s[i] != '\n' by {
      EncodeAlphabet(b);
    }
    NoNewlinesStrip(s);
  }

  lemma {:induction false} EncodeAlphabet(b: Bytes)
    ensures forall i :: 0 <= i < |Encode(b)| ==> IsAlphabet(Encode(b)[i]) || Encode(b)[i] == '='
  {
    if |b| >= 3 {
      EncodeAlphabet(b[3..]);
    }
  }

  lemma {:induction false} NoNewlinesStrip(s: string)
    requires forall i :: 0 <= i < |s| ==> s[i] != '\r' && s[i] != '\n'
    ensures StripNewlines(s) == s
  {
    if |s| > 0 {
      NoNewlinesStrip(s[1..]);
    }
  }

  /** The round trip of section 4 of RFC 4648: decoding the encoding of any bytes gives them back. */
  lemma DecodeEncode(b: Bytes)
    ensures Decode(Encode(b)) == Ok(b)
  {
    StripNewlinesEncode(b);
    DecodeGroupsEncode(b);
  }
}

/** Resolving a secret key reference to the decoded secret value. */
module SecretResolver {
  import opened Wrappers
  import opened Types
  import opened Unstructured
  import Base64

  /** Core v1 `Secret` objects. */
  function SecretTarget(sel: SecretKeySelector): Target {
    Target(GroupVersionKind("", "v1", "Secret"), sel.namespace, sel.name)
  }

  /** `unstructured.NestedMap(obj, "data")`: absent (None), not a map (error), or the map. */
  function NestedData(obj: Object): Result<Option<map<string, Value>>> {
    if "data" !in obj then Ok(None)
    else match obj["data"]
      case Map(m) => Ok(Some(m))
      case _ => Fail(Errorf(".data accessor error: value is not a map"))
  }

  /** `GetSecret`: Get the secret, take `data[key]`, which must be a string, and base64-decode it.
      The value is returned as the bytes Go returns inside a string. */
  function GetSecret(get: Target -> Result<Object>, sel: SecretKeySelector): (r: Result<Bytes>)
    ensures get(SecretTarget(sel)).Fail? ==> r == Fail(get(SecretTarget(sel)).error)
    ensures get(SecretTarget(sel)).Ok? && "data" !in get(SecretTarget(sel)).value ==>
              r == Fail(Errorf("data field not found in secret " + sel.namespace + "/" + sel.name))
  {
    match get(SecretTarget(sel))
    case Fail(e) => Fail(e)
    case Ok(obj) =>
      match NestedData(obj)
      case Fail(e) => Fail(e)
      case Ok(None) => Fail(Errorf("data field not found in secret " + sel.namespace + "/" + sel.name))
      case Ok(Some(data)) =>
        if sel.key !in data || !data[sel.key].Str? then Fail(Errorf("key " + sel.key + " is not a string"))
        else
          match Base64.Decode(data[sel.key].s)
          case Fail(e) => Fail(Wrap("failed to decode base64 string: ", e))
          case Ok(b) => Ok(b)
  }

  /** A key that is missing or holds no string is an error; a stored encoding of some bytes
      resolves to exactly those bytes. */
  lemma GetSecretData(get: Target -> Result<Object>, sel: SecretKeySelector, data: map<string, Value>)
    requires get(SecretTarget(sel)).Ok?
    requires "data" in get(SecretTarget(sel)).value && get(SecretTarget(sel)).value["data"] == Map(data)
    ensures sel.key !in data || !data[sel.key].Str? ==>
              GetSecret(get, sel) == Fail(Errorf("key " + sel.key + " is not a string"))
    ensures forall b :: sel.key in data && data[sel.key] == Str(Base64.Encode(b)) ==> GetSecret(get, sel) == Ok(b)
  {
    forall b | sel.key in data && data[sel.key] == Str(Base64.Encode(b))
      ensures GetSecret(get, sel) == Ok(b)
    {
      Base64.DecodeEncode(b);
    }
  }
}
