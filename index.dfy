/** The chart repository index loader: `Load` reads an index.yaml document, gives every chart
    version that lacks one the API version "v1", orders each entry list and insists on a
    top-level API version. The YAML decoder and the version ordering are parameters. */
module RepoIndex {
  import opened Wrappers

  /** One chart version of an index entry, with the fields the core reads. */
  datatype ChartVersion = ChartVersion(name: string, version: string, apiVersion: string, urls: seq<string>)

  /** The versions listed under one chart name; `None` is the nil pointer an empty YAML item
      decodes to. */
  type Versions = seq<Option<ChartVersion>>

  /** The contents of an index file. */
  datatype Index = Index(apiVersion: string, entries: map<string, Versions>)

  /** What `Load` returns: the index as it stands and the error, if any. */
  datatype Loaded = Loaded(index: Index, err: Option<Error>)

  /** Helm's `APIVersionV1`, `ErrEmptyIndexYaml` and `ErrNoAPIVersion`. */
  const APIVersionV1: string := "v1"
  const ErrEmptyIndexYaml: Error := Errorf("empty index.yaml file")
  const ErrNoAPIVersion: Error := Errorf("no API version specified")

  /** The version ordering `SortEntries` applies to each list: it only rearranges a list. */
  ghost predicate Permutes(sort: Versions -> Versions) {
    forall s :: multiset(sort(s)) == multiset(s)
  }

  /** One chart version after defaulting: a nil entry stays nil, an empty API version becomes
      "v1", and nothing else changes. */
  function DefaultVersion(cv: Option<ChartVersion>): (r: Option<ChartVersion>)
    ensures r.Some? <==> cv.Some?
    ensures r.Some? ==> r.value.apiVersion != "" && r.value.(apiVersion := "") == cv.value.(apiVersion := "")
    ensures cv.Some? && cv.value.apiVersion != "" ==> r == cv
  {
    if cv.Some? && cv.value.apiVersion == "" then Some(cv.value.(apiVersion := APIVersionV1)) else cv
  }

  function DefaultAll(cvs: Versions): (r: Versions)
    ensures |r| == |cvs|
  {
    seq(|cvs|, k requires 0 <= k < |cvs| => DefaultVersion(cvs[k]))
  }

  /** The entries after the defaulting loop. */
  function Defaulted(entries: map<string, Versions>): map<string, Versions> {
    map name | name in entries :: DefaultAll(entries[name])
  }

  /** The entries after `SortEntries`. */
  function Sorted(entries: map<string, Versions>, sort: Versions -> Versions): map<string, Versions> {
    map name | name in entries :: sort(entries[name])
  }

  /** `Load` as a function of the document bytes, the decoder and the ordering. */
  function LoadSpec(data: Bytes, parse: Bytes -> Result<Index>, sort: Versions -> Versions): (l: Loaded)
    ensures l.err.None? <==> |data| > 0 && parse(data).Ok? && parse(data).value.apiVersion != ""
    ensures |data| == 0 ==> l == Loaded(Index("", map[]), Some(ErrEmptyIndexYaml))
    ensures |data| > 0 && parse(data).Fail? ==> l.err == Some(parse(data).error)
    ensures |data| > 0 && parse(data).Ok? ==>
              l.index.apiVersion == parse(data).value.apiVersion
              && l.index.entries == Sorted(Defaulted(parse(data).value.entries), sort)
              && (l.err.Some? ==> l.err == Some(ErrNoAPIVersion))
  {
    if |data| == 0 then Loaded(Index("", map[]), Some(ErrEmptyIndexYaml))
    else
      match parse(data)
      case Fail(e) => Loaded(Index("", map[]), Some(e))
      case Ok(doc) =>
        var index := Index(doc.apiVersion, Sorted(Defaulted(doc.entries), sort));
        if index.apiVersion == "" then Loaded(index, Some(ErrNoAPIVersion)) else Loaded(index, None)
  }

  /** An empty document is refused before the decoder is consulted: the outcome depends on
      neither the decoder nor the ordering. */
  lemma EmptyIndexNotParsed(data: Bytes, p: Bytes -> Result<Index>, q: Bytes -> Result<Index>,
                            s: Versions -> Versions, t: Versions -> Versions)
    requires |data| == 0
    ensures LoadSpec(data, p, s) == LoadSpec(data, q, t)
  {
  }

  /** Defaulting twice is defaulting once. */
  lemma DefaultedIdempotent(entries: map<string, Versions>)
    ensures Defaulted(Defaulted(entries)) == Defaulted(entries)
  {
    var once := Defaulted(entries);
    forall name | name in entries
      ensures DefaultAll(once[name]) == once[name]
    {
      assert |DefaultAll(once[name])| == |once[name]|;
      forall k | 0 <= k < |once[name]|
        ensures DefaultAll(once[name])[k] == once[name][k]
      {
      }
    }
  }

  /** After a load that got past the decoder, every chart version that is not nil carries an
      API version, and each list holds the defaulted versions of the document, reordered. */
  lemma LoadedVersionsComplete(data: Bytes, parse: Bytes -> Result<Index>, sort: Versions -> Versions)
    requires Permutes(sort)
    requires |data| > 0 && parse(data).Ok?
    ensures LoadSpec(data, parse, sort).index.entries.Keys == parse(data).value.entries.Keys
    ensures forall name | name in LoadSpec(data, parse, sort).index.entries ::
              multiset(LoadSpec(data, parse, sort).index.entries[name])
              == multiset(DefaultAll(parse(data).value.entries[name]))
    ensures forall name, cv: ChartVersion | name in LoadSpec(data, parse, sort).index.entries
                               && Some(cv) in LoadSpec(data, parse, sort).index.entries[name] ::
              cv.apiVersion != ""
  {
    var doc := parse(data).value;
    var entries := LoadSpec(data, parse, sort).index.entries;
    forall name | name in entries
      ensures multiset(entries[name]) == multiset(DefaultAll(doc.entries[name]))
    {
      assert entries[name] == sort(DefaultAll(doc.entries[name]));
    }
    forall name, cv: ChartVersion | name in entries && Some(cv) in entries[name]
      ensures cv.apiVersion != ""
    {
      var all := DefaultAll(doc.entries[name]);
      assert Some(cv) in multiset(entries[name]);
      assert Some(cv) in all;
      var k :| 0 <= k < |all| && all[k] == Some(cv);
      assert DefaultVersion(doc.entries[name][k]) == Some(cv);
    }
  }

  /** Helm's `IndexFile`, which `Load` fills in place. */
  class IndexFile {
    var apiVersion: string
    var entries: map<string, Versions>

    constructor ()
      ensures apiVersion == "" && entries == map[]
    {
      apiVersion := "";
      entries := map[];
    }

    function Value(): Index
      reads this
    {
      Index(apiVersion, entries)
    }

    /** `SortEntries`: every list is put in the ordering's order. */
    method SortEntries(sort: Versions -> Versions)
      modifies this`entries
      ensures entries == Sorted(old(entries), sort)
    {
      entries := map name | name in entries :: sort(entries[name]);
    }
  }

  /** `Load`: the document is decoded into a new index file; then each chart version list is
      walked from the back, nil entries are skipped and empty API versions become "v1"; then the
      lists are ordered and the top-level API version is checked. The source name only labels
      log lines. */
  method Load(data: Bytes, source: string, parse: Bytes -> Result<Index>, sort: Versions -> Versions)
    returns (i: IndexFile, err: Option<Error>)
    ensures fresh(i)
    ensures Loaded(i.Value(), err) == LoadSpec(data, parse, sort)
  {
    i := new IndexFile();
    if |data| == 0 {
      return i, Some(ErrEmptyIndexYaml);
    }
    var doc := parse(data);
    if doc.Fail? {
      return i, Some(doc.error);
    }
    i.apiVersion := doc.value.apiVersion;
    i.entries := doc.value.entries;
    ghost var start := i.entries;
    var names := i.entries.Keys;
    while names != {}
      invariant names <= start.Keys && i.entries.Keys == start.Keys
      invariant forall name | name in start ::
                  i.entries[name] == if name in names then start[name] else DefaultAll(start[name])
      invariant i.apiVersion == doc.value.apiVersion
      decreases names
    {
      var name :| name in names;
      var cvs := i.entries[name];
      var idx := |cvs| - 1;
      while idx >= 0
        invariant -1 <= idx < |cvs| && |cvs| == |start[name]|
        invariant forall k | 0 <= k < |cvs| ::
                    cvs[k] == if k <= idx then start[name][k] else DefaultVersion(start[name][k])
      {
        if cvs[idx].None? {
          idx := idx - 1;
          continue;
        }
        if cvs[idx].value.apiVersion == "" {
          cvs := cvs[idx := Some(cvs[idx].value.(apiVersion := APIVersionV1))];
        }
        idx := idx - 1;
      }
      assert cvs == DefaultAll(start[name]);
      i.entries := i.entries[name := cvs];
      names := names - {name};
    }
    assert i.entries == Defaulted(start);
    i.SortEntries(sort);
    if i.apiVersion == "" {
      return i, Some(ErrNoAPIVersion);
    }
    return i, None;
  }
}
