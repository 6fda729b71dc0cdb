/** The Helm client as the chart step handlers see it; the client itself is not part of this model. */
module Helm {
  import opened Wrappers
  import opened Types

  /** `values.Options`: `--set-string` lines and `--set` lines. */
  datatype ValuesOptions = ValuesOptions(stringValues: seq<string>, values: seq<string>)

  /** `helmclient.ChartSpec`, with the fields the handlers set; a field a handler leaves alone
      keeps Go's zero value. The password is the byte string Go keeps in a `string`. */
  datatype ChartSpec = ChartSpec(
    releaseName: string, chartName: string, namespace: string, version: string,
    createNamespace: bool, upgradeCRDs: bool, maxHistory: int, wait: bool,
    valuesOptions: ValuesOptions, timeout: Duration, repository: string,
    insecureSkipTLSverify: bool, username: string, password: Bytes)

  /** The parts of a Helm `release.Release` the installer reads. */
  datatype Release = Release(
    name: string, namespace: string, revision: int, status: string,
    chartName: string, chartVersion: string, appVersion: string, lastDeployed: int)

  /** `repo.Entry`. */
  datatype RepoEntry = RepoEntry(name: string, url: string)

  /** `InstallOrUpgradeChart` (the release, which may be nil, or an error), `UninstallRelease`
      and `AddOrUpdateChartRepo`. */
  datatype Client = Client(
    install: ChartSpec -> Result<Option<Release>>,
    uninstall: ChartSpec -> Option<Error>,
    addRepo: RepoEntry -> Option<Error>)

  /** A request made of the Helm client, in the order the handler makes them. */
  datatype HelmCall = InstallCall(spec: ChartSpec) | UninstallCall(spec: ChartSpec) | AddRepoCall(entry: RepoEntry)

  /** The text by which both handlers recognise an uninstall of a release that does not exist. */
  const ReleaseNotFound: string := "release: not found"
}

/** `valuesOptions`, identical in both chart step handlers: every `set` entry with a non-empty
    value becomes a line "name=expanded value", routed by its `asString` flag. */
module ChartValues {
  import opened Types
  import opened Environment
  import opened Helm

  function Line(expand: Expander, env: map<string, string>, el: Data): string {
    el.name + "=" + expand(el.value, SubstFn(env))
  }

  /** What the loop has built after the entries `sets`, in visiting order. */
  function SplitValues(expand: Expander, env: map<string, string>, sets: seq<Data>): ValuesOptions
    decreases |sets|
  {
    if |sets| == 0 then ValuesOptions([], [])
    else
      var v := SplitValues(expand, env, sets[..|sets| - 1]);
      var el := sets[|sets| - 1];
      if |el.value| == 0 then v
      else if el.asString.GetOr(false) then v.(stringValues := v.stringValues + [Line(expand, env, el)])
      else v.(values := v.values + [Line(expand, env, el)])
  }

  /** Reference definition: the lines of the non-empty entries whose `asString` flag, defaulting
      to false, is `asString`, in the order of the entries. */
  function Lines(expand: Expander, env: map<string, string>, sets: seq<Data>, asString: bool): (r: seq<string>)
    ensures |r| <= |sets|
  {
    if |sets| == 0 then []
    else
      (if |sets[0].value| > 0 && sets[0].asString.GetOr(false) == asString then [Line(expand, env, sets[0])] else [])
      + Lines(expand, env, sets[1..], asString)
  }

  lemma {:induction false} LinesAppend(expand: Expander, env: map<string, string>, sets: seq<Data>, el: Data, asString: bool)
    ensures Lines(expand, env, sets + [el], asString)
            == Lines(expand, env, sets, asString)
               + (if |el.value| > 0 && el.asString.GetOr(false) == asString then [Line(expand, env, el)] else [])
  {
    if |sets| == 0 {
      assert [el][1..] == [];
    } else {
      assert (sets + [el])[1..] == sets[1..] + [el];
      LinesAppend(expand, env, sets[1..], el, asString);
    }
  }

  /** The `--set-string` lines are exactly the non-empty entries marked `asString`, the `--set`
      lines exactly the other non-empty entries, each list in the order of `sets`. */
  lemma {:induction false} SplitValuesRoutes(expand: Expander, env: map<string, string>, sets: seq<Data>)
    ensures SplitValues(expand, env, sets)
            == ValuesOptions(Lines(expand, env, sets, true), Lines(expand, env, sets, false))
  {
    if |sets| > 0 {
      var init, el := sets[..|sets| - 1], sets[|sets| - 1];
      assert sets == init + [el];
      SplitValuesRoutes(expand, env, init);
      LinesAppend(expand, env, init, el, true);
      LinesAppend(expand, env, init, el, false);
    }
  }

  /** Entries with empty values contribute nothing. */
  lemma {:induction false} LinesSkipEmpty(expand: Expander, env: map<string, string>, sets: seq<Data>, asString: bool)
    requires forall i :: 0 <= i < |sets| ==> sets[i].value == ""
    ensures Lines(expand, env, sets, asString) == []
  {
    if |sets| > 0 {
      LinesSkipEmpty(expand, env, sets[1..], asString);
    }
  }

  /** The loop of `valuesOptions`. */
  method ComputeValuesOptions(expand: Expander, env: map<string, string>, sets: seq<Data>) returns (opts: ValuesOptions)
    ensures opts == SplitValues(expand, env, sets)
  {
    opts := ValuesOptions([], []);
    var i := 0;
    while i < |sets|
      invariant 0 <= i <= |sets|
      invariant opts == SplitValues(expand, env, sets[..i])
    {
      var el := sets[i];
      assert sets[..i + 1][..i] == sets[..i];
      if |el.value| > 0 {
        var line := el.name + "=" + expand(el.value, SubstFn(env));
        if el.asString.GetOr(false) {
          opts := opts.(stringValues := opts.stringValues + [line]);
        } else {
          opts := opts.(values := opts.values + [line]);
        }
      }
      i := i + 1;
    }
    assert sets[..i] == sets;
  }
}

/** The chart step handler of the installer: builds a Helm chart spec from the payload and
    installs/upgrades or uninstalls the release, reporting what Helm says about it. */
module ChartStep {
  import opened Wrappers
  import opened Types
  import opened Steps
  import opened Unstructured
  import opened Environment
  import opened StepSupport
  import opened Helm
  import opened ChartValues
  import SecretResolver
  import StrUtil

  /** JSON decoding of the payload, `expand.Expand`, the Helm client and the dynamic getter. */
  datatype ChartDeps = ChartDeps(
    decode: Bytes -> Result<ChartPayload>, expand: Expander, helm: Client, get: Target -> Result<Object>)

  const DefaultTimeout: Duration := 10 * Minute
  const DefaultMaxHistory: int := 10

  /** The spec before the URL, the release name override and the credentials are applied. */
  function BaseSpec(deps: ChartDeps, ns: string, env: map<string, string>, p: ChartPayload): ChartSpec {
    ChartSpec(
      p.name, p.repository, ns, p.version, true, true,
      p.maxHistory.GetOr(DefaultMaxHistory), p.wait.GetOr(true),
      SplitValues(deps.expand, env, p.sets), p.waitTimeout.GetOr(DefaultTimeout), p.name,
      p.insecureSkipTLSVerify.GetOr(false), "", [])
  }

  /** The spec with the chart URL and the release name override applied. Where the derivation
      from the URL has an answer this is the spec the source builds; where it panics, this is
      the spec the corrected `DeriveReleaseName` gives. */
  function NamedSpec(deps: ChartDeps, ns: string, env: map<string, string>, p: ChartPayload): ChartSpec {
    var s0 := BaseSpec(deps, ns, env, p);
    var s1 := if p.url != "" then s0.(chartName := p.url, releaseName := DeriveReleaseName(p.url)) else s0;
    if p.releaseName != "" then s1.(releaseName := p.releaseName) else s1
  }

  /** The release name derivation of a payload with a URL panics when the URL's file name has
      no '-'; the panic happens even when an explicit release name is given, since that
      override comes after it. */
  predicate ReleaseNamePanics(p: ChartPayload) {
    p.url != "" && DeriveReleaseNameAsWritten(p.url).None?
  }

  /** The runtime panic of that derivation, modelled as a failure of the step. */
  const ErrReleaseNamePanic: Error := Errorf("runtime error: slice bounds out of range [:-1]")

  /** `toChartSpec` as a function of the handler namespace, the environment and the payload. */
  function ToChartSpec(deps: ChartDeps, ns: string, env: map<string, string>, raw: Bytes): Result<ChartSpec> {
    match deps.decode(raw)
    case Fail(e) => Fail(e)
    case Ok(p) =>
      if ReleaseNamePanics(p) then Fail(ErrReleaseNamePanic)
      else
      var spec := NamedSpec(deps, ns, env, p);
      if p.credentials.None? then Ok(spec)
      else
        match SecretResolver.GetSecret(deps.get, p.credentials.value.passwordRef)
        case Fail(e) => Fail(Wrap("failed to get secret: ", e))
        case Ok(pw) => Ok(spec.(username := p.credentials.value.username, password := pw))
  }

  /** How a spec relates to the payload it was built from: it targets the handler's namespace,
      always creates it and upgrades CRDs, and takes its defaults for absent fields: 10 minutes'
      timeout, a history of 10 revisions, waiting on, TLS verification on. The chart is the URL
      when one is given, else the repository; the release name is the explicit one, else the one
      derived from the URL, else the chart name; the values are routed as `SplitValuesRoutes` states. */
  predicate SpecAgrees(s: ChartSpec, expand: Expander, ns: string, env: map<string, string>, p: ChartPayload) {
    SpecDefaults(s, ns, p) && SpecNaming(s, p)
    && s.valuesOptions == ValuesOptions(Lines(expand, env, p.sets, true), Lines(expand, env, p.sets, false))
  }

  predicate SpecDefaults(s: ChartSpec, ns: string, p: ChartPayload) {
    s.namespace == ns && s.createNamespace && s.upgradeCRDs
    && s.version == p.version && s.repository == p.name
    && s.timeout == (if p.waitTimeout.Some? then p.waitTimeout.value else 10 * Minute)
    && s.maxHistory == (if p.maxHistory.Some? then p.maxHistory.value else 10)
    && s.wait == (p.wait != Some(false))
    && s.insecureSkipTLSverify == (p.insecureSkipTLSVerify == Some(true))
  }

  predicate SpecNaming(s: ChartSpec, p: ChartPayload) {
    s.chartName == (if p.url != "" then p.url else p.repository)
    && s.releaseName == (if p.releaseName != "" then p.releaseName
                         else if p.url != "" then DeriveReleaseName(p.url)
                         else p.name)
  }

  lemma BaseSpecDefaults(deps: ChartDeps, ns: string, env: map<string, string>, p: ChartPayload)
    ensures SpecDefaults(BaseSpec(deps, ns, env, p), ns, p)
  {
  }

  lemma NamedSpecAgrees(deps: ChartDeps, ns: string, env: map<string, string>, p: ChartPayload)
    ensures SpecAgrees(NamedSpec(deps, ns, env, p), deps.expand, ns, env, p)
  {
    var s0 := BaseSpec(deps, ns, env, p);
    BaseSpecDefaults(deps, ns, env, p);
    SplitValuesRoutes(deps.expand, env, p.sets);
    var s := NamedSpec(deps, ns, env, p);
    assert s == s0.(chartName := s.chartName, releaseName := s.releaseName);
  }

  /** A payload whose URL file name has no '-' makes `toChartSpec` panic before any secret is
      read, whatever release name it gives; no spec is built. */
  lemma ToChartSpecPanics(deps: ChartDeps, ns: string, env: map<string, string>, raw: Bytes)
    requires deps.decode(raw).Ok?
    ensures ReleaseNamePanics(deps.decode(raw).value) ==> ToChartSpec(deps, ns, env, raw) == Fail(ErrReleaseNamePanic)
    ensures !ReleaseNamePanics(deps.decode(raw).value) && deps.decode(raw).value.credentials.None?
            ==> ToChartSpec(deps, ns, env, raw).Ok?
  {
  }

  /** Every spec `toChartSpec` builds agrees with its payload as `SpecAgrees` states; the
      release name derived from the URL is then the one the source derives. */
  lemma ToChartSpecFields(deps: ChartDeps, ns: string, env: map<string, string>, raw: Bytes)
    requires deps.decode(raw).Ok? && ToChartSpec(deps, ns, env, raw).Ok?
    ensures SpecAgrees(ToChartSpec(deps, ns, env, raw).value, deps.expand, ns, env, deps.decode(raw).value)
    ensures var p := deps.decode(raw).value;
            p.url != "" && p.releaseName == "" ==>
              Some(ToChartSpec(deps, ns, env, raw).value.releaseName) == DeriveReleaseNameAsWritten(p.url)
  {
    var p := deps.decode(raw).value;
    var s := NamedSpec(deps, ns, env, p);
    NamedSpecAgrees(deps, ns, env, p);
    var r := ToChartSpec(deps, ns, env, raw).value;
    assert r == s.(username := r.username, password := r.password);
  }

  /** A URL whose release name derivation panics fails first. Otherwise: without credentials
      the spec carries none; with them the password is the resolved secret and a failure to
      resolve it fails the step with the wrapped error. */
  lemma ToChartSpecCredentials(deps: ChartDeps, ns: string, env: map<string, string>, raw: Bytes)
    requires deps.decode(raw).Ok?
    ensures var p := deps.decode(raw).value;
            var r := ToChartSpec(deps, ns, env, raw);
            (ReleaseNamePanics(p) ==> r == Fail(ErrReleaseNamePanic))
            && (!ReleaseNamePanics(p) && p.credentials.None? ==> r.Ok? && r.value.username == "" && r.value.password == [])
            && (!ReleaseNamePanics(p) && p.credentials.Some? ==>
                  var sec := SecretResolver.GetSecret(deps.get, p.credentials.value.passwordRef);
                  (sec.Fail? ==> r == Fail(Wrap("failed to get secret: ", sec.error)))
                  && (sec.Ok? ==> r.Ok? && r.value.username == p.credentials.value.username
                                  && r.value.password == sec.value))
  {
  }

  datatype ChartOutcome = ChartOutcome(result: Option<ChartResult>, calls: seq<HelmCall>, err: Option<Error>)

  const EmptyResult: ChartResult := ChartResult("", "", "", "", "", "", 0, 0, "")

  /** The result fields copied from the release Helm reports. */
  function FromRelease(op: string, rel: Release): ChartResult {
    ChartResult(rel.name, rel.chartName, rel.chartVersion, rel.appVersion, rel.namespace,
                rel.status, rel.revision, rel.lastDeployed, op)
  }

  /** `chartStepHandler.Handle` as a function. */
  function ChartHandle(deps: ChartDeps, ns: string, op: Op, env: map<string, string>, raw: Bytes): ChartOutcome {
    match ToChartSpec(deps, ns, env, raw)
    case Fail(e) => ChartOutcome(None, [], Some(e))
    case Ok(spec) =>
      if op != Delete then
        var base := EmptyResult.(operation := "install/upgrade");
        match deps.helm.install(spec)
        case Fail(e) => ChartOutcome(Some(base), [InstallCall(spec)], Some(e))
        case Ok(None) => ChartOutcome(Some(base), [InstallCall(spec)], None)
        case Ok(Some(rel)) => ChartOutcome(Some(FromRelease("install/upgrade", rel)), [InstallCall(spec)], None)
      else
        var base := EmptyResult.(operation := "uninstall");
        match deps.helm.uninstall(spec)
        case None => ChartOutcome(Some(base.(status := "uninstalled")), [UninstallCall(spec)], None)
        case Some(e) =>
          if StrUtil.Contains(e.msg, ReleaseNotFound) then ChartOutcome(Some(base.(status := "not_found")), [UninstallCall(spec)], None)
          else ChartOutcome(Some(base), [UninstallCall(spec)], Some(e))
  }

  /** A spec that cannot be built fails the step with no result and no Helm call; otherwise the
      handler makes exactly one Helm call with that spec: install/upgrade unless the operation is
      Delete, uninstall when it is. */
  lemma ChartHandleCalls(deps: ChartDeps, ns: string, op: Op, env: map<string, string>, raw: Bytes)
    ensures var spec := ToChartSpec(deps, ns, env, raw);
            var o := ChartHandle(deps, ns, op, env, raw);
            (spec.Fail? ==> o == ChartOutcome(None, [], Some(spec.error)))
            && (spec.Ok? && op != Delete ==> o.calls == [InstallCall(spec.value)] && o.result.Some?)
            && (spec.Ok? && op == Delete ==> o.calls == [UninstallCall(spec.value)] && o.result.Some?)
  {
  }

  /** Install/upgrade: the result reports the operation, and the release Helm returned when it
      returned one; the install error is the step's error. */
  lemma ChartHandleInstall(deps: ChartDeps, ns: string, op: Op, env: map<string, string>, raw: Bytes)
    requires ToChartSpec(deps, ns, env, raw).Ok? && op != Delete
    ensures var r := deps.helm.install(ToChartSpec(deps, ns, env, raw).value);
            var o := ChartHandle(deps, ns, op, env, raw);
            o.result.Some? && o.result.value.operation == "install/upgrade"
            && (r.Fail? <==> o.err.Some?)
            && (r.Fail? ==> o.err == Some(r.error) && o.result.value.releaseName == "")
            && (r.Ok? && r.value.Some? ==>
                  var rel := r.value.value;
                  o.result.value.releaseName == rel.name && o.result.value.namespace == rel.namespace
                  && o.result.value.chartName == rel.chartName && o.result.value.chartVersion == rel.chartVersion
                  && o.result.value.appVersion == rel.appVersion && o.result.value.status == rel.status
                  && o.result.value.revision == rel.revision && o.result.value.updated == rel.lastDeployed)
  {
  }

  /** Uninstall: an uninstall of a release Helm does not know succeeds with status "not_found";
      any other error fails the step; success reports "uninstalled". */
  lemma ChartHandleUninstall(deps: ChartDeps, ns: string, env: map<string, string>, raw: Bytes)
    requires ToChartSpec(deps, ns, env, raw).Ok?
    ensures var u := deps.helm.uninstall(ToChartSpec(deps, ns, env, raw).value);
            var o := ChartHandle(deps, ns, Delete, env, raw);
            o.result.Some? && o.result.value.operation == "uninstall"
            && (o.err.None? <==> (u.None? || StrUtil.Contains(u.value.msg, ReleaseNotFound)))
            && (u.None? ==> o.result.value.status == "uninstalled")
            && (u.Some? && StrUtil.Contains(u.value.msg, ReleaseNotFound) ==> o.result.value.status == "not_found")
            && (o.err.Some? ==> o.err == u)
  {
  }

  class ChartStepHandler {
    var ns: string
    var op: Op
    const env: Env
    const deps: ChartDeps

    constructor (env: Env, deps: ChartDeps)
      ensures this.env == env && this.deps == deps && ns == "" && op == Create
    {
      this.env := env;
      this.deps := deps;
      ns := "";
      op := Create;
    }

    method Namespace(ns: string)
      modifies this
      ensures this.ns == ns && op == old(op)
    {
      this.ns := ns;
    }

    method Op(op: Op)
      modifies this
      ensures this.op == op && ns == old(ns)
    {
      this.op := op;
    }

    /** `toChartSpec`: the spec is filled in field by field. */
    method BuildSpec(raw: Bytes) returns (r: Result<ChartSpec>)
      ensures r == ToChartSpec(deps, ns, env.data, raw)
    {
      var dec := deps.decode(raw);
      if dec.Fail? {
        return Fail(dec.error);
      }
      var p := dec.value;
      var timeout := DefaultTimeout;
      if p.waitTimeout.Some? {
        timeout := p.waitTimeout.value;
      }
      var opts := ComputeValuesOptions(deps.expand, env.data, p.sets);
      var spec := ChartSpec(
        p.name, p.repository, ns, p.version, true, true,
        p.maxHistory.GetOr(DefaultMaxHistory), p.wait.GetOr(true), opts, timeout, p.name, false, "", []);
      if p.insecureSkipTLSVerify.Some? {
        spec := spec.(insecureSkipTLSverify := p.insecureSkipTLSVerify.value);
      }
      if p.url != "" {
        var name := DeriveReleaseNameAsWritten(p.url);
        if name.None? {
          return Fail(ErrReleaseNamePanic);
        }
        spec := spec.(chartName := p.url, releaseName := name.value);
      }
      if p.releaseName != "" {
        spec := spec.(releaseName := p.releaseName);
      }
      assert spec == NamedSpec(deps, ns, env.data, p);
      if p.credentials.Some? {
        var secret := SecretResolver.GetSecret(deps.get, p.credentials.value.passwordRef);
        if secret.Fail? {
          return Fail(Wrap("failed to get secret: ", secret.error));
        }
        spec := spec.(username := p.credentials.value.username, password := secret.value);
      }
      return Ok(spec);
    }

    /** `chartStepHandler.Handle`. */
    method Handle(id: string, raw: Bytes) returns (result: Option<ChartResult>, err: Option<Error>)
      ensures result == ChartHandle(deps, ns, op, env.data, raw).result
      ensures err == ChartHandle(deps, ns, op, env.data, raw).err
    {
      var spec := BuildSpec(raw);
      if spec.Fail? {
        return None, Some(spec.error);
      }
      var res := EmptyResult;
      if op != Delete {
        res := res.(operation := "install/upgrade");
        var rel := deps.helm.install(spec.value);
        if rel.Fail? {
          return Some(res), Some(rel.error);
        }
        if rel.value.Some? {
          var x := rel.value.value;
          res := res.(status := x.status, chartVersion := x.chartVersion, appVersion := x.appVersion,
                      releaseName := x.name, chartName := x.chartName, namespace := x.namespace,
                      updated := x.lastDeployed, revision := x.revision);
        }
        return Some(res), None;
      }
      res := res.(operation := "uninstall");
      var e := deps.helm.uninstall(spec.value);
      if e.Some? {
        if StrUtil.Contains(e.value.msg, ReleaseNotFound) {
          res := res.(status := "not_found");
          return Some(res), None;
        }
        return Some(res), e;
      }
      res := res.(status := "uninstalled");
      return Some(res), None;
    }
  }
}

/** The older chart step handler: registers the chart repository under a derived name, then
    installs "<repo name>/<chart>" or uninstalls it. */
module LegacyChartStep {
  import opened Wrappers
  import opened Types
  import opened Steps
  import opened Environment
  import opened Helm
  import opened ChartValues
  import StepSupport
  import StrUtil

  datatype LegacyChartDeps = LegacyChartDeps(decode: Bytes -> Result<ChartPayload>, expand: Expander, helm: Client)

  /** The repository entry: the derived name and the repository URL. */
  function Entry(p: ChartPayload): RepoEntry {
    RepoEntry(StepSupport.DeriveRepoName(p.repository), p.repository)
  }

  datatype SpecOutcome = SpecOutcome(spec: Result<ChartSpec>, calls: seq<HelmCall>)

  /** `toChartSpec` with the repository registration it makes first (unless deleting). */
  function LegacyToChartSpec(deps: LegacyChartDeps, ns: string, op: Op, env: map<string, string>, raw: Bytes): SpecOutcome {
    match deps.decode(raw)
    case Fail(e) => SpecOutcome(Fail(e), [])
    case Ok(p) =>
      var entry := Entry(p);
      var reg := if op != Delete then [AddRepoCall(entry)] else [];
      if op != Delete && deps.helm.addRepo(entry).Some? then SpecOutcome(Fail(deps.helm.addRepo(entry).value), reg)
      else
        var spec := ChartSpec(
          p.name, entry.name + "/" + p.name, ns, p.version, true, true, 0, p.wait.GetOr(true),
          SplitValues(deps.expand, env, p.sets), p.waitTimeout.GetOr(10 * Minute), "", false, "", []);
        SpecOutcome(Ok(spec), reg)
  }

  /** `chartStepHandler.Handle` as a function: the Helm calls made and the error returned. */
  function LegacyChartHandle(deps: LegacyChartDeps, ns: string, op: Op, env: map<string, string>, raw: Bytes): (seq<HelmCall>, Option<Error>) {
    var so := LegacyToChartSpec(deps, ns, op, env, raw);
    match so.spec
    case Fail(e) => (so.calls, Some(e))
    case Ok(spec) =>
      if op != Delete then
        var r := deps.helm.install(spec);
        (so.calls + [InstallCall(spec)], if r.Fail? then Some(r.error) else None)
      else
        var u := deps.helm.uninstall(spec);
        (so.calls + [UninstallCall(spec)],
         if u.Some? && !StrUtil.Contains(u.value.msg, ReleaseNotFound) then u else None)
  }

  /** The repository is registered before anything else exactly when the operation is not
      Delete, and a failed registration stops the step before Helm installs anything; the chart
      installed is "<derived repository name>/<chart name>" into the handler's namespace. */
  lemma LegacyRegistersRepo(deps: LegacyChartDeps, ns: string, op: Op, env: map<string, string>, raw: Bytes)
    requires deps.decode(raw).Ok?
    ensures var p := deps.decode(raw).value;
            var h := LegacyChartHandle(deps, ns, op, env, raw);
            (op != Delete <==> (|h.0| > 0 && h.0[0] == AddRepoCall(RepoEntry(StepSupport.DeriveRepoName(p.repository), p.repository))))
            && (op != Delete && deps.helm.addRepo(Entry(p)).Some? ==> h == ([AddRepoCall(Entry(p))], deps.helm.addRepo(Entry(p))))
            && (forall c :: c in h.0 && (c.InstallCall? || c.UninstallCall?) ==>
                  c.spec.chartName == StepSupport.DeriveRepoName(p.repository) + "/" + p.name
                  && c.spec.releaseName == p.name && c.spec.namespace == ns)
  {
    LegacyRegistersFirst(deps, ns, op, env, raw);
    LegacyInstallTarget(deps, ns, op, env, raw);
  }

  lemma LegacyRegistersFirst(deps: LegacyChartDeps, ns: string, op: Op, env: map<string, string>, raw: Bytes)
    requires deps.decode(raw).Ok?
    ensures var p := deps.decode(raw).value;
            var h := LegacyChartHandle(deps, ns, op, env, raw);
            (op != Delete <==> (|h.0| > 0 && h.0[0] == AddRepoCall(Entry(p))))
            && (op != Delete && deps.helm.addRepo(Entry(p)).Some? ==> h == ([AddRepoCall(Entry(p))], deps.helm.addRepo(Entry(p))))
  {
    var p := deps.decode(raw).value;
    var so := LegacyToChartSpec(deps, ns, op, env, raw);
    assert so.calls == if op != Delete then [AddRepoCall(Entry(p))] else [];
  }

  lemma LegacyInstallTarget(deps: LegacyChartDeps, ns: string, op: Op, env: map<string, string>, raw: Bytes)
    requires deps.decode(raw).Ok?
    ensures var p := deps.decode(raw).value;
            var h := LegacyChartHandle(deps, ns, op, env, raw);
            forall c :: c in h.0 && (c.InstallCall? || c.UninstallCall?) ==>
              c.spec.chartName == Entry(p).name + "/" + p.name && c.spec.releaseName == p.name && c.spec.namespace == ns
  {
    var p := deps.decode(raw).value;
    var so := LegacyToChartSpec(deps, ns, op, env, raw);
    var h := LegacyChartHandle(deps, ns, op, env, raw);
    assert so.calls == [] || so.calls == [AddRepoCall(Entry(p))];
    if so.spec.Ok? {
      var spec := so.spec.value;
      assert spec.chartName == Entry(p).name + "/" + p.name && spec.releaseName == p.name && spec.namespace == ns;
      assert h.0 == so.calls + [if op != Delete then InstallCall(spec) else UninstallCall(spec)];
    } else {
      assert h.0 == so.calls;
    }
  }

  /** The older handler reports success on an uninstall of an unknown release, as the newer one does. */
  lemma LegacyUninstallNotFound(deps: LegacyChartDeps, ns: string, env: map<string, string>, raw: Bytes)
    requires LegacyToChartSpec(deps, ns, Delete, env, raw).spec.Ok?
    ensures var u := deps.helm.uninstall(LegacyToChartSpec(deps, ns, Delete, env, raw).spec.value);
            LegacyChartHandle(deps, ns, Delete, env, raw).1.None? <==> (u.None? || StrUtil.Contains(u.value.msg, ReleaseNotFound))
  {
  }

  class LegacyChartStepHandler {
    var ns: string
    var op: Op
    const env: Env
    const deps: LegacyChartDeps

    constructor (env: Env, deps: LegacyChartDeps)
      ensures this.env == env && this.deps == deps && ns == "" && op == Create
    {
      this.env := env;
      this.deps := deps;
      ns := "";
      op := Create;
    }

    method Namespace(ns: string)
      modifies this
      ensures this.ns == ns && op == old(op)
    {
      this.ns := ns;
    }

    method Op(op: Op)
      modifies this
      ensures this.op == op && ns == old(ns)
    {
      this.op := op;
    }

    /** `toChartSpec`, registering the repository first unless deleting. */
    method BuildSpec(raw: Bytes) returns (so: SpecOutcome)
      ensures so == LegacyToChartSpec(deps, ns, op, env.data, raw)
    {
      var dec := deps.decode(raw);
      if dec.Fail? {
        return SpecOutcome(Fail(dec.error), []);
      }
      var p := dec.value;
      var entry := RepoEntry(StepSupport.DeriveRepoName(p.repository), p.repository);
      var calls := [];
      if op != Delete {
        calls := [AddRepoCall(entry)];
        var e := deps.helm.addRepo(entry);
        if e.Some? {
          return SpecOutcome(Fail(e.value), calls);
        }
      }
      var timeout := 10 * Minute;
      if p.waitTimeout.Some? {
        timeout := p.waitTimeout.value;
      }
      var opts := ComputeValuesOptions(deps.expand, env.data, p.sets);
      var spec := ChartSpec(
        p.name, entry.name + "/" + p.name, ns, p.version, true, true, 0, p.wait.GetOr(true),
        opts, timeout, "", false, "", []);
      return SpecOutcome(Ok(spec), calls);
    }

    /** `chartStepHandler.Handle`; `calls` lists the requests made of the Helm client. */
    method Handle(id: string, raw: Bytes) returns (calls: seq<HelmCall>, err: Option<Error>)
      ensures (calls, err) == LegacyChartHandle(deps, ns, op, env.data, raw)
    {
      var so := BuildSpec(raw);
      calls := so.calls;
      if so.spec.Fail? {
        return calls, Some(so.spec.error);
      }
      var spec := so.spec.value;
      if op != Delete {
        calls := calls + [InstallCall(spec)];
        var r := deps.helm.install(spec);
        return calls, if r.Fail? then Some(r.error) else None;
      }
      calls := calls + [UninstallCall(spec)];
      var u := deps.helm.uninstall(spec);
      if u.Some? && !StrUtil.Contains(u.value.msg, ReleaseNotFound) {
        return calls, u;
      }
      return calls, None;
    }
  }
}
