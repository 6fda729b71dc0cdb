/** The legacy release installer: each release of the resource, in spec order, registers its
    chart repository and, unless the repository is a Krateo gateway, installs its chart; the
    first error stops the loop. */
module ReleaseInstaller {
  import opened Wrappers
  import opened Types
  import opened Helm
  import opened ReleaseSupport

  /** A `set` entry of a release: a Helm value path and its text. */
  datatype ReleaseValue = ReleaseValue(name: string, value: string)

  /** One release of the resource. */
  datatype ReleaseParameters = ReleaseParameters(repository: string, name: string, version: string, sets: seq<ReleaseValue>)

  /** The parts of the resource the installer reads: its namespace, the optional service type
      and the releases. */
  datatype Installation = Installation(namespace: string, serviceType: Option<string>, releases: seq<ReleaseParameters>)

  const DefaultServiceType: string := "NodePort"
  const InstallTimeout: Duration := 10 * Minute

  /** The repository entry registered for a release. */
  function RepoEntryFor(p: ReleaseParameters): RepoEntry {
    RepoEntry(DeriveRepoName(p.repository), p.repository)
  }

  function ServiceTypeLine(serviceType: Option<string>): string {
    "service.type=" + serviceType.GetOr(DefaultServiceType)
  }

  function SetLine(v: ReleaseValue): string {
    v.name + "=" + v.value
  }

  /** The values list of a release: the service type first, then every `set` entry in order,
      empty values included and nothing expanded. */
  function ValuesFor(serviceType: Option<string>, sets: seq<ReleaseValue>): seq<string> {
    if |sets| == 0 then [ServiceTypeLine(serviceType)]
    else ValuesFor(serviceType, sets[..|sets| - 1]) + [SetLine(sets[|sets| - 1])]
  }

  lemma {:induction false} ValuesShape(serviceType: Option<string>, sets: seq<ReleaseValue>)
    ensures var vals := ValuesFor(serviceType, sets);
            |vals| == |sets| + 1 && vals[0] == "service.type=" + serviceType.GetOr("NodePort")
            && forall k :: 0 <= k < |sets| ==> vals[k + 1] == sets[k].name + "=" + sets[k].value
  {
    if |sets| > 0 {
      ValuesShape(serviceType, sets[..|sets| - 1]);
    }
  }

  /** The chart spec of a release that is not a gateway. */
  function GenericSpec(namespace: string, serviceType: Option<string>, entry: RepoEntry, p: ReleaseParameters): ChartSpec {
    ChartSpec(
      p.name, entry.name + "/" + p.name, namespace, p.version,
      true, true, 0, true,
      ValuesOptions([], ValuesFor(serviceType, p.sets)), InstallTimeout, "",
      false, "", [])
  }

  /** The Helm calls made for some releases, in order, and the error that stopped the loop. */
  datatype Run = Run(calls: seq<HelmCall>, err: Option<Error>)

  /** What handling one release does: the registration of its repository and, unless the
      registration failed or the repository is a gateway, the install of its chart. */
  function Handled(helm: Client, inst: Installation, p: ReleaseParameters): Run {
    var entry := RepoEntryFor(p);
    if helm.addRepo(entry).Some? then Run([AddRepoCall(entry)], helm.addRepo(entry))
    else if IsKrateoGateway(entry.name) then Run([AddRepoCall(entry)], None)
    else
      var spec := GenericSpec(inst.namespace, inst.serviceType, entry, p);
      var r := helm.install(spec);
      Run([AddRepoCall(entry), InstallCall(spec)], if r.Fail? then Some(r.error) else None)
  }

  /** The run of each release on its own, in order. */
  function Runs(helm: Client, inst: Installation, rs: seq<ReleaseParameters>): (hs: seq<Run>)
    ensures |hs| == |rs|
  {
    seq(|rs|, k requires 0 <= k < |rs| => Handled(helm, inst, rs[k]))
  }

  lemma RunsAppend(helm: Client, inst: Installation, a: seq<ReleaseParameters>, b: seq<ReleaseParameters>)
    ensures Runs(helm, inst, a + b) == Runs(helm, inst, a) + Runs(helm, inst, b)
  {
    var ab := Runs(helm, inst, a + b);
    forall k | 0 <= k < |ab| ensures ab[k] == (Runs(helm, inst, a) + Runs(helm, inst, b))[k] {
      if k >= |a| {
        assert (a + b)[k] == b[k - |a|];
      }
    }
  }

  /** The runs `hs` one after the other, stopping at the first that fails. */
  function Chain(hs: seq<Run>): Run {
    if |hs| == 0 then Run([], None)
    else if hs[0].err.Some? then hs[0]
    else
      var rest := Chain(hs[1..]);
      Run(hs[0].calls + rest.calls, rest.err)
  }

  /** What installing the releases `rs` does. */
  function InstallFrom(helm: Client, inst: Installation, rs: seq<ReleaseParameters>): Run {
    Chain(Runs(helm, inst, rs))
  }

  /** Runs are chained in order: when the first ones all succeed the chain continues with the
      others, and once one fails none of the later ones counts. */
  lemma {:induction false} ChainAppend(a: seq<Run>, b: seq<Run>)
    ensures Chain(a).err.None? ==> Chain(a + b) == Run(Chain(a).calls + Chain(b).calls, Chain(b).err)
    ensures Chain(a).err.Some? ==> Chain(a + b) == Chain(a)
  {
    if |a| > 0 {
      var ab := a + b;
      assert ab[0] == a[0];
      assert ab[1..] == a[1..] + b;
      if a[0].err.None? {
        ChainAppend(a[1..], b);
        var tail := Chain(a[1..]);
        if tail.err.None? {
          assert a[0].calls + (tail.calls + Chain(b).calls) == (a[0].calls + tail.calls) + Chain(b).calls;
        }
      }
    } else {
      assert a + b == b;
    }
  }

  /** Releases are handled in order: when the first ones all succeed the run continues with
      the others, and once one fails none of the later ones is touched. */
  lemma InstallInOrder(helm: Client, inst: Installation, a: seq<ReleaseParameters>, b: seq<ReleaseParameters>)
    ensures InstallFrom(helm, inst, a).err.None? ==>
              InstallFrom(helm, inst, a + b)
              == Run(InstallFrom(helm, inst, a).calls + InstallFrom(helm, inst, b).calls, InstallFrom(helm, inst, b).err)
    ensures InstallFrom(helm, inst, a).err.Some? ==> InstallFrom(helm, inst, a + b) == InstallFrom(helm, inst, a)
  {
    RunsAppend(helm, inst, a, b);
    ChainAppend(Runs(helm, inst, a), Runs(helm, inst, b));
  }

  /** A call of the chain is a call of one of its runs; when the chain succeeds, every call of
      every run is in it. */
  lemma {:induction false} ChainCalls(hs: seq<Run>)
    ensures forall c :: c in Chain(hs).calls ==> exists k :: 0 <= k < |hs| && c in hs[k].calls
    ensures Chain(hs).err.None? ==> forall k, c :: 0 <= k < |hs| && c in hs[k].calls ==> c in Chain(hs).calls
  {
    if |hs| > 0 {
      ChainCalls(hs[1..]);
      forall c | c in Chain(hs).calls ensures exists k :: 0 <= k < |hs| && c in hs[k].calls {
        if c !in hs[0].calls {
          var k :| 0 <= k < |hs| - 1 && c in hs[1..][k].calls;
          assert hs[k + 1] == hs[1..][k];
        }
      }
      if Chain(hs).err.None? {
        forall k, c | 0 <= k < |hs| && c in hs[k].calls ensures c in Chain(hs).calls {
          if k > 0 {
            assert hs[1..][k - 1] == hs[k];
          }
        }
      }
    }
  }

  /** One release: its repository is registered first, and an install happens only for a
      repository that is not a gateway. */
  lemma HandledCalls(helm: Client, inst: Installation, p: ReleaseParameters)
    ensures var h := Handled(helm, inst, p);
            |h.calls| >= 1 && h.calls[0] == AddRepoCall(RepoEntryFor(p))
            && forall c :: c in h.calls ==>
                 c == AddRepoCall(RepoEntryFor(p))
                 || (!IsKrateoGateway(RepoEntryFor(p).name)
                     && c == InstallCall(GenericSpec(inst.namespace, inst.serviceType, RepoEntryFor(p), p)))
  {
  }

  /** Every call is a repository registration of one of the releases, or the install of a
      release whose repository is not a gateway; on success every repository was registered. */
  lemma InstallCalls(helm: Client, inst: Installation, rs: seq<ReleaseParameters>)
    ensures forall c :: c in InstallFrom(helm, inst, rs).calls ==>
              exists p :: p in rs
                          && (c == AddRepoCall(RepoEntryFor(p))
                              || (!IsKrateoGateway(RepoEntryFor(p).name)
                                  && c == InstallCall(GenericSpec(inst.namespace, inst.serviceType, RepoEntryFor(p), p))))
    ensures InstallFrom(helm, inst, rs).err.None? ==>
              forall p :: p in rs ==> AddRepoCall(RepoEntryFor(p)) in InstallFrom(helm, inst, rs).calls
  {
    var hs := Runs(helm, inst, rs);
    ChainCalls(hs);
    forall c | c in Chain(hs).calls
      ensures exists p :: p in rs
                          && (c == AddRepoCall(RepoEntryFor(p))
                              || (!IsKrateoGateway(RepoEntryFor(p).name)
                                  && c == InstallCall(GenericSpec(inst.namespace, inst.serviceType, RepoEntryFor(p), p))))
    {
      var k :| 0 <= k < |hs| && c in hs[k].calls;
      HandledCalls(helm, inst, rs[k]);
    }
    if Chain(hs).err.None? {
      forall p | p in rs ensures AddRepoCall(RepoEntryFor(p)) in Chain(hs).calls {
        var k :| 0 <= k < |rs| && rs[k] == p;
          HandledCalls(helm, inst, p);
        assert AddRepoCall(RepoEntryFor(p)) in hs[k].calls;
      }
    }
  }

  /** One more run chained after runs that all succeeded: its calls follow theirs and its
      error is the chain's. */
  lemma ChainSnoc(hs: seq<Run>, i: nat)
    requires i < |hs| && Chain(hs[..i]).err.None?
    ensures Chain(hs[..i + 1]) == Run(Chain(hs[..i]).calls + hs[i].calls, hs[i].err)
  {
    assert hs[..i + 1] == hs[..i] + [hs[i]];
    ChainAppend(hs[..i], [hs[i]]);
    assert Chain([hs[i]]) == Run(hs[i].calls + [], hs[i].err);
    assert hs[i].calls + [] == hs[i].calls;
  }

  /** A chain that fails on its first `i` runs is that prefix's run. */
  lemma ChainPrefixFails(hs: seq<Run>, i: nat)
    requires i <= |hs| && Chain(hs[..i]).err.Some?
    ensures Chain(hs) == Chain(hs[..i])
  {
    assert hs == hs[..i] + hs[i..];
    ChainAppend(hs[..i], hs[i..]);
  }

  class Installer {
    const helm: Client
    /** The installer's own copy of the resource. */
    const cr: Installation
    /** The Helm requests made so far. */
    var calls: seq<HelmCall>

    constructor (helm: Client, cr: Installation)
      ensures this.helm == helm && this.cr == cr && calls == []
    {
      this.helm := helm;
      this.cr := cr;
      calls := [];
    }

    /** The values list, built by appending. */
    method BuildValues(sets: seq<ReleaseValue>) returns (vals: seq<string>)
      ensures vals == ValuesFor(cr.serviceType, sets)
    {
      var serviceType := cr.serviceType.GetOr(DefaultServiceType);
      vals := ["service.type=" + serviceType];
      for i := 0 to |sets|
        invariant vals == ValuesFor(cr.serviceType, sets[..i])
      {
        assert sets[..i + 1][..i] == sets[..i];
        vals := vals + [sets[i].name + "=" + sets[i].value];
      }
      assert sets[..|sets|] == sets;
    }

    /** `handleKrateoGateway`: does nothing. */
    method HandleKrateoGateway(entry: RepoEntry, p: ReleaseParameters) returns (err: Option<Error>)
      ensures err.None?
    {
      return None;
    }

    /** `handleGenericChart`: one install or upgrade, whose error is returned. */
    method HandleGenericChart(entry: RepoEntry, p: ReleaseParameters) returns (err: Option<Error>)
      modifies this`calls
      ensures var spec := GenericSpec(cr.namespace, cr.serviceType, entry, p);
              calls == old(calls) + [InstallCall(spec)]
              && err == (if helm.install(spec).Fail? then Some(helm.install(spec).error) else None)
    {
      var vals := BuildValues(p.sets);
      var spec := ChartSpec(
        p.name, entry.name + "/" + p.name, cr.namespace, p.version,
        true, true, 0, true, ValuesOptions([], vals), InstallTimeout, "", false, "", []);
      calls := calls + [InstallCall(spec)];
      var r := helm.install(spec);
      if r.Fail? {
        return Some(r.error);
      }
      return None;
    }

    /** One pass of the `install` loop, for the release at index `i`: register the repository,
        then hand the release to the gateway or the generic handler. */
    method HandleRelease(i: nat) returns (err: Option<Error>)
      requires i < |cr.releases|
      modifies this`calls
      ensures calls == old(calls) + Runs(helm, cr, cr.releases)[i].calls
      ensures err == Runs(helm, cr, cr.releases)[i].err
    {
      var x := cr.releases[i];
      var entry := RepoEntry(DeriveRepoName(x.repository), x.repository);
      calls := calls + [AddRepoCall(entry)];
      err := helm.addRepo(entry);
      if err.Some? {
        return err;
      }
      if IsKrateoGateway(entry.name) {
        err := HandleKrateoGateway(entry, x);
        return err;
      }
      err := HandleGenericChart(entry, x);
    }

    /** `install`: the loop over the releases, left at the first error. */
    method Install() returns (err: Option<Error>)
      modifies this`calls
      ensures calls == old(calls) + InstallFrom(helm, cr, cr.releases).calls
      ensures err == InstallFrom(helm, cr, cr.releases).err
    {
      var rs := cr.releases;
      ghost var hs := Runs(helm, cr, rs);
      assert hs[..0] == [];
      for i := 0 to |rs|
        invariant Chain(hs[..i]).err.None?
        invariant calls == old(calls) + Chain(hs[..i]).calls
      {
        ChainSnoc(hs, i);
        err := HandleRelease(i);
        if err.Some? {
          ChainPrefixFails(hs, i + 1);
          return err;
        }
      }
      assert hs[..|rs|] == hs;
      return None;
    }
  }
}
