/** The managed-resource vocabulary both controllers use: the actions a resource's
    management policy may allow, the Ready condition, and the observation the reconciler acts on. */
module Managed {
  datatype Action = ActionCreate | ActionUpdate | ActionDelete

  /** The reason of the Ready condition. */
  datatype Condition = Creating | Available | Deleting

  datatype Observation = Observation(resourceExists: bool, resourceUpToDate: bool)
}

/** The workflow resource as the installer controller keeps it: the spec steps, the aggregate
    digest and the three lists of what the last run produced. */
module InstallerResource {
  import opened Wrappers
  import opened Types
  import opened Steps
  import opened Managed

  /** An entry of `ReleaseList`. */
  datatype ReleaseEntry = ReleaseEntry(
    releaseName: string, chartName: string, chartVersion: string, appVersion: string,
    namespace: string, status: string, revision: int, updated: int)

  /** A result of the newer workflow engine: id, digest, error and the handler's typed value
      (None for a nil value). */
  datatype TypedStepResult = TypedStepResult(id: string, digest: string, err: Option<Error>, result: Option<TypedResult>)

  /** What a status update sends to the API server. */
  datatype CrStatus = CrStatus(
    digest: string, objectList: seq<ObjectMeta>, releaseList: seq<ReleaseEntry>, varList: seq<Data>,
    ready: Option<Condition>)

  class KrateoPlatformOps {
    var steps: seq<Step>
    var digest: string
    var objectList: seq<ObjectMeta>
    var releaseList: seq<ReleaseEntry>
    var varList: seq<Data>
    var ready: Option<Condition>
    /** `meta.WasDeleted`: the deletion timestamp is set. */
    const deleted: bool
    /** `meta.IsActionAllowed` under the resource's management policy. */
    const allowed: Action -> bool

    constructor (steps: seq<Step>, deleted: bool, allowed: Action -> bool)
      ensures this.steps == steps && this.deleted == deleted && this.allowed == allowed
      ensures digest == "" && objectList == [] && releaseList == [] && varList == [] && ready == None
    {
      this.steps := steps;
      this.deleted := deleted;
      this.allowed := allowed;
      digest := "";
      objectList := [];
      releaseList := [];
      varList := [];
      ready := None;
    }

    function Status(): CrStatus
      reads this`digest, this`objectList, this`releaseList, this`varList, this`ready
    {
      CrStatus(digest, objectList, releaseList, varList, ready)
    }
  }
}

/** `populateStatus` and the status wrappers of the installer controller. */
module InstallerStatus {
  import opened Wrappers
  import opened Types
  import opened Steps
  import opened InstallerResource

  /** The value `wrapResultForStatus` returns; `None` stands for its nil. */
  datatype StatusWrapper = VarWrapper(v: VarResult) | ObjectWrapper(o: ObjectResult) | ChartWrapper(c: ChartResult)

  /** `wrapResultForStatus`: one wrapper per known result type, nothing for any other. */
  function WrapResultForStatus(r: TypedResult): (w: Option<StatusWrapper>)
    ensures w.None? <==> r.Other?
    ensures r.VarRes? ==> w == Some(VarWrapper(r.v))
    ensures r.ObjectRes? ==> w == Some(ObjectWrapper(r.o))
    ensures r.ChartRes? ==> w == Some(ChartWrapper(r.c))
  {
    match r
    case VarRes(v) => Some(VarWrapper(v))
    case ObjectRes(o) => Some(ObjectWrapper(o))
    case ChartRes(c) => Some(ChartWrapper(c))
    case Other => None
  }

  function VarEntry(v: VarResult): Data {
    Data(v.name, v.value, None)
  }

  function ObjectEntry(o: ObjectResult): ObjectMeta {
    ObjectMeta(o.apiVersion, o.kind, Reference(o.name, o.namespace))
  }

  function ReleaseEntryOf(c: ChartResult): ReleaseEntry {
    ReleaseEntry(c.releaseName, c.chartName, c.chartVersion, c.appVersion, c.namespace, c.status, c.revision, c.updated)
  }

  /** The typed value of a result that contributes to the status: no error and a non-nil value. */
  function Contribution(x: TypedStepResult): Option<TypedResult> {
    if x.err.Some? || x.result.None? then None else x.result
  }

  /** `VarList` after the results `rs` were visited. */
  function VarsOf(rs: seq<TypedStepResult>): seq<Data> {
    if |rs| == 0 then []
    else
      var c := Contribution(rs[|rs| - 1]);
      VarsOf(rs[..|rs| - 1]) + (if c.Some? && c.value.VarRes? then [VarEntry(c.value.v)] else [])
  }

  /** `ObjectList` after the results `rs` were visited. */
  function ObjectsOf(rs: seq<TypedStepResult>): seq<ObjectMeta> {
    if |rs| == 0 then []
    else
      var c := Contribution(rs[|rs| - 1]);
      ObjectsOf(rs[..|rs| - 1]) + (if c.Some? && c.value.ObjectRes? then [ObjectEntry(c.value.o)] else [])
  }

  /** `ReleaseList` after the results `rs` were visited. */
  function ReleasesOf(rs: seq<TypedStepResult>): seq<ReleaseEntry> {
    if |rs| == 0 then []
    else
      var c := Contribution(rs[|rs| - 1]);
      ReleasesOf(rs[..|rs| - 1]) + (if c.Some? && c.value.ChartRes? then [ReleaseEntryOf(c.value.c)] else [])
  }

  /** The number of results that contribute something. */
  function Contributing(rs: seq<TypedStepResult>): nat {
    if |rs| == 0 then 0
    else
      var c := Contribution(rs[|rs| - 1]);
      Contributing(rs[..|rs| - 1]) + (if c.Some? && !c.value.Other? then 1 else 0)
  }

  /** Each contributing result adds exactly one entry to exactly one list; failed results, nil
      values and values of unknown type add none. */
  lemma {:induction false} OneEntryPerResult(rs: seq<TypedStepResult>)
    ensures |VarsOf(rs)| + |ObjectsOf(rs)| + |ReleasesOf(rs)| == Contributing(rs)
    ensures Contributing(rs) <= |rs|
  {
    if |rs| > 0 {
      OneEntryPerResult(rs[..|rs| - 1]);
    }
  }

  /** An entry of `VarList` is there exactly when some error-free var result carries it. */
  lemma {:induction false} VarsOfMembers(rs: seq<TypedStepResult>)
    ensures forall d :: d in VarsOf(rs) <==>
              exists i :: 0 <= i < |rs| && rs[i].err.None? && rs[i].result.Some? && rs[i].result.value.VarRes?
                          && d == VarEntry(rs[i].result.value.v)
  {
    if |rs| > 0 {
      var init := rs[..|rs| - 1];
      VarsOfMembers(init);
      forall d ensures d in VarsOf(rs) <==>
                 exists i :: 0 <= i < |rs| && rs[i].err.None? && rs[i].result.Some? && rs[i].result.value.VarRes?
                             && d == VarEntry(rs[i].result.value.v)
      {
        if d in VarsOf(init) {
          var i :| 0 <= i < |init| && init[i].err.None? && init[i].result.Some? && init[i].result.value.VarRes?
                   && d == VarEntry(init[i].result.value.v);
          assert rs[i] == init[i];
        }
        if exists i :: 0 <= i < |rs| && rs[i].err.None? && rs[i].result.Some? && rs[i].result.value.VarRes?
                       && d == VarEntry(rs[i].result.value.v) {
          var i :| 0 <= i < |rs| && rs[i].err.None? && rs[i].result.Some? && rs[i].result.value.VarRes?
                   && d == VarEntry(rs[i].result.value.v);
          if i < |init| {
            assert init[i] == rs[i];
          }
        }
      }
    }
  }

  /** Results visited later only add entries behind those already there, so each list is in
      results order. */
  lemma {:induction false} ListsInOrder(rs: seq<TypedStepResult>, more: seq<TypedStepResult>)
    ensures VarsOf(rs) <= VarsOf(rs + more)
    ensures ObjectsOf(rs) <= ObjectsOf(rs + more)
    ensures ReleasesOf(rs) <= ReleasesOf(rs + more)
  {
    if |more| > 0 {
      var all := rs + more;
      var init := rs + more[..|more| - 1];
      assert all[..|all| - 1] == init;
      ListsInOrder(rs, more[..|more| - 1]);
      assert VarsOf(init) <= VarsOf(all);
      assert ObjectsOf(init) <= ObjectsOf(all);
      assert ReleasesOf(init) <= ReleasesOf(all);
    } else {
      assert rs + more == rs;
    }
  }

  /** The three `PopulateStatus` wrappers: each appends one entry to its own list. */
  method PopulateWith(w: StatusWrapper, cr: KrateoPlatformOps)
    modifies cr
    ensures w.VarWrapper? ==> cr.varList == old(cr.varList) + [VarEntry(w.v)]
    ensures !w.VarWrapper? ==> cr.varList == old(cr.varList)
    ensures w.ObjectWrapper? ==> cr.objectList == old(cr.objectList) + [ObjectEntry(w.o)]
    ensures !w.ObjectWrapper? ==> cr.objectList == old(cr.objectList)
    ensures w.ChartWrapper? ==> cr.releaseList == old(cr.releaseList) + [ReleaseEntryOf(w.c)]
    ensures !w.ChartWrapper? ==> cr.releaseList == old(cr.releaseList)
    ensures cr.digest == old(cr.digest) && cr.ready == old(cr.ready) && cr.steps == old(cr.steps)
  {
    match w
    case VarWrapper(v) => cr.varList := cr.varList + [Data(v.name, v.value, None)];
    case ObjectWrapper(o) => cr.objectList := cr.objectList + [ObjectMeta(o.apiVersion, o.kind, Reference(o.name, o.namespace))];
    case ChartWrapper(c) =>
      cr.releaseList := cr.releaseList + [ReleaseEntry(c.releaseName, c.chartName, c.chartVersion, c.appVersion,
                                                       c.namespace, c.status, c.revision, c.updated)];
  }

  /** `populateStatus`: the three lists are reset, then filled in results order. */
  method PopulateStatus(cr: KrateoPlatformOps, results: seq<TypedStepResult>)
    modifies cr
    ensures cr.varList == VarsOf(results)
    ensures cr.objectList == ObjectsOf(results)
    ensures cr.releaseList == ReleasesOf(results)
    ensures cr.digest == old(cr.digest) && cr.ready == old(cr.ready) && cr.steps == old(cr.steps)
  {
    cr.objectList := [];
    cr.releaseList := [];
    cr.varList := [];
    var i := 0;
    while i < |results|
      invariant 0 <= i <= |results|
      invariant cr.varList == VarsOf(results[..i])
      invariant cr.objectList == ObjectsOf(results[..i])
      invariant cr.releaseList == ReleasesOf(results[..i])
      invariant cr.digest == old(cr.digest) && cr.ready == old(cr.ready) && cr.steps == old(cr.steps)
    {
      var result := results[i];
      assert results[..i + 1][..i] == results[..i];
      i := i + 1;
      if result.err.Some? {
        continue;
      }
      if result.result.None? {
        continue;
      }
      var wrapper := WrapResultForStatus(result.result.value);
      if wrapper.Some? {
        PopulateWith(wrapper.value, cr);
      }
    }
    assert results[..i] == results;
  }
}
