/** The older workflow controller: drift is detected step by step from the digests recorded
    in `Status.Steps`, and Update re-runs only the steps whose digest changed. */
module OldController {
  import opened Wrappers
  import opened Types
  import opened Managed
  import opened DriftSupport
  import opened Engine

  class KrateoPlatformOps {
    var steps: seq<Step>
    var status: WorkflowStatus
    /** The reason of the Ready condition, when one is set. */
    var ready: Option<Condition>
    /** `meta.IsActionAllowed` under the resource's management policy. */
    const allowed: Action -> bool

    constructor (steps: seq<Step>, status: WorkflowStatus, allowed: Action -> bool)
      ensures this.steps == steps && this.status == status && this.allowed == allowed && ready == None
    {
      this.steps := steps;
      this.status := status;
      this.allowed := allowed;
      ready := None;
    }
  }

  // ---------------------------------------------------------------- status rebuilding

  /** The status entry written for one result: its id, its digest and its error text. */
  function EntryOf(x: StepResult): (e: StepStatus)
    ensures e.id == Some(x.id) && e.digest == Some(x.digest)
    ensures e.err.Some? <==> x.err.Some?
  {
    StepStatus(Some(x.id), Some(x.digest), if x.err.Some? then Some(x.err.value.msg) else None)
  }

  /** AS WRITTEN: a fresh map holding one entry per result, keyed by the result's id; a later
      result with the same id overwrites an earlier one. */
  function Rebuilt(results: seq<StepResult>): WorkflowStatus {
    if |results| == 0 then map[]
    else
      var last := results[|results| - 1];
      Rebuilt(results[..|results| - 1])[last.id := EntryOf(last)]
  }

  /** CORRECTED: the results of the steps that ran are merged into the recorded status; the
      zero slots of skipped steps leave the entries already there alone. */
  function Merged(status: WorkflowStatus, results: seq<StepResult>): WorkflowStatus {
    if |results| == 0 then status
    else
      var last := results[|results| - 1];
      var m := Merged(status, results[..|results| - 1]);
      if last.id == "" then m else m[last.id := EntryOf(last)]
  }

  /** The rebuilding loop of Create and Update. */
  method RebuildStatus(results: seq<StepResult>) returns (st: WorkflowStatus)
    ensures st == Rebuilt(results)
    ensures KeyedById(st)
    ensures forall k :: k in st <==> exists j :: 0 <= j < |results| && results[j].id == k
  {
    st := map[];
    for i := 0 to |results|
      invariant st == Rebuilt(results[..i])
    {
      assert results[..i + 1][..i] == results[..i];
      st := st[results[i].id := EntryOf(results[i])];
    }
    assert results[..|results|] == results;
    RebuiltKeys(results);
  }

  /** The corrected rebuilding loop used by Update. */
  method MergeStatus(status: WorkflowStatus, results: seq<StepResult>) returns (st: WorkflowStatus)
    ensures st == Merged(status, results)
    ensures KeyedById(status) ==> KeyedById(st)
  {
    st := status;
    for i := 0 to |results|
      invariant st == Merged(status, results[..i])
    {
      assert results[..i + 1][..i] == results[..i];
      if results[i].id != "" {
        st := st[results[i].id := EntryOf(results[i])];
      }
    }
    assert results[..|results|] == results;
    if KeyedById(status) {
      MergedKeyed(status, results);
    }
  }

  /** The rebuilt map has a key exactly for each result id, and is keyed by id. */
  lemma {:induction false} RebuiltKeys(results: seq<StepResult>)
    ensures KeyedById(Rebuilt(results))
    ensures forall k :: k in Rebuilt(results) <==> exists j :: 0 <= j < |results| && results[j].id == k
  {
    if |results| > 0 {
      var init := results[..|results| - 1];
      RebuiltKeys(init);
      forall k ensures k in Rebuilt(results) <==> exists j :: 0 <= j < |results| && results[j].id == k {
        if k in Rebuilt(init) {
          var j :| 0 <= j < |init| && init[j].id == k;
          assert results[j] == init[j];
        }
        if exists j :: 0 <= j < |results| && results[j].id == k {
          var j :| 0 <= j < |results| && results[j].id == k;
          if j < |init| {
            assert init[j] == results[j];
          }
        }
      }
    }
  }

  /** The entry of a result whose id no later result repeats is that result's entry. */
  lemma {:induction false} RebuiltAt(results: seq<StepResult>, j: nat)
    requires j < |results|
    requires forall i :: j < i < |results| ==> results[i].id != results[j].id
    ensures results[j].id in Rebuilt(results) && Rebuilt(results)[results[j].id] == EntryOf(results[j])
  {
    if j < |results| - 1 {
      var init := results[..|results| - 1];
      assert forall i :: j < i < |init| ==> init[i] == results[i];
      RebuiltAt(init, j);
    }
  }

  /** Merging keeps the keying by id. */
  lemma {:induction false} MergedKeyed(status: WorkflowStatus, results: seq<StepResult>)
    requires KeyedById(status)
    ensures KeyedById(Merged(status, results))
  {
    if |results| > 0 {
      MergedKeyed(status, results[..|results| - 1]);
    }
  }

  /** An entry that no result names is kept as it was. */
  lemma {:induction false} MergedKeeps(status: WorkflowStatus, results: seq<StepResult>, k: string)
    requires k in status
    requires forall i :: 0 <= i < |results| ==> results[i].id != k
    ensures k in Merged(status, results) && Merged(status, results)[k] == status[k]
  {
    if |results| > 0 {
      MergedKeeps(status, results[..|results| - 1], k);
    }
  }

  /** A result with a non-empty id that no later result repeats leaves its own entry. */
  lemma {:induction false} MergedAt(status: WorkflowStatus, results: seq<StepResult>, j: nat)
    requires j < |results| && results[j].id != ""
    requires forall i :: j < i < |results| ==> results[i].id != results[j].id
    ensures results[j].id in Merged(status, results)
    ensures Merged(status, results)[results[j].id] == EntryOf(results[j])
  {
    if j < |results| - 1 {
      var init := results[..|results| - 1];
      assert forall i :: j < i < |init| ==> init[i] == results[i];
      MergedAt(status, init, j);
    }
  }

  // ---------------------------------------------------------------- drift after a run

  /** What a run without failures leaves in slot `i`: the zero result of a skipped step, or the
      id and digest of the step that ran. */
  predicate RanOrSkipped(hash: Hash64, steps: seq<Step>, results: seq<StepResult>) {
    |results| == |steps|
    && forall i :: 0 <= i < |steps| ==>
         results[i] == Zero || results[i] == StepResult(steps[i].id, Digest(steps[i], hash), None)
  }

  /** Step ids are non-empty and pairwise different, and every payload is non-empty. */
  predicate WellFormedSpec(steps: seq<Step>) {
    (forall i :: 0 <= i < |steps| ==> steps[i].id != "" && |Raw(steps[i])| > 0)
    && (forall a, b :: 0 <= a < b < |steps| ==> steps[a].id != steps[b].id)
  }

  /** Every step is handed to its handler as it is: the chart rewrite of `Run` leaves it
      alone (always so for var and object steps; for a chart step, when decoding, filling in
      MaxHistory and encoding give back the same bytes). */
  predicate Unrewritten(cfg: Config, steps: seq<Step>) {
    forall i :: 0 <= i < |steps| ==> PrepareChart(cfg, steps[i]).step == steps[i]
  }

  /** In a run of the engine that ends without an error, a skipped step leaves the zero slot
      and every other step records its id and the digest of the payload it was handed. */
  lemma RunSlot(cfg: Config, skip: Step -> bool, steps: seq<Step>, trace: seq<Call>, k: nat)
    requires !cfg.op.Delete? && k < |steps|
    requires ErrOf(RunSpec(cfg, skip, steps, trace).results).None?
    ensures var r := RunSpec(cfg, skip, steps, trace).results;
            (skip(steps[k]) ==> r[k] == Zero)
            && (!skip(steps[k]) ==>
                  r[k] == StepResult(steps[k].id, Digest(PrepareChart(cfg, steps[k]).step, cfg.hash), None))
  {
    var s0 := Start(cfg, steps, trace);
    Slot(cfg, skip, steps, trace, k);
    RunErrIffStopped(cfg, skip, steps, trace);
    if Iterate(cfg, skip, s0, k).stopped {
      StoppedStays(cfg, skip, s0, k, |steps|);
      assert false;
    }
    assert s0.steps[k] == steps[k];
    var r := RunSpec(cfg, skip, steps, trace).results;
    assert r[k].err.None?;
  }

  /** A run that ends without an error and rewrites no step leaves, slot by slot, what
      `RanOrSkipped` describes. */
  lemma RunRanOrSkipped(cfg: Config, skip: Step -> bool, steps: seq<Step>, trace: seq<Call>)
    requires !cfg.op.Delete? && Unrewritten(cfg, steps)
    requires ErrOf(RunSpec(cfg, skip, steps, trace).results).None?
    ensures RanOrSkipped(cfg.hash, steps, RunSpec(cfg, skip, steps, trace).results)
  {
    RunShape(cfg, skip, steps, trace);
    forall k | 0 <= k < |steps|
      ensures var r := RunSpec(cfg, skip, steps, trace).results;
              r[k] == Zero || r[k] == StepResult(steps[k].id, Digest(steps[k], cfg.hash), None)
    {
      RunSlot(cfg, skip, steps, trace, k);
    }
  }

  /** When every step's id maps to its current digest, nothing is listed for update. */
  lemma {:induction false} NoneStale(hash: Hash64, steps: seq<Step>, dm: map<string, string>)
    requires forall i :: 0 <= i < |steps| ==> steps[i].id in dm && dm[steps[i].id] == Digest(steps[i], hash)
    ensures ToUpdate(hash, steps, dm) == []
  {
    if |steps| > 0 {
      var init := steps[..|steps| - 1];
      assert forall i :: 0 <= i < |init| ==> init[i] == steps[i];
      NoneStale(hash, init, dm);
    }
  }

  /** No result other than the zero one carries the id of a step that was skipped. */
  lemma SkippedIdUnused(hash: Hash64, steps: seq<Step>, results: seq<StepResult>, i: nat)
    requires RanOrSkipped(hash, steps, results) && WellFormedSpec(steps)
    requires i < |steps| && results[i] == Zero
    ensures forall j :: 0 <= j < |results| ==> results[j].id != steps[i].id
  {
    forall j | 0 <= j < |results|
      ensures results[j].id != steps[i].id
    {
      if j != i && results[j] != Zero {
        assert results[j].id == steps[j].id;
      }
    }
  }

  /** AS WRITTEN: after a successful run, a step the run skipped has no entry in the map
      rebuilt from the results (its zero slot is stored under ""), so the next Observe lists
      it again. */
  lemma RebuiltForgetsSkipped(cfg: Config, skip: Step -> bool, steps: seq<Step>, trace: seq<Call>, i: nat)
    requires WellFormedSpec(steps) && !cfg.op.Delete? && Unrewritten(cfg, steps)
    requires ErrOf(RunSpec(cfg, skip, steps, trace).results).None?
    requires i < |steps| && skip(steps[i])
    ensures var results := RunSpec(cfg, skip, steps, trace).results;
            steps[i].id !in Rebuilt(results)
            && steps[i].id in ToUpdate(cfg.hash, steps, RecordedDigests(Rebuilt(results)))
  {
    var results := RunSpec(cfg, skip, steps, trace).results;
    RunRanOrSkipped(cfg, skip, steps, trace);
    RunSlot(cfg, skip, steps, trace, i);
    RebuiltKeys(results);
    SkippedIdUnused(cfg.hash, steps, results, i);
    assert Stale(cfg.hash, RecordedDigests(Rebuilt(results)), steps[i]);
    ToUpdateMembers(cfg.hash, steps, RecordedDigests(Rebuilt(results)));
  }

  /** Results that record every step's current digest rebuild a status under which nothing
      is stale. */
  lemma RebuiltUpToDate(hash: Hash64, steps: seq<Step>, results: seq<StepResult>)
    requires WellFormedSpec(steps) && |results| == |steps|
    requires forall i :: 0 <= i < |steps| ==> results[i] == StepResult(steps[i].id, Digest(steps[i], hash), None)
    ensures KeyedById(Rebuilt(results))
    ensures ToUpdate(hash, steps, RecordedDigests(Rebuilt(results))) == []
  {
    RebuiltKeys(results);
    var rd := RecordedDigests(Rebuilt(results));
    forall i | 0 <= i < |steps|
      ensures steps[i].id in rd && rd[steps[i].id] == Digest(steps[i], hash)
    {
      RebuiltAt(results, i);
      assert Recorded(Rebuilt(results)[steps[i].id]);
    }
    NoneStale(hash, steps, rd);
  }

  /** A step that ran leaves its current digest in the merged map. */
  lemma MergedRecordsRan(hash: Hash64, steps: seq<Step>, status: WorkflowStatus, results: seq<StepResult>, i: nat)
    requires WellFormedSpec(steps) && RanOrSkipped(hash, steps, results)
    requires i < |steps| && results[i] != Zero
    ensures var rd := RecordedDigests(Merged(status, results));
            steps[i].id in rd && rd[steps[i].id] == Digest(steps[i], hash)
  {
    assert results[i] == StepResult(steps[i].id, Digest(steps[i], hash), None);
    MergedAt(status, results, i);
    assert Recorded(Merged(status, results)[steps[i].id]);
  }

  /** A skipped step that was up to date keeps its recorded digest in the merged map. */
  lemma MergedRecordsSkipped(hash: Hash64, steps: seq<Step>, status: WorkflowStatus, results: seq<StepResult>, i: nat)
    requires KeyedById(status) && WellFormedSpec(steps) && RanOrSkipped(hash, steps, results)
    requires i < |steps| && results[i] == Zero && !Stale(hash, RecordedDigests(status), steps[i])
    ensures var rd := RecordedDigests(Merged(status, results));
            steps[i].id in rd && rd[steps[i].id] == Digest(steps[i], hash)
  {
    SkippedIdUnused(hash, steps, results, i);
    MergedKeeps(status, results, steps[i].id);
    assert Recorded(Merged(status, results)[steps[i].id]);
  }

  /** When every stale step ran and succeeded, merging the results into the recorded status
      leaves nothing stale. */
  lemma MergedUpToDate(hash: Hash64, steps: seq<Step>, status: WorkflowStatus, results: seq<StepResult>)
    requires KeyedById(status) && WellFormedSpec(steps) && RanOrSkipped(hash, steps, results)
    requires forall i :: 0 <= i < |steps| && Stale(hash, RecordedDigests(status), steps[i]) ==> results[i] != Zero
    ensures KeyedById(Merged(status, results))
    ensures ToUpdate(hash, steps, RecordedDigests(Merged(status, results))) == []
  {
    MergedKeyed(status, results);
    var rd := RecordedDigests(Merged(status, results));
    forall i | 0 <= i < |steps|
      ensures steps[i].id in rd && rd[steps[i].id] == Digest(steps[i], hash)
    {
      if results[i] != Zero {
        MergedRecordsRan(hash, steps, status, results, i);
      } else {
        MergedRecordsSkipped(hash, steps, status, results, i);
      }
    }
    NoneStale(hash, steps, rd);
  }

  /** A successful Create through the engine, which skips no step, leaves a rebuilt status
      under which nothing is stale, for a spec whose steps the chart rewrite hands on as they
      are. */
  lemma CreatedIsUpToDate(cfg: Config, steps: seq<Step>, trace: seq<Call>)
    requires WellFormedSpec(steps) && !cfg.op.Delete? && Unrewritten(cfg, steps)
    requires ErrOf(RunSpec(cfg, NeverSkip(), steps, trace).results).None?
    ensures var results := RunSpec(cfg, NeverSkip(), steps, trace).results;
            KeyedById(Rebuilt(results)) && ToUpdate(cfg.hash, steps, RecordedDigests(Rebuilt(results))) == []
  {
    var results := RunSpec(cfg, NeverSkip(), steps, trace).results;
    RunShape(cfg, NeverSkip(), steps, trace);
    forall i | 0 <= i < |steps|
      ensures results[i] == StepResult(steps[i].id, Digest(steps[i], cfg.hash), None)
    {
      RunSlot(cfg, NeverSkip(), steps, trace, i);
    }
    RebuiltUpToDate(cfg.hash, steps, results);
  }

  /** AS WRITTEN, for chart steps: a chart step whose rewritten payload has another digest than
      the one in the spec is recorded under the rewritten digest by a successful Create, so the
      next Observe lists it as changed. */
  lemma CreatedChartListedAgain(cfg: Config, steps: seq<Step>, trace: seq<Call>, i: nat)
    requires WellFormedSpec(steps) && !cfg.op.Delete?
    requires ErrOf(RunSpec(cfg, NeverSkip(), steps, trace).results).None?
    requires i < |steps| && Digest(PrepareChart(cfg, steps[i]).step, cfg.hash) != Digest(steps[i], cfg.hash)
    ensures var results := RunSpec(cfg, NeverSkip(), steps, trace).results;
            steps[i].id in ToUpdate(cfg.hash, steps, RecordedDigests(Rebuilt(results)))
  {
    var results := RunSpec(cfg, NeverSkip(), steps, trace).results;
    RunShape(cfg, NeverSkip(), steps, trace);
    RunSlot(cfg, NeverSkip(), steps, trace, i);
    forall j | i < j < |results|
      ensures results[j].id != results[i].id
    {
      RunSlot(cfg, NeverSkip(), steps, trace, j);
    }
    RebuiltAt(results, i);
    var rd := RecordedDigests(Rebuilt(results));
    assert Stale(cfg.hash, rd, steps[i]);
    ToUpdateMembers(cfg.hash, steps, rd);
  }

  /** CORRECTED: when Update runs the listed steps through the engine and every one succeeds,
      merging the results into the recorded status leaves nothing stale, so the next Observe
      reports the resource up to date (for a spec whose steps the chart rewrite hands on as
      they are). */
  lemma MergedUpdateConverges(cfg: Config, steps: seq<Step>, status: WorkflowStatus, trace: seq<Call>)
    requires KeyedById(status) && WellFormedSpec(steps) && !cfg.op.Delete? && Unrewritten(cfg, steps)
    requires var all := ToUpdate(cfg.hash, steps, RecordedDigests(status));
             ErrOf(RunSpec(cfg, SkipUnlisted(all), steps, trace).results).None?
    ensures var all := ToUpdate(cfg.hash, steps, RecordedDigests(status));
            var results := RunSpec(cfg, SkipUnlisted(all), steps, trace).results;
            KeyedById(Merged(status, results))
            && ToUpdate(cfg.hash, steps, RecordedDigests(Merged(status, results))) == []
  {
    var all := ToUpdate(cfg.hash, steps, RecordedDigests(status));
    var results := RunSpec(cfg, SkipUnlisted(all), steps, trace).results;
    RunRanOrSkipped(cfg, SkipUnlisted(all), steps, trace);
    ToUpdateMembers(cfg.hash, steps, RecordedDigests(status));
    forall i | 0 <= i < |steps| && Stale(cfg.hash, RecordedDigests(status), steps[i])
      ensures results[i] != Zero
    {
      assert steps[i].id in all;
      RunSlot(cfg, SkipUnlisted(all), steps, trace, i);
    }
    MergedUpToDate(cfg.hash, steps, status, results);
  }

  /** The two var steps of the oscillation below. */
  const StepA: Step := Step("a", TypeVar, Some([1]))
  const StepB: Step := Step("b", TypeVar, Some([2]))

  /** The list for a two-step spec, one stale test per step. */
  lemma ToUpdatePair(hash: Hash64, a: Step, b: Step, dm: map<string, string>)
    ensures ToUpdate(hash, [a, b], dm)
            == (if Stale(hash, dm, a) then [a.id] else []) + (if Stale(hash, dm, b) then [b.id] else [])
  {
    assert [a, b][..1] == [a];
    assert [a][..0] == [];
  }

  /** The recorded status before the oscillation: "a" current, "b" changed since. */
  function StatusBefore(hash: Hash64): WorkflowStatus {
    map["a" := EntryOf(StepResult("a", Digest(StepA, hash), None)), "b" := StepStatus(Some("b"), Some("x"), None)]
  }

  /** The results of a run that executes only "b", and of one that executes only "a". */
  function RunOfB(hash: Hash64): seq<StepResult> {
    [Zero, StepResult("b", Digest(StepB, hash), None)]
  }

  function RunOfA(hash: Hash64): seq<StepResult> {
    [StepResult("a", Digest(StepA, hash), None), Zero]
  }

  lemma BeforeListsB(hash: Hash64)
    ensures ToUpdate(hash, [StepA, StepB], RecordedDigests(StatusBefore(hash))) == ["b"]
  {
    var rd := RecordedDigests(StatusBefore(hash));
    assert |Raw(StepA)| > 0;
    assert "a" in rd && rd["a"] == Digest(StepA, hash);
    assert !Hex.IsHexDigit('x');
    assert "b" in rd && rd["b"] != Digest(StepB, hash);
    ToUpdatePair(hash, StepA, StepB, rd);
  }

  lemma RebuiltAfterBListsA(hash: Hash64)
    ensures ToUpdate(hash, [StepA, StepB], RecordedDigests(Rebuilt(RunOfB(hash)))) == ["a"]
  {
    var r := RunOfB(hash);
    RebuiltKeys(r);
    RebuiltAt(r, 1);
    var rd := RecordedDigests(Rebuilt(r));
    assert |Raw(StepB)| > 0;
    assert "a" !in Rebuilt(r);
    assert "b" in rd && rd["b"] == Digest(StepB, hash);
    ToUpdatePair(hash, StepA, StepB, rd);
  }

  lemma RebuiltAfterAListsB(hash: Hash64)
    ensures ToUpdate(hash, [StepA, StepB], RecordedDigests(Rebuilt(RunOfA(hash)))) == ["b"]
  {
    var r := RunOfA(hash);
    RebuiltKeys(r);
    RebuiltAt(r, 0);
    var rd := RecordedDigests(Rebuilt(r));
    assert |Raw(StepA)| > 0;
    assert Recorded(Rebuilt(r)["a"]);
    assert "a" in rd && rd["a"] == Digest(StepA, hash);
    assert "b" !in Rebuilt(r);
    ToUpdatePair(hash, StepA, StepB, rd);
  }

  /** AS WRITTEN, an input that shows the discrepancy: two var steps, the second one changed.
      Update runs only "b"; the rebuilt map then lists "a", the next Update runs only "a", and
      the map after it lists "b" again, for ever. Merging the first run's results instead
      lists nothing. */
  lemma UpdateOscillates(hash: Hash64)
    ensures ToUpdate(hash, [StepA, StepB], RecordedDigests(StatusBefore(hash))) == ["b"]
    ensures ToUpdate(hash, [StepA, StepB], RecordedDigests(Rebuilt(RunOfB(hash)))) == ["a"]
    ensures ToUpdate(hash, [StepA, StepB], RecordedDigests(Rebuilt(RunOfA(hash)))) == ["b"]
    ensures ToUpdate(hash, [StepA, StepB], RecordedDigests(Merged(StatusBefore(hash), RunOfB(hash)))) == []
  {
    BeforeListsB(hash);
    RebuiltAfterBListsA(hash);
    RebuiltAfterAListsB(hash);
    MergedAfterBListsNothing(hash);
  }

  lemma MergedAfterBListsNothing(hash: Hash64)
    ensures ToUpdate(hash, [StepA, StepB], RecordedDigests(Merged(StatusBefore(hash), RunOfB(hash)))) == []
  {
    var steps := [StepA, StepB];
    var r := RunOfB(hash);
    assert WellFormedSpec(steps);
    assert RanOrSkipped(hash, steps, r);
    assert KeyedById(StatusBefore(hash));
    MergedUpToDate(hash, steps, StatusBefore(hash), r);
  }

  // ---------------------------------------------------------------- the controller

  /** What Observe reports, given the digest map `dm` built from the status. */
  function Observed(hash: Hash64, steps: seq<Step>, status: WorkflowStatus, dm: map<string, string>): Observation {
    if RecordedDigests(status) == map[] then Observation(false, true)
    else Observation(true, ToUpdate(hash, steps, dm) == [])
  }

  /** The digest map is empty exactly when no entry of the status is recorded. */
  lemma DigestMapEmpty(status: WorkflowStatus, got: map<string, string>)
    requires IsDigestMap(status, got)
    ensures |got| == 0 <==> RecordedDigests(status) == map[]
  {
    if |got| != 0 {
      var id :| id in got;
      var k :| k in status && Recorded(status[k]) && status[k].id.value == id;
      assert k in RecordedDigests(status);
    }
    if RecordedDigests(status) != map[] {
      var k :| k in RecordedDigests(status);
      assert status[k].id.value in got;
    }
  }

  /** The step list that Update hands to the workflow marks for skipping every step whose id is
      not listed. */
  function SkipUnlisted(all: seq<string>): (skip: Step -> bool)
    ensures forall s :: skip(s) <==> s.id !in all
  {
    (s: Step) => s.id !in all
  }

  class External {
    /** The workflow `Connect` builds for the resource; this controller never sets its
        operation, so it keeps the one `New` gives it. */
    const wf: Workflow
    /** The status update sent to the API server: the steps map and the Ready condition. */
    const persist: (WorkflowStatus, Option<Condition>) -> Option<Error>

    constructor (wf: Workflow, persist: (WorkflowStatus, Option<Condition>) -> Option<Error>)
      ensures this.wf == wf && this.persist == persist
    {
      this.wf := wf;
      this.persist := persist;
    }

    /** `e.wf.Run(ctx, cr.Spec.DeepCopy(), skip)`: the workflow runs on a copy of the steps. */
    method RunCopy(steps: seq<Step>, skip: Step -> bool) returns (results: seq<StepResult>)
      requires PayloadsPresent(wf.Cfg(), skip, steps, wf.trace)
      modifies wf, wf.reg.Values
      ensures wf.ns == old(wf.ns) && wf.op == old(wf.op) && wf.reg == old(wf.reg) && wf.maxHistory == old(wf.maxHistory)
      ensures results == RunSpec(old(wf.Cfg()), skip, steps, old(wf.trace)).results
    {
      var copy := new Step[|steps|](i requires 0 <= i < |steps| => steps[i]);
      assert copy[..] == steps;
      results := wf.Run(copy, skip);
    }

    /** `Observe`: nothing recorded means not created yet; otherwise up to date iff no step is listed. */
    method Observe(cr: KrateoPlatformOps) returns (obs: Observation, ghost dm: map<string, string>)
      ensures IsDigestMap(cr.status, dm)
      ensures obs == Observed(wf.hash, cr.steps, cr.status, dm)
      ensures KeyedById(cr.status) ==> obs == Observed(wf.hash, cr.steps, cr.status, RecordedDigests(cr.status))
    {
      var got := CurrentDigestMap(cr.status);
      DigestMapEmpty(cr.status, got);
      var exp;
      exp, dm := ListOfStepIdToUpdate(wf.hash, cr.status, cr.steps);
      if KeyedById(cr.status) {
        DigestMapKeyed(cr.status, dm);
      }
      if |got| == 0 {
        return Observation(false, true), dm;
      }
      obs := Observation(true, |exp| == 0);
    }

    /** `Create`: every step runs; on success the steps map is rebuilt from the results. */
    method Create(cr: KrateoPlatformOps) returns (err: Option<Error>)
      requires cr.allowed(ActionCreate) ==> PayloadsPresent(wf.Cfg(), NeverSkip(), cr.steps, wf.trace)
      modifies cr, wf, wf.reg.Values
      ensures cr.steps == old(cr.steps)
      ensures !cr.allowed(ActionCreate) ==> err.None? && cr.status == old(cr.status) && cr.ready == old(cr.ready)
      ensures cr.allowed(ActionCreate) ==>
                var results := RunSpec(old(wf.Cfg()), NeverSkip(), cr.steps, old(wf.trace)).results;
                cr.ready == Some(Creating)
                && (ErrOf(results).Some? ==> err == ErrOf(results) && cr.status == old(cr.status))
                && (ErrOf(results).None? ==> cr.status == Rebuilt(results) && err == persist(cr.status, cr.ready))
    {
      if !cr.allowed(ActionCreate) {
        return None;
      }
      cr.ready := Some(Creating);
      var results := RunCopy(cr.steps, NeverSkip());
      err := Err(results);
      if err.Some? {
        return err;
      }
      var st := RebuildStatus(results);
      cr.status := st;
      err := persist(cr.status, cr.ready);
    }

    /** `Update`: works on a copy of the resource and writes the copy's status, so the resource
        in hand is not changed; `written` is the steps map sent with the status update. Only the
        listed steps run, and the map is rebuilt from their results, as in Create. */
    method Update(cr: KrateoPlatformOps) returns (err: Option<Error>, written: Option<WorkflowStatus>, ghost dm: map<string, string>)
      requires cr.allowed(ActionUpdate) ==>
                 forall got | IsDigestMap(cr.status, got) ::
                   PayloadsPresent(wf.Cfg(), SkipUnlisted(ToUpdate(wf.hash, cr.steps, got)), cr.steps, wf.trace)
      modifies wf, wf.reg.Values
      ensures !cr.allowed(ActionUpdate) ==> err.None? && written.None?
      ensures cr.allowed(ActionUpdate) ==>
                IsDigestMap(cr.status, dm)
                && var all := ToUpdate(wf.hash, cr.steps, dm);
                   (all == [] ==> err.None? && written.None?)
                   && (all != [] ==>
                         var results := RunSpec(old(wf.Cfg()), SkipUnlisted(all), cr.steps, old(wf.trace)).results;
                         (ErrOf(results).Some? ==> err == ErrOf(results) && written.None?)
                         && (ErrOf(results).None? ==>
                               written == Some(Rebuilt(results)) && err == persist(written.value, cr.ready)))
    {
      if !cr.allowed(ActionUpdate) {
        return None, None, map[];
      }
      var all;
      all, dm := ListOfStepIdToUpdate(wf.hash, cr.status, cr.steps);
      if |all| == 0 {
        return None, None, dm;
      }
      var results := RunCopy(cr.steps, SkipUnlisted(all));
      err := Err(results);
      if err.Some? {
        return err, None, dm;
      }
      var st := RebuildStatus(results);
      written := Some(st);
      err := persist(st, cr.ready);
    }

    /** `Delete`: runs no step; when allowed it only sets the Deleting condition. */
    method Delete(cr: KrateoPlatformOps) returns (err: Option<Error>)
      modifies cr
      ensures err.None? && cr.steps == old(cr.steps) && cr.status == old(cr.status)
      ensures cr.ready == (if cr.allowed(ActionDelete) then Some(Deleting) else old(cr.ready))
    {
      if cr.allowed(ActionDelete) {
        cr.ready := Some(Deleting);
      }
      return None;
    }
  }
}

/** The installer controller: one aggregate digest over all the steps decides drift, and
    every Create or Update runs the whole workflow and repopulates the status lists. */
module InstallerController {
  import opened Wrappers
  import opened Types
  import opened Steps
  import opened Managed
  import opened InstallerResource
  import opened InstallerStatus
  import opened AggregateDigest

  /** The installer's workflow engine: `run` takes the op, the steps and a skip predicate, and
      `errOf` is its `Err` over the results. */
  datatype Workflow = Workflow(
    run: (Op, seq<Step>, Step -> bool) -> seq<TypedStepResult>,
    errOf: seq<TypedStepResult> -> Option<Error>)

  /** The status left behind and the error returned by one reconcile operation. */
  datatype Outcome = Outcome(status: CrStatus, err: Option<Error>)

  /** What Observe reports for the recorded digest, the deletion mark, the Ready reason and
      the aggregate digest of the steps as they are now. */
  function Observed(digest: string, deleted: bool, ready: Option<Condition>, expected: string): Observation {
    if digest == "" && deleted && ready == Some(Deleting) then Observation(false, true)
    else Observation(true, expected == digest)
  }

  /** A resource whose deletion finished is gone; any other resource exists and is up to
      date exactly when its recorded digest is the current aggregate, so one that has never
      recorded a digest is never up to date. */
  lemma ObserveCases(hash: Hash64, steps: seq<Step>, digest: string, deleted: bool, ready: Option<Condition>)
    ensures var o := Observed(digest, deleted, ready, Aggregate(hash, steps));
            (digest == "" && deleted && ready == Some(Deleting) ==> o == Observation(false, true))
            && (!(digest == "" && deleted && ready == Some(Deleting)) ==>
                  o.resourceExists && (o.resourceUpToDate <==> digest == Aggregate(hash, steps)))
            && (digest == "" && !(deleted && ready == Some(Deleting)) ==> o == Observation(true, false))
  {
    AggregateIsHex(hash, steps);
  }

  /** Delete skips exactly the var steps. */
  function DeleteSkip(): (skip: Step -> bool)
    ensures forall s :: skip(s) <==> s.stepType == TypeVar
  {
    (s: Step) => s.stepType == TypeVar
  }

  /** Create or Update of a resource in status `st`: the guards, the Creating status write,
      the run, and on success the repopulated lists, the Available reason and the new digest. */
  function Reconciled(wf: Workflow, persist: CrStatus -> Option<Error>, hash: Hash64, steps: seq<Step>,
                      st: CrStatus, deleted: bool, allowed: bool, op: Op): Outcome
  {
    if deleted || !allowed then Outcome(st, None)
    else
      var creating := st.(ready := Some(Creating));
      if persist(creating).Some? then Outcome(creating, persist(creating))
      else
        var results := wf.run(op, steps, NeverSkip());
        if wf.errOf(results).Some? then Outcome(creating, wf.errOf(results))
        else
          var done := CrStatus(Aggregate(hash, steps), ObjectsOf(results), ReleasesOf(results), VarsOf(results), Some(Available));
          Outcome(done, persist(done))
  }

  /** Delete of a resource in status `st`: the guard, the Deleting status write, the run that
      skips the var steps, and on success the cleared digest. */
  function Deleted(wf: Workflow, persist: CrStatus -> Option<Error>, steps: seq<Step>, st: CrStatus, allowed: bool): Outcome {
    if !allowed then Outcome(st, None)
    else
      var deleting := st.(ready := Some(Deleting));
      if persist(deleting).Some? then Outcome(deleting, persist(deleting))
      else
        var results := wf.run(Delete, steps, DeleteSkip());
        if wf.errOf(results).Some? then Outcome(deleting, wf.errOf(results))
        else
          var done := deleting.(digest := "");
          Outcome(done, persist(done))
  }

  /** A deleted resource, or an action the policy forbids, leaves the status alone and runs nothing. */
  lemma ReconcileGuards(wf: Workflow, persist: CrStatus -> Option<Error>, hash: Hash64, steps: seq<Step>,
                        st: CrStatus, deleted: bool, allowed: bool, op: Op)
    requires deleted || !allowed
    ensures Reconciled(wf, persist, hash, steps, st, deleted, allowed, op) == Outcome(st, None)
  {
  }

  /** Whenever a reconcile returns an error before the run has succeeded, the digest and the
      three lists are those it started with, so the next Observe still sees the drift. */
  lemma ReconcileFailureKeepsDigest(wf: Workflow, persist: CrStatus -> Option<Error>, hash: Hash64, steps: seq<Step>,
                                    st: CrStatus, deleted: bool, allowed: bool, op: Op)
    ensures var o := Reconciled(wf, persist, hash, steps, st, deleted, allowed, op);
            o.status.digest != st.digest ==> wf.errOf(wf.run(op, steps, NeverSkip())).None?
    ensures var o := Reconciled(wf, persist, hash, steps, st, deleted, allowed, op);
            (deleted || !allowed || persist(st.(ready := Some(Creating))).Some? || wf.errOf(wf.run(op, steps, NeverSkip())).Some?)
            ==> o.status.digest == st.digest && o.status.objectList == st.objectList
                && o.status.releaseList == st.releaseList && o.status.varList == st.varList
  {
  }

  /** After a successful Create or Update the next Observe of the same steps reports the
      resource existing and up to date, and the lists hold exactly the successful results. */
  lemma ReconcileThenObserve(wf: Workflow, persist: CrStatus -> Option<Error>, hash: Hash64, steps: seq<Step>,
                             st: CrStatus, op: Op)
    requires persist(st.(ready := Some(Creating))).None?
    requires wf.errOf(wf.run(op, steps, NeverSkip())).None?
    ensures var o := Reconciled(wf, persist, hash, steps, st, false, true, op);
            var results := wf.run(op, steps, NeverSkip());
            Observed(o.status.digest, false, o.status.ready, Aggregate(hash, steps)) == Observation(true, true)
            && o.status.varList == VarsOf(results) && o.status.objectList == ObjectsOf(results)
            && o.status.releaseList == ReleasesOf(results)
  {
  }

  /** After a successful Delete of a resource marked for deletion, Observe reports it gone;
      a failed Delete keeps the digest, so the resource is still reported as existing. */
  lemma DeleteThenObserve(wf: Workflow, persist: CrStatus -> Option<Error>, hash: Hash64, steps: seq<Step>, st: CrStatus)
    requires persist(st.(ready := Some(Deleting))).None?
    ensures var o := Deleted(wf, persist, steps, st, true);
            wf.errOf(wf.run(Delete, steps, DeleteSkip())).None? ==>
              o.status.digest == "" && Observed(o.status.digest, true, o.status.ready, Aggregate(hash, steps)) == Observation(false, true)
    ensures var o := Deleted(wf, persist, steps, st, true);
            wf.errOf(wf.run(Delete, steps, DeleteSkip())).Some? ==>
              o.err.Some? && o.status.digest == st.digest
              && (st.digest != "" ==> Observed(o.status.digest, true, o.status.ready, Aggregate(hash, steps)).resourceExists)
  {
  }

  class External {
    const wf: Workflow
    const hash: Hash64
    /** The status update sent to the API server. */
    const persist: CrStatus -> Option<Error>

    constructor (wf: Workflow, hash: Hash64, persist: CrStatus -> Option<Error>)
      ensures this.wf == wf && this.hash == hash && this.persist == persist
    {
      this.wf := wf;
      this.hash := hash;
      this.persist := persist;
    }

    /** `Observe`: compares the recorded digest with the aggregate of the steps, and sets the
        Available reason when they agree. */
    method Observe(cr: KrateoPlatformOps) returns (obs: Observation)
      modifies cr`ready
      ensures obs == Observed(cr.digest, cr.deleted, old(cr.ready), Aggregate(hash, cr.steps))
      ensures cr.ready == (if obs == Observation(true, true) then Some(Available) else old(cr.ready))
    {
      var got := cr.digest;
      if |got| == 0 && cr.deleted && cr.ready == Some(Deleting) {
        return Observation(false, true);
      }
      var exp := DigestForSteps(hash, cr.steps);
      if exp == got {
        cr.ready := Some(Available);
        return Observation(true, true);
      }
      AggregateIsHex(hash, cr.steps);
      return Observation(true, false);
    }

    /** The part Create and Update share once the guards passed. */
    method RunAndRecord(cr: KrateoPlatformOps, op: Op) returns (err: Option<Error>)
      requires !cr.deleted
      modifies cr
      ensures cr.steps == old(cr.steps)
      ensures Outcome(cr.Status(), err)
              == Reconciled(wf, persist, hash, cr.steps, old(cr.Status()), cr.deleted, true, op)
    {
      cr.ready := Some(Creating);
      err := persist(cr.Status());
      if err.Some? {
        return err;
      }
      var results := wf.run(op, cr.steps, NeverSkip());
      err := wf.errOf(results);
      if err.Some? {
        return err;
      }
      PopulateStatus(cr, results);
      cr.ready := Some(Available);
      var d := DigestForSteps(hash, cr.steps);
      cr.digest := d;
      err := persist(cr.Status());
    }

    /** `Create`. */
    method Create(cr: KrateoPlatformOps) returns (err: Option<Error>)
      modifies cr
      ensures cr.steps == old(cr.steps)
      ensures Outcome(cr.Status(), err)
              == Reconciled(wf, persist, hash, cr.steps, old(cr.Status()), cr.deleted, cr.allowed(ActionCreate), Op.Create)
    {
      if cr.deleted {
        return None;
      }
      if !cr.allowed(ActionCreate) {
        return None;
      }
      err := RunAndRecord(cr, Op.Create);
    }

    /** `Update`: the same sequence as Create, with the Update op. */
    method Update(cr: KrateoPlatformOps) returns (err: Option<Error>)
      modifies cr
      ensures cr.steps == old(cr.steps)
      ensures Outcome(cr.Status(), err)
              == Reconciled(wf, persist, hash, cr.steps, old(cr.Status()), cr.deleted, cr.allowed(ActionUpdate), Op.Update)
    {
      if cr.deleted {
        return None;
      }
      if !cr.allowed(ActionUpdate) {
        return None;
      }
      err := RunAndRecord(cr, Op.Update);
    }

    /** `Delete`. */
    method Delete(cr: KrateoPlatformOps) returns (err: Option<Error>)
      modifies cr
      ensures cr.steps == old(cr.steps)
      ensures Outcome(cr.Status(), err) == Deleted(wf, persist, cr.steps, old(cr.Status()), cr.allowed(ActionDelete))
    {
      if !cr.allowed(ActionDelete) {
        return None;
      }
      cr.ready := Some(Deleting);
      err := persist(cr.Status());
      if err.Some? {
        return err;
      }
      var results := wf.run(Op.Delete, cr.steps, DeleteSkip());
      err := wf.errOf(results);
      if err.Some? {
        return err;
      }
      cr.ready := Some(Deleting);
      cr.digest := "";
      err := persist(cr.Status());
    }
  }
}
