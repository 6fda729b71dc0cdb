# Krateo installer: a verified model of its workflow core

The Krateo installer reconciles a `KrateoPlatformOps` resource: an ordered list of typed steps
(`var`, `object`, `chart`) that it turns into cluster side effects. This project models, in Dafny,
the parts of the installer that decide what happens, leaving the cluster, Helm and the network as
parameters:

- the **workflow engine** (`Workflow.Run`, `Err`): it visits the steps in order, or in reverse for
  Delete. It skips some steps, hands each of the others to the handler registered for its type, and
  stops at the first failure. Each successful step records its payload digest;
- **digests and drift**: the per-step digest (a base-16 murmur3 hash of the payload), the per-step
  change list of the older controller, and the aggregate digest of the installer controller;
- the **two controllers**, as reconcile operations (Observe, Create, Update, Delete) over the
  resource's status;
- the **step handlers**: `var` (writes the shared environment), `object` (builds and applies or
  deletes a Kubernetes object) and `chart` (builds a Helm chart spec, then installs or uninstalls).
  Both the newer and the older snapshots of the object and chart handlers are modelled;
- **status population** of the installer controller: the var, object and release lists;
- the **string helpers**: release and repository name derivation, gateway and vcluster name tests,
  `Ellipsis`, `cutString` and `Strval`;
- the **chart getters**: OCI registry, packaged archive and HTTP chart repository, with the
  chart repository **index loader**;
- the **secret resolver**, with standard base64 decoding (section 4 of RFC 4648);
- the **legacy release installer**, which registers each release's repository and installs its
  chart.

Collaborators are function-typed parameters. These are the murmur3 hash, JSON and YAML codecs,
`expand.Expand`, Helm's `strvals` merges, the dynamic Get/Apply/Delete/Extract, the Helm client, the
semantic-version parser and tag matcher, and the URL parsers. Where the source changes things in
place (the engine's step and result arrays, the handlers' namespace and operation fields, the
shared environment, the resource's status, the hasher, the index file, the network and registry
clients), the model is a class with `modifies` clauses. Each such method is proved against a
function, and the lemmas are about that function.

Files: `wrappers.dfy`, `types.dfy`, `hex.dfy`, `strutil.dfy`, `support.dfy` (UTF-8 lengths and the
step/release helpers), `base64.dfy` (base64 and the secret resolver), `steps.dfy` (handler
vocabulary), `engine.dfy`, `drift.dfy`, `status.dfy`, `controllers.dfy`, `varstep.dfy`,
`objectstep.dfy`, `chartstep.dfy`, `release.dfy`, `index.dfy`, `getters.dfy`.

## Model

| member | source | states |
|---|---|---|
| Engine.FirstFailed | internal/workflows/workflows.go:80-88 | the index of the first result with an error, or -1 exactly when no result carries one |
| Engine.Err | internal/workflows/workflows.go:80-88 | nil iff no result carries an error; otherwise the error of the first failed result in list order, prefixed with its id |
| Engine.Handler.Namespace | internal/workflows/steps/steps.go:9-11 | sets the handler's namespace and leaves its operation alone |
| Engine.Handler.Op | internal/workflows/workflows.go:126-127 | sets the handler's operation and leaves its namespace alone |
| Engine.Handler.Handle | internal/workflows/steps/steps.go:11 | the handler's answer to a call with its current namespace and operation, given every earlier call of the run |
| Engine.PrepareChart | internal/workflows/workflows.go:129-144 | a non-chart step passes unchanged; a chart payload that decodes has MaxHistory filled from the workflow default when missing and is re-encoded into the step; a decode or encode failure is the step's error |
| Engine.Execute | internal/workflows/workflows.go:116-152 | one step that is not skipped: the result keeps the step id; it succeeds iff its error is nil, and then records the digest of the payload as handed to the handler, else an empty digest; at most one handler call, carrying the workflow's namespace and operation; an unknown type makes no call and gives the "handler not found" error |
| Engine.Advance | internal/workflows/workflows.go:110-153 | one loop body changes only its own slot, and a stopped run is unchanged |
| Engine.Iterate | internal/workflows/workflows.go:110-153 | the loop so far keeps the step and result lists at the length of the spec |
| Engine.Reverse | internal/workflows/workflows.go:106-108 | same length as its input |
| Engine.VisitOrder | internal/workflows/workflows.go:106-108 | for Delete slot k holds the step at the mirrored position, otherwise the step at k |
| Engine.Start | internal/workflows/workflows.go:104-108 | before the loop: a result list of one zero slot per step, not stopped, trace as given |
| Engine.TraceGrows | internal/workflows/workflows.go:126-127 | the handler trace only grows, and every call added carries the workflow's namespace and operation |
| Engine.Slot | internal/workflows/workflows.go:110-153 | slot k of a run is what the loop body for k made of the state before it |
| Engine.RunShape | internal/workflows/workflows.go:104-108 | a run returns exactly one result per step and keeps each step's id and type at its visit position; each slot is zero or carries the id of the step visited there |
| Engine.SkippedStepIsInert | internal/workflows/workflows.go:111-114 | a skipped step calls no handler and leaves its slot as the zero result |
| Engine.FailFast | internal/workflows/workflows.go:120-124 | after the first failed slot every later slot stays zero and no further handler is called |
| Engine.SuccessRecordsDigest | internal/workflows/workflows.go:118 | a step that ran without error records its id and the digest of its (rewritten) payload |
| Engine.HandlersGetNamespaceAndOp | internal/workflows/workflows.go:126-127 | every handler call of a run carries the workflow's namespace and operation |
| Engine.StoppedIffFailed | internal/workflows/workflows.go:120-150 | the loop stops exactly when a slot got an error |
| Engine.RunErrIffStopped | internal/workflows/workflows.go:80-88 | `Err` of a run's results is nil exactly when the run did not stop at a failure |
| Engine.Workflow.constructor | internal/workflows/workflows.go:42-59 | a new workflow holds the namespace, the handler registry and the MaxHistory default, with op Create and an empty trace |
| Engine.Workflow.Op | internal/workflows/workflows.go:99-101 | sets the operation and nothing else |
| Engine.Workflow.ReverseSteps | internal/workflows/workflows.go:106-108 | the step array is reversed in place |
| Engine.Workflow.PrepareChartStep | internal/workflows/workflows.go:129-144 | the chart rewrite agrees with `PrepareChart` |
| Engine.Workflow.ExecuteStep | internal/workflows/workflows.go:116-152 | one executed step agrees with `Execute`, and its handler call is added to the trace |
| Engine.Workflow.RunStep | internal/workflows/workflows.go:110-153 | one loop pass moves the arrays from the state after i bodies to the state after i+1 |
| Engine.Workflow.RunLoop | internal/workflows/workflows.go:110-153 | the loop leaves the arrays and trace as the specification does after all bodies |
| Engine.Workflow.Run | internal/workflows/workflows.go:103-156 | the results, the step array as left behind (reversed for Delete, chart payloads rewritten) and the handler trace are those of `RunSpec`; a payload is required only of a step that is reached before a failure, is not skipped and has a handler |
| Types.Digest | apis/workflows/v1alpha1/types.go:94-103 | "" exactly for a nil or empty payload; otherwise a base-16 numeral that reads back to the 64-bit hash of the payload |
| Types.DigestIgnoresIdAndType | apis/workflows/v1alpha1/types.go:94-103 | steps with equal payload bytes have equal digests, whatever their id and type |
| Types.DigestDetectsChange | apis/workflows/v1alpha1/types.go:99-102 | a non-empty payload's digest differs from a nil payload's; two non-empty payloads have equal digests iff their hashes are equal |
| Types.NeverSkip | internal/controllers/workflows/workflows.go:135-137 | a run that skips no step: the older controller's Create, and the installer controller's Create and Update (installer/internal/controllers/workflows/workflows.go:206-208) |
| Types.StatusDigest | apis/workflows/v1alpha1/types.go:121-127 | "" when the id is absent or its digest is nil, else the stored digest |
| Types.StatusErr | apis/workflows/v1alpha1/types.go:129-135 | "" when the id is absent or its error is nil, else the stored text |
| Hex.DigitRoundTrip | apis/workflows/v1alpha1/types.go:102 | reading back a rendered hex digit gives the digit |
| Hex.Digits | apis/workflows/v1alpha1/types.go:102 | the rendering is non-empty, all hex digits, with no leading zero |
| Hex.ParseFormat | apis/workflows/v1alpha1/types.go:102 | rendering in base 16 then reading back gives the number |
| Hex.FormatUintSound | apis/workflows/v1alpha1/types.go:102 | `FormatUint(v, 16)` is a non-empty hex string that reads back to v |
| Hex.FormatUintInjective | apis/workflows/v1alpha1/types.go:102 | two values have the same rendering iff they are equal |
| DriftSupport.DigestMapKeyed | internal/controllers/workflows/support.go:8-21 | for a status stored by id, the digest map is exactly the recorded (non-empty id and digest) entries |
| DriftSupport.DigestMapNonEmpty | internal/controllers/workflows/support.go:14-16 | every digest in the map is non-empty |
| DriftSupport.CurrentDigestMap | internal/controllers/workflows/support.go:8-21 | a key is present exactly when some status entry has that non-empty id and a non-empty digest, and maps to one of those digests |
| DriftSupport.ToUpdate | internal/controllers/workflows/support.go:23-37 | the list is never longer than the spec |
| DriftSupport.ToUpdateMembers | internal/controllers/workflows/support.go:26-35 | an id is listed exactly when some step with that id has no recorded digest or a different one |
| DriftSupport.ToUpdateAll | internal/controllers/workflows/support.go:23-37 | with nothing recorded every step id is listed, in spec order |
| DriftSupport.EmptyPayloadListed | internal/controllers/workflows/support.go:14-16 | a step with an empty payload is always listed |
| DriftSupport.UpToDateNotListed | internal/controllers/workflows/support.go:30-32 | with distinct ids, a step whose recorded digest equals its current one is not listed |
| DriftSupport.ListOfStepIdToUpdate | internal/controllers/workflows/support.go:23-38 | the two loops build a digest map and the spec-ordered list of stale step ids |
| AggregateDigest.Hasher64.Write | installer/internal/controllers/workflows/support.go:18 | the hasher has absorbed everything written before plus these bytes |
| AggregateDigest.AsciiBytes | installer/internal/controllers/workflows/support.go:18 | the bytes of an ASCII string are its characters' codes, one per character |
| AggregateDigest.DigestIsAscii | apis/workflows/v1alpha1/types.go:94-103 | every character of a step digest is ASCII |
| AggregateDigest.AggregateIsHex | installer/internal/controllers/workflows/support.go:21 | the aggregate is a non-empty base-16 numeral, even for no steps, naming the hash of the concatenated per-step digests |
| AggregateDigest.AggregateOfDigests | installer/internal/controllers/workflows/support.go:17-19 | step lists whose per-step digests agree have the same aggregate, whatever their ids and types |
| AggregateDigest.DigestForSteps | installer/internal/controllers/workflows/support.go:14-22 | the streaming loop computes the aggregate |
| OldController.KrateoPlatformOps.constructor | apis/workflows/v1alpha1/types.go:144-153 | a resource holds its steps, its status map and its management policy |
| OldController.EntryOf | internal/controllers/workflows/workflows.go:143-155 | the status entry of a result carries its id and digest, and an error text exactly when the result failed |
| OldController.RebuildStatus | internal/controllers/workflows/workflows.go:143-155 | the rebuilt map is `Rebuilt`, keyed by id, with a key exactly for each result id |
| OldController.MergeStatus | internal/controllers/workflows/workflows.go:202-214 | the corrected loop computes `Merged` and keeps the keying by id |
| OldController.RebuiltKeys | internal/controllers/workflows/workflows.go:143-155 | the rebuilt map has a key exactly for each result id, and is keyed by id |
| OldController.RebuiltAt | internal/controllers/workflows/workflows.go:202-214 | the entry of a result whose id no later result repeats is that result's entry |
| OldController.MergedKeyed | internal/controllers/workflows/workflows.go:202-214 | merging keeps a map keyed by id |
| OldController.MergedKeeps | internal/controllers/workflows/workflows.go:202-214 | an entry no result names survives the merge unchanged |
| OldController.MergedAt | internal/controllers/workflows/workflows.go:202-214 | a result with a non-empty id that no later result repeats leaves its own entry |
| OldController.NoneStale | internal/controllers/workflows/support.go:23-37 | when every step maps to its current digest nothing is listed |
| OldController.SkippedIdUnused | internal/controllers/workflows/workflows.go:185-195 | no result but the zero one carries the id of a skipped step |
| OldController.RunSlot | internal/workflows/workflows.go:110-153 | in an engine run that ends without an error, a skipped step leaves the zero slot and every other step records its id and the digest of the payload it was handed (after the chart rewrite) |
| OldController.RunRanOrSkipped | internal/workflows/workflows.go:110-153 | an engine run without an error over steps the chart rewrite leaves unchanged records, slot by slot, either nothing or the step's id and current digest |
| OldController.RebuiltForgetsSkipped | internal/controllers/workflows/workflows.go:185-214 | as written, after a successful engine run a step it skipped has no entry in the rebuilt map, so the next Observe lists it again |
| OldController.CreatedIsUpToDate | internal/controllers/workflows/workflows.go:122-158 | after a successful engine run that skips nothing, over steps the chart rewrite leaves unchanged, the rebuilt map is keyed by id and nothing is stale |
| OldController.CreatedChartListedAgain | internal/workflows/workflows.go:128-152 | as written, a chart step whose rewritten payload has another digest is listed as changed right after a successful Create |
| OldController.MergedRecordsRan | internal/controllers/workflows/workflows.go:202-214 | a step that ran leaves its current digest in the merged map |
| OldController.MergedRecordsSkipped | internal/controllers/workflows/workflows.go:185-214 | a skipped step that was up to date keeps its recorded digest in the merged map |
| OldController.MergedUpdateConverges | internal/controllers/workflows/workflows.go:160-217 | corrected: when the engine runs exactly the listed steps without an error, over steps the chart rewrite leaves unchanged, merging the results leaves a map keyed by id under which nothing is stale |
| OldController.ToUpdatePair | internal/controllers/workflows/support.go:26-35 | the list for two steps is the stale ones among them, in order |
| OldController.UpdateOscillates | internal/controllers/workflows/workflows.go:202-214 | as written, two steps "a" (current) and "b" (changed): Update runs "b", then "a" is listed; running "a" lists "b" again; with the merge nothing is listed |
| OldController.DigestMapEmpty | internal/controllers/workflows/workflows.go:103-109 | the digest map is empty exactly when nothing is recorded |
| OldController.SkipUnlisted | internal/controllers/workflows/workflows.go:185-195 | Update skips a step exactly when its id is not in the update list |
| OldController.External.Observe | internal/controllers/workflows/workflows.go:95-120 | nothing recorded: not existing and up to date; otherwise existing, and up to date iff no step is listed |
| OldController.External.constructor | internal/controllers/workflows/workflows.go:69-92 | the external client holds the workflow built for the resource and the status writer |
| OldController.External.RunCopy | internal/controllers/workflows/workflows.go:135-137 | the engine runs on a copy of the steps; the results are those of `RunSpec` from the workflow's state before the call, and its settings are unchanged |
| OldController.External.Create | internal/controllers/workflows/workflows.go:122-158 | when allowed: Creating, and the engine runs every step; an error is returned with the status untouched; on success the map is rebuilt from the results and written |
| OldController.External.Update | internal/controllers/workflows/workflows.go:160-217 | as written, when allowed: an empty list runs nothing; otherwise the engine runs only the listed steps; an error is returned without a write; success writes the map rebuilt from the results alone |
| OldController.External.Delete | internal/controllers/workflows/workflows.go:219-233 | runs no step and sets only the Deleting condition, when allowed |
| InstallerController.ObserveCases | installer/internal/controllers/workflows/workflows.go:142-176 | deleted with an empty digest and reason Deleting: gone and up to date; otherwise existing, up to date iff the recorded digest is the current aggregate, never when none is recorded |
| InstallerController.DeleteSkip | installer/internal/controllers/workflows/workflows.go:298-300 | Delete skips exactly the var steps |
| InstallerController.ReconcileGuards | installer/internal/controllers/workflows/workflows.go:185-193 | a deleted resource or a forbidden action leaves the status alone and runs nothing |
| InstallerController.ReconcileFailureKeepsDigest | installer/internal/controllers/workflows/workflows.go:209-223 | the digest changes only after a successful run; any earlier error keeps the digest and the three lists |
| InstallerController.ReconcileThenObserve | installer/internal/controllers/workflows/workflows.go:178-225 | after a successful Create or Update the next Observe reports existing and up to date, and the lists hold exactly the successful results |
| InstallerController.DeleteThenObserve | installer/internal/controllers/workflows/workflows.go:276-323 | a successful Delete clears the digest and Observe then reports the resource gone; a failed one keeps the digest |
| InstallerController.External.Observe | installer/internal/controllers/workflows/workflows.go:142-176 | reports the `Observed` decision for the current aggregate, and sets Available when up to date |
| InstallerController.External.RunAndRecord | installer/internal/controllers/workflows/workflows.go:195-224 | the Creating write, the run, and on success the repopulated lists, Available and the new aggregate digest |
| InstallerController.External.Create | installer/internal/controllers/workflows/workflows.go:178-225 | the status and error are those of `Reconciled` for Create |
| InstallerController.External.Update | installer/internal/controllers/workflows/workflows.go:227-274 | the status and error are those of `Reconciled` for Update |
| InstallerController.External.Delete | installer/internal/controllers/workflows/workflows.go:276-323 | the status and error are those of `Deleted` |
| InstallerStatus.WrapResultForStatus | installer/internal/controllers/workflows/status.go:75-87 | one wrapper per known result type, nothing for any other |
| InstallerStatus.OneEntryPerResult | installer/internal/controllers/workflows/status.go:95-109 | each contributing result adds exactly one entry to one list; failed, nil and unknown results add none |
| InstallerStatus.VarsOfMembers | installer/internal/controllers/workflows/status.go:20-30 | a var entry is listed exactly when some error-free var result carries it |
| InstallerStatus.ListsInOrder | installer/internal/controllers/workflows/status.go:95-109 | later results only append, so each list is in results order |
| InstallerStatus.PopulateWith | installer/internal/controllers/workflows/status.go:16-72 | each wrapper appends one entry to its own list and changes nothing else |
| InstallerStatus.PopulateStatus | installer/internal/controllers/workflows/status.go:89-111 | the three lists are reset, then hold the entries of the contributing results in order; digest and Ready are untouched |
| Environment.Env.constructor | internal/workflows/workflows.go:42 | the shared cache starts empty |
| Environment.Env.Get | internal/workflows/steps/var.go:23 | found iff the key is present, with its value |
| Environment.Env.Set | internal/workflows/steps/var.go:59 | the key now maps to the value, nothing else changes |
| Environment.Subst | internal/workflows/steps/var.go:22-29 | the value of a defined variable, "$" + name otherwise |
| VarStep.VarHandleFrame | internal/workflows/steps/var.go:50-105 | a payload that does not decode changes nothing and returns its error; otherwise only the named variable may change |
| VarStep.VarHandleLiteral | internal/workflows/steps/var.go:57-72 | without valueFrom: success, no cluster call; a non-empty value is expanded and stored, an empty one writes nothing |
| VarStep.VarHandleValueFrom | internal/workflows/steps/var.go:74-104 | the Get targets the named object in the payload's or else the handler's namespace; parse and Get errors keep only the literal write; an extracted value overwrites the variable even when extraction also errs, and that error is returned |
| VarStep.VarStepHandler.constructor | internal/workflows/steps/var.go:19-31 | a handler over the shared environment |
| VarStep.VarStepHandler.Namespace | internal/workflows/steps/var.go:46-48 | sets the namespace only |
| VarStep.VarStepHandler.Op | internal/workflows/steps/var.go:42-44 | sets the operation only |
| VarStep.VarStepHandler.Handle | internal/workflows/steps/var.go:50-105 | the environment and the error are those of `VarHandle` |
| ObjectStep.Skeleton | internal/workflows/steps/object/object.go:105-117 | exactly apiVersion, kind and metadata {name, namespace}; the namespace is the payload's, or the handler's when empty |
| ObjectStep.MergeSetsAppend | internal/workflows/steps/object/object.go:129-145 | merging a list is merging its first part, then, if that succeeded, the rest |
| ObjectStep.NonEmpty | internal/workflows/steps/object/object.go:131-133 | only entries with a value remain |
| ObjectStep.MergeSetsSkipsEmpty | internal/workflows/steps/object/object.go:131-133 | entries with an empty value make no difference |
| ObjectStep.ResolveVars | internal/workflows/steps/object/object.go:129-145 | the loop merges the entries in order and stops at the first error |
| ObjectStep.BuildObjectPlain | internal/workflows/steps/object/object.go:98-127 | without values to merge the object is the skeleton |
| ObjectStep.ToUnstructured | internal/workflows/steps/object/object.go:98-127 | decode, skeleton, merges |
| ObjectStep.ObjectHandle | internal/workflows/steps/object/object.go:68-73 | a result exists only for a built object and copies its apiVersion, kind, name and namespace |
| ObjectStep.ObjectHandleCases | internal/workflows/steps/object/object.go:57-96 | a call is made exactly when a result is reported, exactly when the object builds and its apiVersion parses, and no call means an error; the call targets the built object's kind, namespace and name; the reported operation names the call (delete for Delete, apply otherwise); the delete call never surfaces NotFound and passes any other outcome on; an apply sends the built object and returns the cluster's error |
| ObjectStep.ObjectNamespaceDefault | internal/workflows/steps/object/object.go:105-117 | an object with no namespace lands in the handler's namespace under the payload's name |
| ObjectStep.ObjStepHandler.constructor | internal/workflows/steps/object/object.go:25-47 | a handler over the shared environment |
| ObjectStep.ObjStepHandler.Namespace | internal/workflows/steps/object/object.go:49-51 | sets the namespace only |
| ObjectStep.ObjStepHandler.Op | internal/workflows/steps/object/object.go:53-55 | sets the operation only |
| ObjectStep.ObjStepHandler.Handle | internal/workflows/steps/object/object.go:57-96 | the result, the cluster call and the error are those of `ObjectHandle` |
| LegacyObjectStep.LegacyAgreesWithNewer | internal/workflows/steps/object.go:55-131 | the older handler makes the same cluster call and returns the same error as the newer one |
| LegacyObjectStep.LegacyObjStepHandler.constructor | internal/workflows/steps/object.go:23-45 | a handler over the shared environment |
| LegacyObjectStep.LegacyObjStepHandler.Namespace | internal/workflows/steps/object.go:47-49 | sets the namespace only |
| LegacyObjectStep.LegacyObjStepHandler.Op | internal/workflows/steps/object.go:51-53 | sets the operation only |
| LegacyObjectStep.LegacyObjStepHandler.Handle | internal/workflows/steps/object.go:55-83 | the cluster call and the error are those of `LegacyObjectHandle` |
| ChartValues.Lines | installer/internal/workflows/steps/chart/chart.go:185-206 | never more lines than entries |
| ChartValues.LinesAppend | installer/internal/workflows/steps/chart/chart.go:185-206 | one more entry adds its line to its own list only, when its value is non-empty |
| ChartValues.SplitValuesRoutes | installer/internal/workflows/steps/chart/chart.go:185-206 | string lines are exactly the non-empty entries marked asString, the others go to Values, each in entry order |
| ChartValues.LinesSkipEmpty | installer/internal/workflows/steps/chart/chart.go:192-194 | entries with empty values contribute nothing |
| ChartValues.ComputeValuesOptions | installer/internal/workflows/steps/chart/chart.go:185-206 | the loop builds the routed lists |
| ChartStep.BaseSpecDefaults | installer/internal/workflows/steps/chart/chart.go:144-164 | the handler's namespace, namespace creation and CRD upgrade on, 10 minutes' timeout, history 10, wait on, TLS skip only when set |
| ChartStep.NamedSpecAgrees | installer/internal/workflows/steps/chart/chart.go:144-171 | the spec agrees with the payload: defaults, chart name and release name rules, routed values (the corrected derivation where the source panics, which `ToChartSpec` never reaches) |
| ChartStep.ToChartSpecPanics | installer/internal/workflows/steps/chart/chart.go:165-171 | a URL whose file name has no '-' fails the step with the slice panic, whatever release name is given; otherwise a payload without credentials gives a spec |
| ChartStep.ToChartSpecFields | installer/internal/workflows/steps/chart/chart.go:125-183 | every spec built agrees with its payload, and a release name derived from the URL is the one the source's derivation gives |
| ChartStep.ToChartSpecCredentials | installer/internal/workflows/steps/chart/chart.go:165-180 | a panicking derivation fails first; otherwise no credentials: none in the spec; with them, the resolved secret is the password, and a failure is the wrapped error |
| ChartStep.ChartHandleCalls | installer/internal/workflows/steps/chart/chart.go:70-123 | a spec that cannot be built (the release name panic included) gives no result and no Helm call; otherwise exactly one call, install/upgrade or (for Delete) uninstall |
| ChartStep.ChartHandleInstall | installer/internal/workflows/steps/chart/chart.go:78-101 | "install/upgrade"; an install error is returned with the result; a returned release's fields are copied |
| ChartStep.ChartHandleUninstall | installer/internal/workflows/steps/chart/chart.go:104-122 | "uninstall"; "release: not found" gives "not_found" and no error; other errors are returned; success gives "uninstalled" |
| ChartStep.ChartStepHandler.constructor | installer/internal/workflows/steps/chart/chart.go:31-60 | a handler over the shared environment |
| ChartStep.ChartStepHandler.Namespace | installer/internal/workflows/steps/chart/chart.go:62-64 | sets the namespace only |
| ChartStep.ChartStepHandler.Op | installer/internal/workflows/steps/chart/chart.go:66-68 | sets the operation only |
| ChartStep.ChartStepHandler.BuildSpec | installer/internal/workflows/steps/chart/chart.go:125-183 | the spec built field by field is `ToChartSpec` |
| ChartStep.ChartStepHandler.Handle | installer/internal/workflows/steps/chart/chart.go:70-123 | the result and the error are those of `ChartHandle` |
| LegacyChartStep.LegacyRegistersRepo | internal/workflows/steps/chart.go:77-114 | the repository is registered first exactly when not deleting, and a failed registration stops the step; the chart is "derived repo name/name", release name the name, in the handler's namespace |
| LegacyChartStep.LegacyUninstallNotFound | internal/workflows/steps/chart.go:54-75 | an uninstall succeeds iff Helm succeeded or said "release: not found" |
| LegacyChartStep.LegacyChartStepHandler.constructor | internal/workflows/steps/chart.go:21-44 | a handler over the shared environment |
| LegacyChartStep.LegacyChartStepHandler.Namespace | internal/workflows/steps/chart.go:46-48 | sets the namespace only |
| LegacyChartStep.LegacyChartStepHandler.Op | internal/workflows/steps/chart.go:50-52 | sets the operation only |
| LegacyChartStep.LegacyChartStepHandler.BuildSpec | internal/workflows/steps/chart.go:77-114 | the spec and the registration are those of `LegacyToChartSpec` |
| LegacyChartStep.LegacyChartStepHandler.Handle | internal/workflows/steps/chart.go:54-75 | the Helm calls and the error are those of `LegacyChartHandle` |
| StepSupport.ChartFileName | internal/workflows/steps/support.go:24-31 | the last path segment minus ".tgz"; it holds a '/' only when it is "/" |
| StepSupport.ChartFileNameJoin | internal/workflows/steps/support.go:24-31 | the file name of "dir/name.tgz" is name |
| StepSupport.DeriveReleaseNameAsWritten | internal/workflows/steps/support.go:24-31 | as written: fails (index -1) exactly when the file name has no '-'; otherwise the text before the last '-' |
| StepSupport.DeriveReleaseNamePanics | internal/workflows/steps/support.go:24-31 | as written, "dir/name.tgz" with no '-' in name has no release name |
| StepSupport.DeriveReleaseName | internal/workflows/steps/support.go:24-31 | corrected: a prefix of the file name, agreeing with the source whenever that has an answer, and the whole file name otherwise |
| StepSupport.DeriveReleaseNameVersioned | internal/workflows/steps/support.go:24-31 | "dir/chart-version.tgz" with no '-' in the version gives chart (as "krateo-bff-0.18.1.tgz" gives "krateo-bff") |
| StepSupport.RepoNameStart | internal/workflows/steps/support.go:33-43 | the name starts within the URL |
| StepSupport.DeriveRepoName | internal/workflows/steps/support.go:33-43 | no '.' in the name, which is a suffix of the URL with dots turned into '-' |
| StepSupport.DeriveRepoNameHost | internal/workflows/steps/support.go:35-42 | for a host-like tail, the text after the second-to-last '.', dots turned into '-' |
| StepSupport.Ellipsis | internal/workflows/steps/support.go:46-62 | "..." for n <= 3; s when it fits in n bytes; else its first n-3 runes and "..."; never longer than n runes |
| StepSupport.CutStringSound | internal/workflows/steps/support.go:74-102 | "" for n <= 0; otherwise the first (or last) min(n, runes) runes |
| Utf8.Utf8Len | internal/workflows/steps/support.go:47-53 | Go's byte length lies between the rune count and four times it |
| Utf8.Utf8LenAppend | internal/workflows/steps/support.go:74-102 | byte length is additive |
| Utf8.DecodePrefixKeeps | internal/workflows/steps/support.go:84-92 | decoding a byte prefix keeps the whole runes it covers |
| Utf8.DecodeSuffixKeeps | internal/workflows/steps/support.go:93-101 | decoding a byte suffix keeps the whole runes it covers |
| ReleaseSupport.NameStartByLastIndex | internal/release/support.go:7-13 | the backward scan finds the same start as Go's two `LastIndex` calls |
| ReleaseSupport.DeriveRepoNameByLastIndex | internal/release/support.go:7-13 | the name is the text after the second-to-last '.', dots turned into '-' |
| ReleaseSupport.DeriveRepoNameShape | internal/release/support.go:8-12 | no '.' in the name; a dot-replaced suffix of the URL; a URL without '.' is its own name |
| ReleaseSupport.DeriveRepoNameTail | internal/release/support.go:8-12 | a URL ending in "x.y" after the previous '.' gives "x-y" |
| ReleaseSupport.DeriveRepoNameLoft | internal/release/support_test.go:24 | "https://charts.loft.sh" gives "loft-sh" |
| ReleaseSupport.DeriveRepoNameKrateo | internal/release/support_test.go:25 | "https://https://charts.krateo.io" gives "krateo-io" |
| ReleaseSupport.GatewayNames | internal/release/support.go:15-18 | a gateway name is exactly one starting with "gateway-" or ending with "-gateway" |
| ReleaseSupport.VclusterNames | internal/release/support.go:20-23 | a vcluster name is exactly one starting with "vcluster-" or ending with "-vcluster" |
| StrUtil.LastIndexOf | internal/workflows/steps/support.go:27 | -1 iff the character is absent; otherwise its last position |
| StrUtil.IndexOf | internal/helm/getter/oci.go:71 | -1 iff the character is absent; otherwise its first position |
| StrUtil.ReplaceChar | internal/release/support.go:12 | same length, each occurrence replaced and every other character kept |
| StrUtil.PathBase | internal/workflows/steps/support.go:26 | never empty; holds a '/' only when it is "/" |
| StrUtil.PathBaseJoin | internal/workflows/steps/support.go:26 | the base of "dir/name" is name |
| StrUtil.TrimTrailingSlashes | internal/workflows/steps/support.go:26 | drops exactly the trailing slashes |
| Base64.Encode | internal/resolvers/secrets.go:48 | standard padded encoding: the length is a multiple of 4 |
| Base64.ValueChar | internal/resolvers/secrets.go:48 | the alphabet's value of a sextet's character is the sextet |
| Base64.StripNewlines | internal/resolvers/secrets.go:48 | no '\r' or '\n' remains |
| Base64.DecodeLength | internal/resolvers/secrets.go:48-51 | a text whose length without newlines is not a multiple of 4 does not decode |
| Base64.DecodeGroupsEncode | internal/resolvers/secrets.go:48 | decoding the groups of an encoding gives the bytes back |
| Base64.EncodeAlphabet | internal/resolvers/secrets.go:48 | an encoding holds only alphabet characters and '=' |
| Base64.DecodeEncode | internal/resolvers/secrets.go:48-54 | decoding an encoding gives the bytes back |
| SecretResolver.GetSecret | internal/resolvers/secrets.go:27-56 | a Get error is returned; a missing data map is an error naming namespace/name; a missing or non-string key is an error; otherwise the base64 decoding, or a wrapped decode error |
| SecretResolver.GetSecretData | internal/resolvers/secrets.go:44-54 | a missing or non-string key fails; a key holding the encoding of some bytes yields those bytes |
| ReleaseInstaller.ValuesShape | internal/release/create.go:95-100 | "service.type=" plus the type or NodePort first, then "name=value" for each entry in order, unexpanded |
| ReleaseInstaller.RunsAppend | internal/release/create.go:62-84 | the per-release runs of a concatenation are the concatenated runs |
| ReleaseInstaller.ChainAppend | internal/release/create.go:62-84 | runs chain in order, and a failing run ends the chain |
| ReleaseInstaller.InstallInOrder | internal/release/create.go:62-84 | releases are handled in spec order; once one fails, no later release is touched |
| ReleaseInstaller.ChainCalls | internal/release/create.go:62-84 | a chain's calls are calls of its runs, and on success all of them |
| ReleaseInstaller.HandledCalls | internal/release/create.go:63-80 | a release's repository is registered first; an install happens only for a non-gateway repository |
| ReleaseInstaller.InstallCalls | internal/release/create.go:60-87 | every call registers a release's repository or installs a non-gateway release; on success every repository was registered |
| ReleaseInstaller.Installer.constructor | internal/release/create.go:24-58 | an installer over the given Helm client and resource, with no calls made yet |
| ReleaseInstaller.Installer.BuildValues | internal/release/create.go:95-100 | the appending loop builds the values list |
| ReleaseInstaller.Installer.HandleKrateoGateway | internal/release/create.go:89-92 | does nothing and succeeds |
| ReleaseInstaller.Installer.HandleGenericChart | internal/release/create.go:94-117 | one install of the spec "repo/name", release name, resource namespace, wait, 10 minutes, whose error is returned |
| ReleaseInstaller.Installer.HandleRelease | internal/release/create.go:63-83 | one loop pass makes the calls of that release's run and returns its error |
| ReleaseInstaller.Installer.Install | internal/release/create.go:60-87 | the Helm calls and the error are those of the chained runs |
| RepoIndex.DefaultVersion | installer/internal/helm/repo/load.go:24-34 | a nil entry stays nil; an empty API version becomes "v1"; nothing else changes |
| RepoIndex.LoadSpec | installer/internal/helm/repo/load.go:13-40 | no error iff the document is non-empty, parses and has an API version; empty input is refused unparsed; a parse error is returned; the entries are defaulted and sorted |
| RepoIndex.EmptyIndexNotParsed | installer/internal/helm/repo/load.go:16-18 | an empty document's outcome depends on neither the decoder nor the ordering |
| RepoIndex.DefaultedIdempotent | installer/internal/helm/repo/load.go:24-34 | defaulting twice is defaulting once |
| RepoIndex.LoadedVersionsComplete | installer/internal/helm/repo/load.go:24-35 | same chart names; each list holds the defaulted versions, reordered; every non-nil version has an API version |
| RepoIndex.IndexFile.SortEntries | installer/internal/helm/repo/load.go:35 | every list is put in the ordering's order |
| RepoIndex.Load | installer/internal/helm/repo/load.go:13-40 | the index file and the error are those of `LoadSpec` |
| Getter.ClientConfigFor | installer/internal/helm/getter/getter.go:82-106 | compression off, proxy from the environment, one minute's timeout, TLS verification skipped iff asked |
| Getter.FetchOutcome | installer/internal/helm/getter/getter.go:50-80 | at most one request is sent |
| Getter.FetchCredentials | installer/internal/helm/getter/getter.go:51-62 | a GET of the URI with the caller's client settings; Basic credentials iff PassCredentialsAll and both are non-empty, and then the caller's |
| Getter.FetchWithholdsCredentials | installer/internal/helm/getter/getter.go:58-62 | without PassCredentialsAll, username and password make no difference |
| Getter.FetchStatus | installer/internal/helm/getter/getter.go:67-79 | data comes only from a 200 answer's body; any other status is an error naming the URI and status, with no data |
| Getter.NewHTTPClient | installer/internal/helm/getter/getter.go:82-106 | a new client whose settings are `ClientConfigFor` |
| Getter.Request.SetBasicAuth | installer/internal/helm/getter/getter.go:60 | the request carries these credentials |
| Getter.Network.Do | installer/internal/helm/getter/getter.go:67 | records the exchange and returns the network's answer |
| Getter.Fetch | installer/internal/helm/getter/getter.go:50-80 | the data, error and requests sent are those of `FetchOutcome` |
| Getter.RegistryClient.Tags | internal/helm/getter/oci.go:106 | records the tag listing and returns the registry's answer |
| Getter.RegistryClient.Login | internal/helm/getter/oci.go:76 | records the login and returns the registry's answer |
| Getter.RegistryClient.Pull | internal/helm/getter/oci.go:88 | records the pull and returns the registry's answer |
| Getter.RegistryClient.Logout | internal/helm/getter/oci.go:80 | records the logout |
| Getter.RefRoundTrip | internal/helm/getter/oci.go:62-65 | "oci://" + reference is the URI, plus "/" + repo when repo is non-empty |
| Getter.HostOfShape | internal/helm/getter/oci.go:71 | the host is the reference up to its first '/' |
| Getter.ResolveOnlyLists | internal/helm/getter/oci.go:96-132 | resolving only lists the reference's tags, at most once |
| Getter.PullStageSession | internal/helm/getter/oci.go:70-93 | login first, only with PassCredentialsAll, against the host; a successful login is answered by a logout as the very last call; the pull asks for the resolved URL |
| Getter.OciBasics | internal/helm/getter/oci.go:57-94 | a non-OCI URI is refused before any registry call; no HTTP fetch; a failure has no data and no URL; success returns the URI given |
| Getter.OciTagListing | internal/helm/getter/oci.go:101-112 | an exact semantic version is the tag and no tags are listed; otherwise tags are listed first and an empty list is an error |
| Getter.OciPullTarget | internal/helm/getter/oci.go:119-131 | the pulled reference is the parsed reference with ":" + tag added to its path, the tag being the version when exact |
| Getter.OciSessionPaired | internal/helm/getter/oci.go:70-81 | logins only with PassCredentialsAll, against the reference's host; each successful login is closed by a logout of that host as the last call; no logout without a login |
| Getter.OciGetter.ResolveURI | internal/helm/getter/oci.go:96-132 | the URL and registry calls are those of `ResolveOutcome` |
| Getter.OciGetter.PullWithSession | internal/helm/getter/oci.go:70-93 | the result and registry calls are those of `PullStage` |
| Getter.OciGetter.Get | internal/helm/getter/oci.go:57-94 | the result and registry calls are those of `OciOutcome` |
| Getter.NewOCIGetter | internal/helm/getter/oci.go:19-51 | the client construction error is returned; otherwise a new getter over the client |
| Getter.TgzFetchesUri | internal/helm/getter/tgz.go:12-23 | other URIs are refused before fetching; otherwise the URI itself is fetched; success returns the bytes and the URI unchanged; failure has no data and no URL |
| Getter.TgzGet | internal/helm/getter/tgz.go:12-23 | the result and requests are those of `TgzOutcome` |
| Getter.ChartUrl | internal/helm/getter/http.go:44-52 | the first URL if it is a request URI, else URI + "/" + it if that is one, else an error |
| Getter.ChartStageRequests | internal/helm/getter/http.go:31-69 | at most the chart request, with the caller's TLS and credentials; failure has no data and no URL; success returns the absolute URL fetched |
| Getter.RepoRequests | internal/helm/getter/http.go:15-70 | other URIs are refused; the index is asked first at URI + "/index.yaml"; every request uses the caller's settings; success returns the chart URL fetched last |
| Getter.NoPackageUrl | internal/helm/getter/http.go:40-42 | an entry without URLs is an error naming chart and version, and nothing more is sent |
| Getter.RepoGet | internal/helm/getter/http.go:15-70 | the result and requests are those of `RepoOutcome` |
| Getter.HandlerFor | installer/internal/helm/getter/getter.go:28-47 | no getter exactly for a URI that is neither OCI, archive nor HTTP |
| Getter.OciBeforeArchive | installer/internal/helm/getter/getter.go:29-35 | an "oci://" URI goes to the OCI getter, even with a ".tgz" suffix |
| Getter.ArchiveBeforeRepo | installer/internal/helm/getter/getter.go:37-40 | an HTTP URI ending in ".tgz" or ".tar.gz" goes to the archive getter |
| Getter.RepoForOtherHttp | installer/internal/helm/getter/getter.go:42-47 | other HTTP URIs go to the repository getter; an "s3://" URI has no getter |
| Getter.GetNeverRefuses | installer/internal/helm/getter/getter.go:28-46 | the chosen getter passes its own URI check: the archive getter fetches the URI, the repository getter the index, the OCI getter only talks to the registry |
| Getter.GetFailuresCarryNothing | installer/internal/helm/getter/getter.go:28-48 | every failure has no data and no URL; an unhandled URI is "no handler found" with no request |
| Getter.Get | installer/internal/helm/getter/getter.go:28-48 | the result, HTTP requests and registry calls are those of `GetOutcome` |

## Left out

- Kubernetes, Helm and network I/O are parameters. The dynamic Get/Apply/Delete/Extract, the Helm
  client, the HTTP network and the registry are functions or recording objects. Their behaviour,
  including timeouts, TLS and context cancellation, is not modelled.
- The murmur3 hash, JSON and YAML codecs, `expand.Expand`, Helm's `strvals` merges, `url.Parse`,
  `url.ParseRequestURI`, the semantic-version parser, `registry.GetTagMatchingVersionOrConstraint`,
  `IndexFile.Get` and the version ordering of `SortEntries` are parameters. The ordering is only
  assumed to rearrange a list.
- The shared environment cache (`internal/cache`) is not part of this model. It is a class holding
  a map.
- Logging, `spew.Dump`, and the `%q` quoting of the step type in the "handler not found" message
  are left out.
- `main.go`, `cmd/main.go`, controller `Setup`/`Connect`, and Helm client construction are left
  out. So are the transport of `kube.Status().Update`, which is a parameter that may fail, and the
  other snapshot `internal/workflow/*`.
- Engine.Workflow.constructor: the errors of building the dynamic clients and the Helm client are
  not modelled, and the registry is given.
- Engine.Workflow.Run: requires a payload of every step that is reached before a failure, is not
  skipped and has a registered handler; Go dereferences a nil payload there and panics. Steps
  after a failure, skipped steps and steps without a handler may lack one.
- ChartStep.ToChartSpec: the runtime panic of the release name derivation (chart.go:165-171) is
  modelled as a failure of the step with `ErrReleaseNamePanic`; the crash of the process and any
  recovery by the controller runtime are not modelled.
- OldController.CreatedIsUpToDate and OldController.MergedUpdateConverges hold only for specs
  whose steps the engine's chart rewrite (workflows.go:128-143) hands on unchanged
  (`Unrewritten`). A chart step whose decode, MaxHistory default and re-encode change its bytes
  is recorded under the digest of the rewritten payload; `CreatedChartListedAgain` shows that
  the next Observe then lists it again.
- Go's map iteration order: `currentDigestMap` may see entries in any order. The model states only
  what every order guarantees (`IsDigestMap`). For a status keyed by id, the map is determined.
- SecretResolver.NestedData: a `data` field that is not a map fails with a fixed text.
  apimachinery's message also prints the value and its Go type (`%v` and `%T`), and Go's `%v` of
  nested lists and maps is not modelled.
- StepSupport.Strval: the model's `Any` value is one of a string, bytes, an error, a Stringer or
  another value, so a Go value that is both an error and a Stringer, for which Go's case order
  picks `Error()`, cannot be expressed.
- Strings are sequences of runes. Go's byte length is `Utf8Len`; invalid UTF-8 is not modelled.
- RepoIndex.LoadSpec: a parse failure yields an empty index. Go returns whatever the decoder filled
  in, which callers discard with the error. The `source` argument of `Load` only labels log lines.
  `APIVersionV1`, `ErrEmptyIndexYaml` and `ErrNoAPIVersion` come from Helm's `repo` package, which
  is not part of this model.
- Getter.NewHTTPClient: the proxy setting is a flag (`http.ProxyFromEnvironment`), not a lookup of
  the environment.
- Getter.RegistryClient.Tags: the registry's answers do not depend on earlier calls. The same holds
  for Login and Pull, and for the network's answers.
- The older controller's `Err` is taken to return one error. Its call site expects `(id, err)`,
  because it comes from another snapshot.
- The engine's `MaxHistory` rewrite works on the chart payload as a decoded value with an optional
  MaxHistory. The shown `ChartSpec` type has no such field.
- The status lists the installer controller writes are fields of the model's resource. The shown
  types do not have them.
- StepSupport.DeriveReleaseNameVersioned and StepSupport.DeriveReleaseNamePanics state, over
  every directory, chart name and version, the example of the comment at support.go:24
  ("krateo-bff-0.18.1.tgz" gives "krateo-bff"); support_test.go has no test of this helper.

## Findings

| source | as written | input that shows it | evidently intended | confidence | as-written member | corrected member |
|---|---|---|---|---|---|---|
| internal/workflows/steps/support.go:24-31 | `DeriveReleaseName` slices the file name up to `strings.LastIndex(name, "-")`, which is -1 when the name has no '-', so the slice panics; the chart handler calls it for every payload with a URL (installer chart.go:165-167), before the explicit release name is applied, so such a chart step fails | a chart URL such as `https://example.com/charts/mychart.tgz` | a file name without a version suffix is its own release name | not executed | StepSupport.DeriveReleaseNamePanics | StepSupport.DeriveReleaseNameVersioned |
| internal/controllers/workflows/workflows.go:202-214 | Update replaces `Status.Steps` by a map built from the results only, and the zero results of skipped steps carry no id, so skipped steps lose their recorded digest (`External.Update` writes `Rebuilt`) | two var steps, "a" unchanged and "b" changed: Update runs "b", then "a" is listed; the next Update runs "a", then "b" is listed, and so on | the results of the steps that ran are merged into the recorded map, so a successful Update leaves nothing stale | not executed | OldController.UpdateOscillates | OldController.MergedUpdateConverges |
