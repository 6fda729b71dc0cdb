/** The `object` step handler: builds a Kubernetes object from a skeleton plus `set`
    entries merged in order, then applies it, or deletes it for the Delete operation. */
module ObjectStep {
  import opened Wrappers
  import opened Types
  import opened Steps
  import opened Unstructured
  import opened Environment

  /** Helm's `strvals.ParseInto` and `strvals.ParseIntoString`: merge one "path=value" line
      into an object (not part of this model). */
  datatype Merger = Merger(parseInto: (string, Object) -> Result<Object>, parseIntoString: (string, Object) -> Result<Object>)

  /** JSON decoding of the payload, `expand.Expand`, the merges and the dynamic client. */
  datatype ObjectDeps = ObjectDeps(decode: Bytes -> Result<ObjectPayload>, expand: Expander, merger: Merger, cluster: Cluster)

  /** The object before any merge: apiVersion, kind, metadata.name and metadata.namespace,
      the namespace falling back to the handler's. */
  function Skeleton(p: ObjectPayload, ns: string): (obj: Object)
    ensures obj.Keys == {"apiVersion", "kind", "metadata"}
    ensures GetAPIVersion(obj) == p.meta.apiVersion && GetKind(obj) == p.meta.kind
    ensures GetName(obj) == p.meta.metadata.name
    ensures GetNamespace(obj) == (if |p.meta.metadata.namespace| == 0 then ns else p.meta.metadata.namespace)
    ensures obj["metadata"].Map? && obj["metadata"].fields.Keys == {"name", "namespace"}
  {
    var namespace := if |p.meta.metadata.namespace| == 0 then ns else p.meta.metadata.namespace;
    map["apiVersion" := Str(p.meta.apiVersion),
        "kind" := Str(p.meta.kind),
        "metadata" := Map(map["name" := Str(p.meta.metadata.name), "namespace" := Str(namespace)])]
  }

  /** One `set` entry: skipped when its value is empty, otherwise "name=expanded value" merged
      as a string iff `asString` is set. */
  function MergeEntry(deps: ObjectDeps, env: map<string, string>, el: Data, obj: Object): Result<Object> {
    if |el.value| == 0 then Ok(obj)
    else
      var line := el.name + "=" + deps.expand(el.value, SubstFn(env));
      if el.asString.GetOr(false) then deps.merger.parseIntoString(line, obj)
      else deps.merger.parseInto(line, obj)
  }

  /** The entries merged left to right; the first failing merge ends it. */
  function MergeSets(deps: ObjectDeps, env: map<string, string>, sets: seq<Data>, obj: Object): Result<Object> {
    if |sets| == 0 then Ok(obj)
    else
      match MergeEntry(deps, env, sets[0], obj)
      case Fail(e) => Fail(e)
      case Ok(o) => MergeSets(deps, env, sets[1..], o)
  }

  /** Merging a list is merging its first part, then (if that succeeded) the rest. */
  lemma {:induction false} MergeSetsAppend(deps: ObjectDeps, env: map<string, string>, a: seq<Data>, b: seq<Data>, obj: Object)
    ensures MergeSets(deps, env, a + b, obj) ==
            match MergeSets(deps, env, a, obj)
            case Fail(e) => Fail(e)
            case Ok(o) => MergeSets(deps, env, b, o)
  {
    if |a| > 0 {
      assert (a + b)[0] == a[0];
      assert (a + b)[1..] == a[1..] + b;
      match MergeEntry(deps, env, a[0], obj)
      case Fail(e) =>
      case Ok(o) => MergeSetsAppend(deps, env, a[1..], b, o);
    } else {
      assert a + b == b;
    }
  }

  function NonEmpty(sets: seq<Data>): (r: seq<Data>)
    ensures forall i :: 0 <= i < |r| ==> |r[i].value| > 0
  {
    if |sets| == 0 then []
    else if |sets[0].value| == 0 then NonEmpty(sets[1..])
    else [sets[0]] + NonEmpty(sets[1..])
  }

  /** Entries with an empty value make no difference at all. */
  lemma {:induction false} MergeSetsSkipsEmpty(deps: ObjectDeps, env: map<string, string>, sets: seq<Data>, obj: Object)
    ensures MergeSets(deps, env, sets, obj) == MergeSets(deps, env, NonEmpty(sets), obj)
  {
    if |sets| > 0 {
      if |sets[0].value| == 0 {
        MergeSetsSkipsEmpty(deps, env, sets[1..], obj);
      } else {
        var ne := [sets[0]] + NonEmpty(sets[1..]);
        assert ne[0] == sets[0] && ne[1..] == NonEmpty(sets[1..]);
        match MergeEntry(deps, env, sets[0], obj)
        case Fail(e) =>
        case Ok(o) => MergeSetsSkipsEmpty(deps, env, sets[1..], o);
      }
    }
  }

  /** `resolveVars`: the loop that merges the entries into `src`. */
  method ResolveVars(deps: ObjectDeps, env: map<string, string>, sets: seq<Data>, src: Object) returns (r: Result<Object>)
    ensures r == MergeSets(deps, env, sets, src)
  {
    var cur := src;
    for i := 0 to |sets|
      invariant MergeSets(deps, env, sets, src) == MergeSets(deps, env, sets[i..], cur)
    {
      assert sets[i..][1..] == sets[i + 1..];
      var el := sets[i];
      if |el.value| > 0 {
        var line := el.name + "=" + deps.expand(el.value, SubstFn(env));
        var merged;
        if el.asString.GetOr(false) {
          merged := deps.merger.parseIntoString(line, cur);
        } else {
          merged := deps.merger.parseInto(line, cur);
        }
        if merged.Fail? {
          return Fail(merged.error);
        }
        cur := merged.value;
      }
    }
    assert sets[|sets|..] == [];
    return Ok(cur);
  }

  /** `toUnstructured`: decode, build the skeleton, merge the entries. */
  function BuildObject(deps: ObjectDeps, ns: string, env: map<string, string>, raw: Bytes): Result<Object> {
    match deps.decode(raw)
    case Fail(e) => Fail(e)
    case Ok(p) => MergeSets(deps, env, p.sets, Skeleton(p, ns))
  }

  /** Without entries to merge the object is the skeleton. */
  lemma BuildObjectPlain(deps: ObjectDeps, ns: string, env: map<string, string>, raw: Bytes)
    requires deps.decode(raw).Ok?
    requires forall i :: 0 <= i < |deps.decode(raw).value.sets| ==> deps.decode(raw).value.sets[i].value == ""
    ensures BuildObject(deps, ns, env, raw) == Ok(Skeleton(deps.decode(raw).value, ns))
  {
    var sets := deps.decode(raw).value.sets;
    MergeSetsSkipsEmpty(deps, env, sets, Skeleton(deps.decode(raw).value, ns));
    NonEmptyOfEmptyValues(sets);
  }

  lemma {:induction false} NonEmptyOfEmptyValues(sets: seq<Data>)
    requires forall i :: 0 <= i < |sets| ==> sets[i].value == ""
    ensures NonEmpty(sets) == []
  {
    if |sets| > 0 {
      NonEmptyOfEmptyValues(sets[1..]);
    }
  }

  method ToUnstructured(deps: ObjectDeps, ns: string, env: map<string, string>, raw: Bytes) returns (r: Result<Object>)
    ensures r == BuildObject(deps, ns, env, raw)
  {
    var dec := deps.decode(raw);
    if dec.Fail? {
      return Fail(dec.error);
    }
    var src := Skeleton(dec.value, ns);
    r := ResolveVars(deps, env, dec.value.sets, src);
  }

  /** The cluster call a handler makes. */
  datatype ClusterCall = ApplyCall(obj: Object, target: Target) | DeleteCall(target: Target)

  datatype ObjectOutcome = ObjectOutcome(result: Option<ObjectResult>, call: Option<ClusterCall>, err: Option<Error>)

  /** `apierrors.IsNotFound(err)`; false for no error. */
  predicate IsNotFound(err: Option<Error>) {
    err.Some? && err.value.notFound
  }

  /** Where the built object goes: its own apiVersion/kind, namespace and name. */
  function ObjectTarget(gv: GroupVersion, obj: Object): Target {
    Target(WithKind(gv, GetKind(obj)), GetNamespace(obj), GetName(obj))
  }

  /** `objStepHandler.Handle` of the newer snapshot as a function of its inputs. */
  function ObjectHandle(deps: ObjectDeps, ns: string, op: Op, env: map<string, string>, raw: Bytes): (o: ObjectOutcome)
    ensures o.result.Some? ==> BuildObject(deps, ns, env, raw).Ok?
    ensures o.result.Some? ==> var obj := BuildObject(deps, ns, env, raw).value;
              o.result.value.apiVersion == GetAPIVersion(obj) && o.result.value.kind == GetKind(obj)
              && o.result.value.name == GetName(obj) && o.result.value.namespace == GetNamespace(obj)
  {
    match BuildObject(deps, ns, env, raw)
    case Fail(e) => ObjectOutcome(None, None, Some(e))
    case Ok(obj) =>
      match deps.cluster.parseGroupVersion(GetAPIVersion(obj))
      case Fail(e) => ObjectOutcome(None, None, Some(e))
      case Ok(gv) =>
        var t := ObjectTarget(gv, obj);
        if op == Delete then
          var err := deps.cluster.delete(t);
          ObjectOutcome(Some(ObjectResult(GetAPIVersion(obj), GetKind(obj), GetName(obj), GetNamespace(obj), "delete")),
                        Some(DeleteCall(t)), if IsNotFound(err) then None else err)
        else
          ObjectOutcome(Some(ObjectResult(GetAPIVersion(obj), GetKind(obj), GetName(obj), GetNamespace(obj), "apply")),
                        Some(ApplyCall(obj, t)), deps.cluster.apply(obj, t))
  }

  /** What a caller of the handler can rely on: a call is made exactly when a result is
      reported, and only when the object builds and its apiVersion parses; no call means an
      error; the call goes to the built object's own kind, namespace and name; the reported
      operation names the call; the delete call never surfaces NotFound (a build error is
      returned as is, NotFound or not), and an apply's error is the cluster's. */
  lemma ObjectHandleCases(deps: ObjectDeps, ns: string, op: Op, env: map<string, string>, raw: Bytes)
    ensures var o := ObjectHandle(deps, ns, op, env, raw);
            var b := BuildObject(deps, ns, env, raw);
            (o.call.Some? <==> o.result.Some?)
            && (o.call.Some? <==> b.Ok? && deps.cluster.parseGroupVersion(GetAPIVersion(b.value)).Ok?)
            && (o.call.None? ==> o.err.Some?)
            && (op == Delete && o.call.Some? ==> !IsNotFound(o.err))
            && (o.call.Some? ==>
                  o.call.value.target.gvk.kind == GetKind(b.value)
                  && o.call.value.target.name == GetName(b.value)
                  && o.call.value.target.namespace == GetNamespace(b.value)
                  && (o.call.value.DeleteCall? <==> op == Delete)
                  && (o.call.value.DeleteCall? <==> o.result.value.operation == "delete")
                  && (o.call.value.ApplyCall? <==> o.result.value.operation == "apply")
                  && (o.call.value.ApplyCall? ==>
                        o.call.value.obj == b.value && o.err == deps.cluster.apply(b.value, o.call.value.target))
                  && (o.call.value.DeleteCall? ==>
                        (o.err.None? <==> deps.cluster.delete(o.call.value.target).None?
                                          || IsNotFound(deps.cluster.delete(o.call.value.target)))))
  {
  }

  /** An object step with no `set` entries and a payload without namespace lands in the
      handler's namespace, under the payload's name. */
  lemma ObjectNamespaceDefault(deps: ObjectDeps, ns: string, op: Op, env: map<string, string>, raw: Bytes)
    requires deps.decode(raw).Ok?
    requires deps.decode(raw).value.sets == []
    requires deps.decode(raw).value.meta.metadata.namespace == ""
    requires ObjectHandle(deps, ns, op, env, raw).result.Some?
    ensures ObjectHandle(deps, ns, op, env, raw).result.value.namespace == ns
    ensures ObjectHandle(deps, ns, op, env, raw).result.value.name == deps.decode(raw).value.meta.metadata.name
  {
    BuildObjectPlain(deps, ns, env, raw);
  }

  class ObjStepHandler {
    var ns: string
    var op: Op
    const env: Env
    const deps: ObjectDeps

    constructor (env: Env, deps: ObjectDeps)
      ensures this.env == env && this.deps == deps && ns == "" && op == Create
    {
      this.env := env;
      this.deps := deps;
      ns := "";
      op := Create;
    }

    method Namespace(ns: string)
      modifies this
      ensures this.ns == ns && op == old(op)
    {
      this.ns := ns;
    }

    method Op(op: Op)
      modifies this
      ensures this.op == op && ns == old(ns)
    {
      this.op := op;
    }

    /** `objStepHandler.Handle`; `call` is the cluster call it made. */
    method Handle(id: string, raw: Bytes) returns (result: Option<ObjectResult>, call: Option<ClusterCall>, err: Option<Error>)
      ensures ObjectOutcome(result, call, err) == ObjectHandle(deps, ns, op, env.data, raw)
    {
      var uns := ToUnstructured(deps, ns, env.data, raw);
      if uns.Fail? {
        return None, None, Some(uns.error);
      }
      var obj := uns.value;
      var gv := deps.cluster.parseGroupVersion(GetAPIVersion(obj));
      if gv.Fail? {
        return None, None, Some(gv.error);
      }
      var res := ObjectResult(GetAPIVersion(obj), GetKind(obj), GetName(obj), GetNamespace(obj), "");
      var t := Target(WithKind(gv.value, GetKind(obj)), GetNamespace(obj), GetName(obj));
      if op == Delete {
        res := res.(operation := "delete");
        var e := deps.cluster.delete(t);
        if IsNotFound(e) {
          e := None;
        }
        return Some(res), Some(DeleteCall(t)), e;
      }
      res := res.(operation := "apply");
      err := deps.cluster.apply(obj, t);
      return Some(res), Some(ApplyCall(obj, t)), err;
    }
  }
}

/** The older `object` handler: the same object building, no result value. */
module LegacyObjectStep {
  import opened Wrappers
  import opened Types
  import opened Steps
  import opened Unstructured
  import opened Environment
  import opened ObjectStep

  datatype LegacyOutcome = LegacyOutcome(call: Option<ClusterCall>, err: Option<Error>)

  function LegacyObjectHandle(deps: ObjectDeps, ns: string, op: Op, env: map<string, string>, raw: Bytes): LegacyOutcome {
    match BuildObject(deps, ns, env, raw)
    case Fail(e) => LegacyOutcome(None, Some(e))
    case Ok(obj) =>
      match deps.cluster.parseGroupVersion(GetAPIVersion(obj))
      case Fail(e) => LegacyOutcome(None, Some(e))
      case Ok(gv) =>
        var t := ObjectTarget(gv, obj);
        if op == Delete then
          var err := deps.cluster.delete(t);
          LegacyOutcome(Some(DeleteCall(t)), if IsNotFound(err) then None else err)
        else
          LegacyOutcome(Some(ApplyCall(obj, t)), deps.cluster.apply(obj, t))
  }

  /** The older handler makes the same cluster call and returns the same error as the newer
      one; only the result value is new. */
  lemma LegacyAgreesWithNewer(deps: ObjectDeps, ns: string, op: Op, env: map<string, string>, raw: Bytes)
    ensures var o := ObjectHandle(deps, ns, op, env, raw);
            LegacyObjectHandle(deps, ns, op, env, raw) == LegacyOutcome(o.call, o.err)
  {
  }

  class LegacyObjStepHandler {
    var ns: string
    var op: Op
    const env: Env
    const deps: ObjectDeps

    constructor (env: Env, deps: ObjectDeps)
      ensures this.env == env && this.deps == deps && ns == "" && op == Create
    {
      this.env := env;
      this.deps := deps;
      ns := "";
      op := Create;
    }

    method Namespace(ns: string)
      modifies this
      ensures this.ns == ns && op == old(op)
    {
      this.ns := ns;
    }

    method Op(op: Op)
      modifies this
      ensures this.op == op && ns == old(ns)
    {
      this.op := op;
    }

    method Handle(id: string, raw: Bytes) returns (call: Option<ClusterCall>, err: Option<Error>)
      ensures LegacyOutcome(call, err) == LegacyObjectHandle(deps, ns, op, env.data, raw)
    {
      var uns := ToUnstructured(deps, ns, env.data, raw);
      if uns.Fail? {
        return None, Some(uns.error);
      }
      var obj := uns.value;
      var gv := deps.cluster.parseGroupVersion(GetAPIVersion(obj));
      if gv.Fail? {
        return None, Some(gv.error);
      }
      var t := Target(WithKind(gv.value, GetKind(obj)), GetNamespace(obj), GetName(obj));
      if op == Delete {
        var e := deps.cluster.delete(t);
        if IsNotFound(e) {
          e := None;
        }
        return Some(DeleteCall(t)), e;
      }
      return Some(ApplyCall(obj, t)), deps.cluster.apply(obj, t);
    }
  }
}
