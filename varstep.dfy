/** The string-keyed cache the handlers of one workflow share, and the substitution
    function built over it. */
module Environment {

  class Env {
    var data: map<string, string>

    constructor ()
      ensures data == map[]
    {
      data := map[];
    }

    method Get(k: string) returns (v: string, ok: bool)
      ensures ok <==> k in data
      ensures v == (if ok then data[k] else "")
    {
      if k in data {
        return data[k], true;
      }
      return "", false;
    }

    method Set(k: string, v: string)
      modifies this
      ensures data == old(data)[k := v]
    {
      data := data[k := v];
    }
  }

  /** The handlers' `subst`: a defined variable gives its value, an undefined one gives back
      its own reference "$" + name, so it survives expansion verbatim. */
  function Subst(env: map<string, string>, k: string): (r: string)
    ensures k in env ==> r == env[k]
    ensures k !in env ==> r == "$" + k
  {
    if k in env then env[k] else "$" + k
  }

  function SubstFn(env: map<string, string>): string -> string {
    k => Subst(env, k)
  }

  /** `expand.Expand(s, "", subst)` (not part of this model). */
  type Expander = (string, string -> string) -> string
}

/** The `var` step handler: sets a variable from a literal (expanded) value, then optionally
    overwrites it with a value selected from a cluster object. */
module VarStep {
  import opened Wrappers
  import opened Types
  import opened Steps
  import opened Unstructured
  import opened Environment
  import opened StepSupport

  /** JSON decoding of the payload, `expand.Expand` and the dynamic client. */
  datatype VarDeps = VarDeps(decode: Bytes -> Result<VarPayload>, expand: Expander, cluster: Cluster)

  /** What `Handle` leaves behind: the environment, the Get request it made (if any) and
      its error. */
  datatype VarOutcome = VarOutcome(env: map<string, string>, got: Option<Target>, err: Option<Error>)

  /** The object a `valueFrom` points at; an empty namespace means the handler's. */
  function SourceTarget(ns: string, vf: ValueFromSource, gv: GroupVersion): Target {
    var namespace := if |vf.meta.metadata.namespace| == 0 then ns else vf.meta.metadata.namespace;
    Target(WithKind(gv, vf.meta.kind), namespace, vf.meta.metadata.name)
  }

  /** The environment after the literal value of a decoded payload is written. */
  function WithValue(deps: VarDeps, env: map<string, string>, p: VarPayload): map<string, string> {
    if |p.value| > 0 then env[p.name := deps.expand(p.value, SubstFn(env))] else env
  }

  /** `varStepHandler.Handle` as a function of the handler namespace, the environment before
      the call and the payload. */
  function VarHandle(deps: VarDeps, ns: string, env: map<string, string>, raw: Bytes): VarOutcome {
    match deps.decode(raw)
    case Fail(e) => VarOutcome(env, None, Some(e))
    case Ok(p) =>
      var env1 := WithValue(deps, env, p);
      if p.valueFrom.None? then VarOutcome(env1, None, None)
      else
        var vf := p.valueFrom.value;
        match deps.cluster.parseGroupVersion(vf.meta.apiVersion)
        case Fail(e) => VarOutcome(env1, None, Some(e))
        case Ok(gv) =>
          var t := SourceTarget(ns, vf, gv);
          match deps.cluster.get(t)
          case Fail(e) => VarOutcome(env1, Some(t), Some(e))
          case Ok(obj) =>
            var extracted := deps.cluster.extract(obj, vf.selector);
            var env2 := if extracted.0.Some? then env1[p.name := Strval(extracted.0.value)] else env1;
            VarOutcome(env2, Some(t), extracted.1)
  }

  /** A payload that does not decode changes nothing and its error is returned; otherwise
      only the variable the payload names may change. */
  lemma VarHandleFrame(deps: VarDeps, ns: string, env: map<string, string>, raw: Bytes)
    ensures deps.decode(raw).Fail? ==>
              VarHandle(deps, ns, env, raw) == VarOutcome(env, None, Some(deps.decode(raw).error))
    ensures deps.decode(raw).Ok? ==>
              var name := deps.decode(raw).value.name;
              var out := VarHandle(deps, ns, env, raw).env;
              (forall k :: k != name ==> (k in out <==> k in env))
              && (forall k :: k != name && k in env ==> out[k] == env[k])
  {
  }

  /** Without `valueFrom` the call succeeds and makes no cluster call: a non-empty value is
      expanded against the environment as it was and stored, an empty one writes nothing. */
  lemma VarHandleLiteral(deps: VarDeps, ns: string, env: map<string, string>, raw: Bytes)
    requires deps.decode(raw).Ok? && deps.decode(raw).value.valueFrom.None?
    ensures var p := deps.decode(raw).value;
            var out := VarHandle(deps, ns, env, raw);
            out.err.None? && out.got.None?
            && (|p.value| > 0 ==> out.env == env[p.name := deps.expand(p.value, SubstFn(env))])
            && (|p.value| == 0 ==> out.env == env)
  {
  }

  /** With `valueFrom`: the Get goes to the named object, in the payload's namespace or the
      handler's when that is empty; a parse or Get error is returned and the environment
      keeps only the literal write; an extracted value overwrites the variable even when the
      extraction also fails, and the extraction error is returned. */
  lemma VarHandleValueFrom(deps: VarDeps, ns: string, env: map<string, string>, raw: Bytes)
    requires deps.decode(raw).Ok? && deps.decode(raw).value.valueFrom.Some?
    ensures var p := deps.decode(raw).value;
            var vf := p.valueFrom.value;
            var out := VarHandle(deps, ns, env, raw);
            var gv := deps.cluster.parseGroupVersion(vf.meta.apiVersion);
            (gv.Fail? ==> out == VarOutcome(WithValue(deps, env, p), None, Some(gv.error)))
            && (gv.Ok? ==>
                  out.got.Some?
                  && out.got.value.namespace == (if vf.meta.metadata.namespace == "" then ns else vf.meta.metadata.namespace)
                  && out.got.value.name == vf.meta.metadata.name
                  && out.got.value.gvk == GroupVersionKind(gv.value.group, gv.value.version, vf.meta.kind)
                  && (deps.cluster.get(out.got.value).Fail? ==>
                        out.env == WithValue(deps, env, p) && out.err == Some(deps.cluster.get(out.got.value).error))
                  && (deps.cluster.get(out.got.value).Ok? ==>
                        var x := deps.cluster.extract(deps.cluster.get(out.got.value).value, vf.selector);
                        out.err == x.1
                        && (x.0.Some? ==> p.name in out.env && out.env[p.name] == Strval(x.0.value))
                        && (x.0.None? ==> out.env == WithValue(deps, env, p))))
  {
  }

  class VarStepHandler {
    var ns: string
    var op: Op
    const env: Env
    const deps: VarDeps

    constructor (env: Env, deps: VarDeps)
      ensures this.env == env && this.deps == deps && ns == "" && op == Create
    {
      this.env := env;
      this.deps := deps;
      ns := "";
      op := Create;
    }

    method Namespace(ns: string)
      modifies this
      ensures this.ns == ns && op == old(op)
    {
      this.ns := ns;
    }

    method Op(op: Op)
      modifies this
      ensures this.op == op && ns == old(ns)
    {
      this.op := op;
    }

    /** `varStepHandler.Handle`: up to two writes into the shared environment. */
    method Handle(id: string, raw: Bytes) returns (err: Option<Error>)
      modifies env
      ensures var o := VarHandle(deps, ns, old(env.data), raw);
              env.data == o.env && err == o.err
    {
      var dec := deps.decode(raw);
      if dec.Fail? {
        return Some(dec.error);
      }
      var p := dec.value;
      if |p.value| > 0 {
        var val := deps.expand(p.value, SubstFn(env.data));
        env.Set(p.name, val);
      }
      if p.valueFrom.None? {
        return None;
      }
      var vf := p.valueFrom.value;
      var gv := deps.cluster.parseGroupVersion(vf.meta.apiVersion);
      if gv.Fail? {
        return Some(gv.error);
      }
      var namespace := vf.meta.metadata.namespace;
      if |namespace| == 0 {
        namespace := ns;
      }
      var obj := deps.cluster.get(Target(WithKind(gv.value, vf.meta.kind), namespace, vf.meta.metadata.name));
      if obj.Fail? {
        return Some(obj.error);
      }
      var extracted := deps.cluster.extract(obj.value, vf.selector);
      if extracted.0.Some? {
        env.Set(p.name, Strval(extracted.0.value));
      }
      return extracted.1;
    }
  }
}
