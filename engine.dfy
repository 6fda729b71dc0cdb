/** The workflow engine: runs an ordered list of steps through the handler registered
    for each step type, reversed for Delete, honouring a skip predicate and stopping at
    the first failure. */
module Engine {
  import opened Wrappers
  import opened Types
  import opened Steps

  /** One slot of the result list; the zero value is `Zero`. */
  datatype StepResult = StepResult(id: string, digest: string, err: Option<Error>)

  const Zero: StepResult := StepResult("", "", None)

  // ---------------------------------------------------------------- Err

  /** Index of the first result that carries an error, or -1. */
  function FirstFailed(results: seq<StepResult>): (k: int)
    ensures -1 <= k < |results|
    ensures k == -1 <==> forall i :: 0 <= i < |results| ==> results[i].err.None?
    ensures k >= 0 ==> results[k].err.Some? && forall i :: 0 <= i < k ==> results[i].err.None?
  {
    if |results| == 0 then -1
    else if results[0].err.Some? then 0
    else
      var j := FirstFailed(results[1..]);
      if j == -1 then -1 else j + 1
  }

  /** What `Err` returns: nothing, or the first error prefixed with its step id. */
  function ErrOf(results: seq<StepResult>): Option<Error> {
    var k := FirstFailed(results);
    if k == -1 then None else Some(Wrap(results[k].id + ": ", results[k].err.value))
  }

  /** `Err`: a first-match search over the results, in list order. */
  method Err(results: seq<StepResult>) returns (err: Option<Error>)
    ensures err.None? <==> forall i :: 0 <= i < |results| ==> results[i].err.None?
    ensures err.Some? ==> exists k :: 0 <= k < |results| && results[k].err.Some?
                                      && (forall i :: 0 <= i < k ==> results[i].err.None?)
                                      && err.value == Wrap(results[k].id + ": ", results[k].err.value)
    ensures err == ErrOf(results)
  {
    for i := 0 to |results|
      invariant forall j :: 0 <= j < i ==> results[j].err.None?
    {
      if results[i].err.Some? {
        assert FirstFailed(results) == i;
        return Some(Wrap(results[i].id + ": ", results[i].err.value));
      }
    }
    return None;
  }

  // ---------------------------------------------------------------- handlers

  /** A call of some handler's `Handle`, with the type it was registered for and the
      namespace and operation the handler held at the time. */
  datatype Call = Call(stepType: StepType, id: string, namespace: string, op: Op, payload: Bytes)

  /** What `Handle` returns for a call. The handlers share the workflow's environment, so
      the answer may depend on every earlier call made through the same workflow. */
  type Behaviour = (seq<Call>, Call) -> Option<Error>

  /** A registered step handler, seen from the engine: two setters and `Handle`. */
  class Handler {
    var ns: string
    var op: Op
    const behaviour: Behaviour

    constructor (behaviour: Behaviour)
      ensures this.behaviour == behaviour && ns == "" && op == Create
    {
      this.behaviour := behaviour;
      ns := "";
      op := Create;
    }

    method Namespace(ns: string)
      modifies this
      ensures this.ns == ns && op == old(op)
    {
      this.ns := ns;
    }

    method Op(op: Op)
      modifies this
      ensures this.op == op && ns == old(ns)
    {
      this.op := op;
    }

    method Handle(trace: seq<Call>, stepType: StepType, id: string, payload: Bytes) returns (err: Option<Error>)
      ensures err == behaviour(trace, Call(stepType, id, ns, op, payload))
    {
      err := behaviour(trace, Call(stepType, id, ns, op, payload));
    }
  }

  /** The JSON codec for chart payloads (not part of this model). */
  datatype ChartCodec = ChartCodec(unmarshal: Bytes -> Result<ChartPayload>, marshal: ChartPayload -> Result<Bytes>)

  // ---------------------------------------------------------------- the run, as a specification

  /** Everything a run depends on besides the steps and the skip predicate. */
  datatype Config = Config(
    ns: string, op: Op, maxHistory: Option<int>,
    handlers: map<StepType, Behaviour>, hash: Hash64, codec: ChartCodec)

  datatype RunState = RunState(steps: seq<Step>, results: seq<StepResult>, trace: seq<Call>, stopped: bool)

  predicate WellSized(s: RunState) {
    |s.steps| == |s.results|
  }

  function NoHandler(t: StepType): Error {
    Errorf("handler for step of type \"" + t + "\" not found")
  }

  /** The step as it is handed to a chart handler: its payload decoded, MaxHistory filled in
      from the workflow default when missing, and encoded again into the step. */
  datatype Prepared = Prepared(step: Step, err: Option<Error>)

  function PrepareChart(cfg: Config, x: Step): (p: Prepared)
    ensures p.step.id == x.id && p.step.stepType == x.stepType
    ensures x.stepType != TypeChart ==> p == Prepared(x, None)
    ensures x.stepType == TypeChart && cfg.codec.unmarshal(Raw(x)).Ok? ==>
              var doc := cfg.codec.unmarshal(Raw(x)).value;
              var filled := if doc.maxHistory.None? then doc.(maxHistory := cfg.maxHistory) else doc;
              match cfg.codec.marshal(filled)
              case Ok(raw) => p == Prepared(Step(x.id, x.stepType, Some(raw)), None)
              case Fail(e) => p == Prepared(Step(x.id, x.stepType, Some([])), Some(e))
    ensures x.stepType == TypeChart && cfg.codec.unmarshal(Raw(x)).Fail? ==>
              p == Prepared(x, Some(cfg.codec.unmarshal(Raw(x)).error))
  {
    if x.stepType != TypeChart then Prepared(x, None)
    else
      match cfg.codec.unmarshal(Raw(x))
      case Fail(e) => Prepared(x, Some(e))
      case Ok(doc) =>
        var filled := if doc.maxHistory.None? && cfg.maxHistory.Some? then doc.(maxHistory := cfg.maxHistory) else doc;
        match cfg.codec.marshal(filled)
        case Fail(e) => Prepared(x.(with := Some([])), Some(e))
        case Ok(raw) => Prepared(x.(with := Some(raw)), None)
  }

  /** What running one step that is not skipped does: the step as left in the list, its
      result slot, the handler calls made, and whether the run goes on. */
  datatype Outcome = Outcome(step: Step, result: StepResult, calls: seq<Call>, ok: bool)

  function Execute(cfg: Config, trace: seq<Call>, x: Step): (o: Outcome)
    ensures o.step.id == x.id && o.step.stepType == x.stepType
    ensures o.result.id == x.id
    ensures o.ok <==> o.result.err.None?
    ensures o.ok ==> o.result.digest == Digest(o.step, cfg.hash)
    ensures !o.ok ==> o.result.digest == ""
    ensures |o.calls| <= 1
    ensures forall c :: c in o.calls ==> c.namespace == cfg.ns && c.op == cfg.op
    ensures x.stepType !in cfg.handlers ==> o.calls == [] && o.result.err == Some(NoHandler(x.stepType))
    ensures o.ok ==> |o.calls| == 1
  {
    if x.stepType !in cfg.handlers then
      Outcome(x, StepResult(x.id, "", Some(NoHandler(x.stepType))), [], false)
    else
      var p := PrepareChart(cfg, x);
      if p.err.Some? then Outcome(p.step, StepResult(x.id, "", p.err), [], false)
      else
        var call := Call(x.stepType, x.id, cfg.ns, cfg.op, Raw(p.step));
        var err := cfg.handlers[x.stepType](trace, call);
        if err.Some? then Outcome(p.step, StepResult(x.id, "", err), [call], false)
        else Outcome(p.step, StepResult(x.id, Digest(p.step, cfg.hash), None), [call], true)
  }

  /** The state after the loop body for index `k`. */
  function Advance(cfg: Config, skip: Step -> bool, s: RunState, k: nat): (s': RunState)
    requires WellSized(s) && k < |s.steps|
    ensures WellSized(s') && |s'.steps| == |s.steps|
    ensures forall j :: 0 <= j < |s.steps| && j != k ==> s'.steps[j] == s.steps[j] && s'.results[j] == s.results[j]
    ensures s.stopped ==> s' == s
  {
    if s.stopped || skip(s.steps[k]) then s
    else
      var o := Execute(cfg, s.trace, s.steps[k]);
      RunState(s.steps[k := o.step], s.results[k := o.result], s.trace + o.calls, !o.ok)
  }

  /** The state after the loop bodies for indices `0..i`. */
  function Iterate(cfg: Config, skip: Step -> bool, s0: RunState, i: nat): (s: RunState)
    requires WellSized(s0) && i <= |s0.steps|
    ensures WellSized(s) && |s.steps| == |s0.steps|
  {
    if i == 0 then s0 else Advance(cfg, skip, Iterate(cfg, skip, s0, i - 1), i - 1)
  }

  function Reverse<T>(s: seq<T>): (r: seq<T>)
    ensures |r| == |s|
  {
    seq(|s|, i requires 0 <= i < |s| => s[|s| - 1 - i])
  }

  /** The order in which `Run` visits the steps: reversed for Delete, as given otherwise. */
  function VisitOrder(op: Op, steps: seq<Step>): (v: seq<Step>)
    ensures |v| == |steps|
    ensures forall k :: 0 <= k < |steps| ==> v[k] == (if op == Delete then steps[|steps| - 1 - k] else steps[k])
  {
    if op == Delete then Reverse(steps) else steps
  }

  /** Before the loop: the step list (reversed for Delete) and a zeroed result list. */
  function Start(cfg: Config, steps: seq<Step>, trace: seq<Call>): (s: RunState)
    ensures WellSized(s) && |s.steps| == |steps| && !s.stopped && s.trace == trace
    ensures forall k :: 0 <= k < |steps| ==> s.results[k] == Zero
  {
    RunState(VisitOrder(cfg.op, steps), seq(|steps|, _ => Zero), trace, false)
  }

  /** `Workflow.Run` as a function of its inputs: the step list as left behind, the results,
      and the handler calls made (appended to `trace`). */
  function RunSpec(cfg: Config, skip: Step -> bool, steps: seq<Step>, trace: seq<Call>): RunState {
    Iterate(cfg, skip, Start(cfg, steps, trace), |steps|)
  }

  /** The steps whose payload `Run` reads carry one: those it reaches before a failure, does
      not skip, and has a handler for. Go dereferences a nil payload there. */
  predicate PayloadsPresent(cfg: Config, skip: Step -> bool, steps: seq<Step>, trace: seq<Call>) {
    var s0 := Start(cfg, steps, trace);
    forall j | 0 <= j < |steps| && !Iterate(cfg, skip, s0, j).stopped && !skip(s0.steps[j])
                 && s0.steps[j].stepType in cfg.handlers
      :: s0.steps[j].with.Some?
  }

  // ---------------------------------------------------------------- facts about the run

  /** A slot is written only by the loop body for its own index. */
  lemma {:induction false} IterateFrame(cfg: Config, skip: Step -> bool, s0: RunState, i: nat, k: nat)
    requires WellSized(s0) && i <= |s0.steps| && k < |s0.steps|
    ensures k >= i ==> (Iterate(cfg, skip, s0, i).steps[k] == s0.steps[k]
                        && Iterate(cfg, skip, s0, i).results[k] == s0.results[k])
    ensures k < i ==> (Iterate(cfg, skip, s0, i).steps[k] == Iterate(cfg, skip, s0, k + 1).steps[k]
                       && Iterate(cfg, skip, s0, i).results[k] == Iterate(cfg, skip, s0, k + 1).results[k])
  {
    if i > 0 && i != k + 1 {
      IterateFrame(cfg, skip, s0, i - 1, k);
    }
  }

  /** Once a run has stopped nothing changes any more. */
  lemma {:induction false} StoppedStays(cfg: Config, skip: Step -> bool, s0: RunState, i: nat, j: nat)
    requires WellSized(s0) && i <= j <= |s0.steps|
    requires Iterate(cfg, skip, s0, i).stopped
    ensures Iterate(cfg, skip, s0, j) == Iterate(cfg, skip, s0, i)
  {
    if j > i {
      StoppedStays(cfg, skip, s0, i, j - 1);
    }
  }

  /** The trace only grows, and every call added carries the workflow's namespace and operation. */
  lemma {:induction false} TraceGrows(cfg: Config, skip: Step -> bool, s0: RunState, i: nat)
    requires WellSized(s0) && i <= |s0.steps|
    ensures var t := Iterate(cfg, skip, s0, i).trace;
            |s0.trace| <= |t| && t[..|s0.trace|] == s0.trace
            && forall j :: |s0.trace| <= j < |t| ==> t[j].namespace == cfg.ns && t[j].op == cfg.op
  {
    if i > 0 {
      TraceGrows(cfg, skip, s0, i - 1);
      var prev := Iterate(cfg, skip, s0, i - 1);
      if !prev.stopped && !skip(prev.steps[i - 1]) {
        var o := Execute(cfg, prev.trace, prev.steps[i - 1]);
        var t := prev.trace + o.calls;
        assert t[..|s0.trace|] == prev.trace[..|s0.trace|];
        forall j | |prev.trace| <= j < |t|
          ensures t[j].namespace == cfg.ns && t[j].op == cfg.op
        {
          assert t[j] in o.calls;
        }
      }
    }
  }

  /** What slot `k` of a run holds, in terms of the state before the loop body for `k`. */
  lemma Slot(cfg: Config, skip: Step -> bool, steps: seq<Step>, trace: seq<Call>, k: nat)
    requires k < |steps|
    ensures var s0 := Start(cfg, steps, trace);
            var before := Iterate(cfg, skip, s0, k);
            var x := s0.steps[k];
            var r := RunSpec(cfg, skip, steps, trace);
            before.steps[k] == x
            && (before.stopped || skip(x) ==> r.results[k] == Zero && r.steps[k] == x)
            && (!before.stopped && !skip(x) ==>
                  r.results[k] == Execute(cfg, before.trace, x).result
                  && r.steps[k] == Execute(cfg, before.trace, x).step)
  {
    var s0 := Start(cfg, steps, trace);
    IterateFrame(cfg, skip, s0, k, k);
    IterateFrame(cfg, skip, s0, |steps|, k);
  }

  /** `Run` returns exactly one slot per step, and leaves the ids and types of the step list
      in visiting order; a slot is zero or carries the id of the step visited there. */
  lemma RunShape(cfg: Config, skip: Step -> bool, steps: seq<Step>, trace: seq<Call>)
    ensures var r := RunSpec(cfg, skip, steps, trace);
            |r.results| == |steps| && |r.steps| == |steps|
            && (forall k :: 0 <= k < |steps| ==>
                  r.steps[k].id == VisitOrder(cfg.op, steps)[k].id
                  && r.steps[k].stepType == VisitOrder(cfg.op, steps)[k].stepType
                  && (r.results[k] == Zero || r.results[k].id == VisitOrder(cfg.op, steps)[k].id))
  {
    var r := RunSpec(cfg, skip, steps, trace);
    forall k | 0 <= k < |steps|
      ensures r.steps[k].id == VisitOrder(cfg.op, steps)[k].id
      ensures r.steps[k].stepType == VisitOrder(cfg.op, steps)[k].stepType
      ensures r.results[k] == Zero || r.results[k].id == VisitOrder(cfg.op, steps)[k].id
    {
      Slot(cfg, skip, steps, trace, k);
    }
  }

  /** A skipped step calls no handler and leaves its slot zero. */
  lemma SkippedStepIsInert(cfg: Config, skip: Step -> bool, steps: seq<Step>, trace: seq<Call>, k: nat)
    requires k < |steps|
    requires skip(Start(cfg, steps, trace).steps[k])
    ensures RunSpec(cfg, skip, steps, trace).results[k] == Zero
    ensures var s0 := Start(cfg, steps, trace);
            Iterate(cfg, skip, s0, k + 1).trace == Iterate(cfg, skip, s0, k).trace
  {
    Slot(cfg, skip, steps, trace, k);
    IterateFrame(cfg, skip, Start(cfg, steps, trace), k, k);
  }

  /** A failed slot stops the run right after its own loop body. */
  lemma FailedSlotStops(cfg: Config, skip: Step -> bool, steps: seq<Step>, trace: seq<Call>, k: nat)
    requires k < |steps|
    requires RunSpec(cfg, skip, steps, trace).results[k].err.Some?
    ensures Iterate(cfg, skip, Start(cfg, steps, trace), k + 1).stopped
  {
    var s0 := Start(cfg, steps, trace);
    Slot(cfg, skip, steps, trace, k);
    var before := Iterate(cfg, skip, s0, k);
    assert !before.stopped && !skip(s0.steps[k]);
  }

  /** Fail fast: after the first failed slot every later slot stays zero and no handler is
      called any more. */
  lemma FailFast(cfg: Config, skip: Step -> bool, steps: seq<Step>, trace: seq<Call>, k: nat)
    requires k < |steps|
    requires RunSpec(cfg, skip, steps, trace).results[k].err.Some?
    ensures forall j :: k < j < |steps| ==> RunSpec(cfg, skip, steps, trace).results[j] == Zero
    ensures RunSpec(cfg, skip, steps, trace).trace == Iterate(cfg, skip, Start(cfg, steps, trace), k + 1).trace
    ensures RunSpec(cfg, skip, steps, trace).stopped
  {
    var s0 := Start(cfg, steps, trace);
    FailedSlotStops(cfg, skip, steps, trace, k);
    StoppedStays(cfg, skip, s0, k + 1, |steps|);
    forall j | k < j < |steps|
      ensures RunSpec(cfg, skip, steps, trace).results[j] == Zero
    {
      IterateFrame(cfg, skip, s0, k + 1, j);
    }
  }

  /** A step that ran without error records its id and the digest of its payload as handed
      to the handler (for a chart step: after the MaxHistory rewrite). */
  lemma SuccessRecordsDigest(cfg: Config, skip: Step -> bool, steps: seq<Step>, trace: seq<Call>, k: nat)
    requires k < |steps|
    requires RunSpec(cfg, skip, steps, trace).results[k] != Zero
    requires RunSpec(cfg, skip, steps, trace).results[k].err.None?
    ensures var r := RunSpec(cfg, skip, steps, trace);
            r.results[k] == StepResult(r.steps[k].id, Digest(r.steps[k], cfg.hash), None)
  {
    Slot(cfg, skip, steps, trace, k);
  }

  /** Every handler call of a run carries the workflow's namespace and operation. */
  lemma HandlersGetNamespaceAndOp(cfg: Config, skip: Step -> bool, steps: seq<Step>, trace: seq<Call>)
    ensures var t := RunSpec(cfg, skip, steps, trace).trace;
            |trace| <= |t| && t[..|trace|] == trace
            && forall j :: |trace| <= j < |t| ==> t[j].namespace == cfg.ns && t[j].op == cfg.op
  {
    TraceGrows(cfg, skip, Start(cfg, steps, trace), |steps|);
  }

  /** `Err` of a run's results is nil exactly when the run did not stop at a failure. */
  lemma {:induction false} StoppedIffFailed(cfg: Config, skip: Step -> bool, s0: RunState, i: nat)
    requires WellSized(s0) && i <= |s0.steps| && !s0.stopped
    requires forall k :: 0 <= k < |s0.results| ==> s0.results[k].err.None?
    ensures var s := Iterate(cfg, skip, s0, i);
            s.stopped <==> exists k :: 0 <= k < i && s.results[k].err.Some?
    ensures forall k :: i <= k < |s0.results| ==> Iterate(cfg, skip, s0, i).results[k].err.None?
  {
    if i > 0 {
      StoppedIffFailed(cfg, skip, s0, i - 1);
      var prev := Iterate(cfg, skip, s0, i - 1);
      var s := Iterate(cfg, skip, s0, i);
      if prev.stopped {
        var k :| 0 <= k < i - 1 && prev.results[k].err.Some?;
        assert s.results[k].err.Some?;
      } else if !skip(prev.steps[i - 1]) && s.stopped {
        assert s.results[i - 1].err.Some?;
      } else {
        assert forall k :: 0 <= k < i ==> s.results[k] == prev.results[k] || k == i - 1;
      }
    }
  }

  lemma RunErrIffStopped(cfg: Config, skip: Step -> bool, steps: seq<Step>, trace: seq<Call>)
    ensures var r := RunSpec(cfg, skip, steps, trace);
            ErrOf(r.results).None? <==> !r.stopped
  {
    StoppedIffFailed(cfg, skip, Start(cfg, steps, trace), |steps|);
  }

  // ---------------------------------------------------------------- the workflow object

  class Workflow {
    var ns: string
    var op: Op
    var maxHistory: Option<int>
    var reg: map<StepType, Handler>
    /** Every `Handle` call made through this workflow, oldest first. */
    var trace: seq<Call>
    const hash: Hash64
    const codec: ChartCodec

    constructor (ns: string, maxHistory: int, reg: map<StepType, Handler>, hash: Hash64, codec: ChartCodec)
      ensures this.ns == ns && this.maxHistory == Some(maxHistory) && this.reg == reg
      ensures this.op == Create && trace == [] && this.hash == hash && this.codec == codec
    {
      this.ns := ns;
      this.maxHistory := Some(maxHistory);
      this.reg := reg;
      this.hash := hash;
      this.codec := codec;
      op := Create;
      trace := [];
    }

    function Cfg(): (c: Config)
      reads this`ns, this`op, this`maxHistory, this`reg
      ensures c.handlers.Keys == reg.Keys
    {
      Config(ns, op, maxHistory, map t | t in reg :: reg[t].behaviour, hash, codec)
    }

    /** `Workflow.Op`. */
    method Op(op: Op)
      modifies this
      ensures this.op == op
      ensures ns == old(ns) && reg == old(reg) && maxHistory == old(maxHistory) && trace == old(trace)
    {
      this.op := op;
    }

    /** `slices.Reverse` on the step list. */
    static method ReverseSteps(a: array<Step>)
      modifies a
      ensures a[..] == Reverse(old(a[..]))
    {
      var lo, hi := 0, a.Length - 1;
      while lo < hi
        invariant 0 <= lo && hi == a.Length - 1 - lo && lo <= a.Length / 2 + 1
        invariant forall j :: 0 <= j < a.Length ==>
                    a[j] == (if j < lo || j > hi then old(a[a.Length - 1 - j]) else old(a[j]))
      {
        a[lo], a[hi] := a[hi], a[lo];
        lo, hi := lo + 1, hi - 1;
      }
    }

    /** The chart rewrite of `Run`: decode, fill MaxHistory in, encode into the step. */
    method PrepareChartStep(x: Step) returns (p: Prepared)
      requires x.with.Some?
      ensures p == PrepareChart(Cfg(), x)
    {
      p := Prepared(x, None);
      if x.stepType == TypeChart {
        var dec := codec.unmarshal(x.with.value);
        if dec.Fail? {
          return Prepared(x, Some(dec.error));
        }
        var doc := dec.value;
        if doc.maxHistory.None? && maxHistory.Some? {
          doc := doc.(maxHistory := maxHistory);
        }
        var enc := codec.marshal(doc);
        if enc.Fail? {
          return Prepared(x.(with := Some([])), Some(enc.error));
        }
        p := Prepared(x.(with := Some(enc.value)), None);
      }
    }

    /** The loop body of `Run` for a step that is not skipped. */
    method ExecuteStep(x: Step) returns (o: Outcome)
      requires x.stepType in reg ==> x.with.Some?
      modifies this, reg.Values
      ensures ns == old(ns) && op == old(op) && reg == old(reg) && maxHistory == old(maxHistory)
      ensures o == Execute(old(Cfg()), old(trace), x)
      ensures trace == old(trace) + o.calls
    {
      if x.stepType !in reg {
        return Outcome(x, StepResult(x.id, "", Some(NoHandler(x.stepType))), [], false);
      }
      var job := reg[x.stepType];
      job.Namespace(ns);
      job.Op(op);
      var p := PrepareChartStep(x);
      if p.err.Some? {
        return Outcome(p.step, StepResult(x.id, "", p.err), [], false);
      }
      var y := p.step;
      var err := job.Handle(trace, y.stepType, y.id, y.with.value);
      var call := Call(y.stepType, y.id, ns, op, y.with.value);
      trace := trace + [call];
      if err.Some? {
        return Outcome(y, StepResult(x.id, "", err), [call], false);
      }
      o := Outcome(y, StepResult(x.id, Digest(y, hash), None), [call], true);
    }

    /** One pass of the loop of `Run`: the step at index `i`, unless it is skipped, is run and
        its slot filled in; `ok` is false when the step failed and the loop must stop. */
    method RunStep(steps: array<Step>, res: array<StepResult>, skip: Step -> bool, ghost s0: RunState, i: nat)
      returns (ok: bool)
      requires steps.Length == res.Length && i < steps.Length && WellSized(s0) && |s0.steps| == steps.Length
      requires RunState(steps[..], res[..], trace, false) == Iterate(Cfg(), skip, s0, i)
      requires !skip(s0.steps[i]) && s0.steps[i].stepType in reg ==> s0.steps[i].with.Some?
      modifies this, steps, res, reg.Values
      ensures ns == old(ns) && op == old(op) && reg == old(reg) && maxHistory == old(maxHistory)
      ensures RunState(steps[..], res[..], trace, !ok) == Iterate(old(Cfg()), skip, s0, i + 1)
    {
      ghost var cfg := Cfg();
      ghost var before := Iterate(cfg, skip, s0, i);
      IterateFrame(cfg, skip, s0, i, i);
      var x := steps[i];
      assert x == before.steps[i] == s0.steps[i];
      if skip(x) {
        return true;
      }
      var o := ExecuteStep(x);
      assert o == Execute(cfg, before.trace, before.steps[i]);
      steps[i] := o.step;
      assert steps[..] == before.steps[i := o.step];
      res[i] := o.result;
      assert res[..] == before.results[i := o.result];
      ok := o.ok;
    }

    /** The loop of `Run`, from the state `s0` it starts from. */
    method RunLoop(steps: array<Step>, res: array<StepResult>, skip: Step -> bool, ghost s0: RunState)
      requires steps.Length == res.Length
      requires s0 == RunState(steps[..], res[..], trace, false)
      requires forall j | 0 <= j < steps.Length && !Iterate(Cfg(), skip, s0, j).stopped && !skip(s0.steps[j])
                            && s0.steps[j].stepType in reg
                 :: s0.steps[j].with.Some?
      modifies this, steps, res, reg.Values
      ensures ns == old(ns) && op == old(op) && reg == old(reg) && maxHistory == old(maxHistory)
      ensures RunState(steps[..], res[..], trace, false) == Iterate(old(Cfg()), skip, s0, steps.Length).(stopped := false)
    {
      ghost var cfg := Cfg();
      var n := steps.Length;
      var i := 0;
      while i < n
        invariant 0 <= i <= n
        invariant ns == old(ns) && op == old(op) && reg == old(reg) && maxHistory == old(maxHistory)
        invariant Cfg() == cfg
        invariant RunState(steps[..], res[..], trace, false) == Iterate(cfg, skip, s0, i)
      {
        var ok := RunStep(steps, res, skip, s0, i);
        if !ok {
          StoppedStays(cfg, skip, s0, i + 1, n);
          return;
        }
        i := i + 1;
      }
    }

    /** `Workflow.Run`. The caller hands over its own copy of the step list. */
    method Run(steps: array<Step>, skip: Step -> bool) returns (results: seq<StepResult>)
      requires PayloadsPresent(Cfg(), skip, steps[..], trace)
      modifies this, steps, reg.Values
      ensures ns == old(ns) && op == old(op) && reg == old(reg) && maxHistory == old(maxHistory)
      ensures var r := RunSpec(old(Cfg()), skip, old(steps[..]), old(trace));
              results == r.results && steps[..] == r.steps && trace == r.trace
    {
      var res := new StepResult[steps.Length](_ => Zero);
      if op == Delete {
        ReverseSteps(steps);
      }
      ghost var s0 := RunState(steps[..], res[..], trace, false);
      assert s0 == Start(old(Cfg()), old(steps[..]), old(trace));
      RunLoop(steps, res, skip, s0);
      results := res[..];
    }
  }
}
