/** The workflow resource's data: steps, their payload shapes, the per-step status
    record and the digest of a step's payload. */
module Types {
  import opened Wrappers
  import Hex

  type StepType = string

  const TypeObject: StepType := "object"
  const TypeChart: StepType := "chart"
  const TypeVar: StepType := "var"

  /** The 64-bit murmur3 hash of a byte string (`murmur3.New64`, `Write`, `Sum64`).
      The hash itself is not part of this model: every member that needs it takes it as a parameter. */
  type Hash64 = Bytes -> uint64

  /** A step; `with` is None when the payload pointer is nil. */
  datatype Step = Step(id: string, stepType: StepType, with: Option<Bytes>)

  /** The skip predicate of a run that visits every step: the older controller's Create, and the
      installer controller's Create and Update. */
  function NeverSkip(): (skip: Step -> bool)
    ensures forall s :: !skip(s)
  {
    (s: Step) => false
  }

  /** The payload bytes, empty when the pointer is nil. */
  function Raw(s: Step): Bytes {
    if s.with.Some? then s.with.value else []
  }

  /** `Step.Digest`: "" for an absent or empty payload, otherwise the base-16 hash of the payload. */
  function Digest(s: Step, hash: Hash64): (r: string)
    ensures r == "" <==> |Raw(s)| == 0
    ensures r != "" ==> Hex.IsHexString(r) && Hex.ParseDigits(r) == hash(Raw(s)) as nat
  {
    if s.with.None? || |s.with.value| == 0 then ""
    else Hex.FormatUintSound(hash(s.with.value)); Hex.FormatUint(hash(s.with.value))
  }

  /** The digest looks at the payload only: steps with the same payload and any id or type
      have the same digest. */
  lemma DigestIgnoresIdAndType(s: Step, t: Step, hash: Hash64)
    requires Raw(s) == Raw(t)
    ensures Digest(s, hash) == Digest(t, hash)
  {
  }

  /** Two non-empty payloads have the same digest exactly when they have the same hash,
      and a non-empty payload never has the digest of an empty one. */
  lemma DigestDetectsChange(s: Step, t: Step, hash: Hash64)
    requires |Raw(s)| > 0
    ensures Digest(s, hash) != Digest(Step(t.id, t.stepType, None), hash)
    ensures |Raw(t)| > 0 ==> (Digest(s, hash) == Digest(t, hash) <==> hash(Raw(s)) == hash(Raw(t)))
  {
    if |Raw(t)| > 0 {
      Hex.FormatUintInjective(hash(Raw(s)), hash(Raw(t)));
    }
  }

  /** The record kept in the status for one step; every field may be absent. */
  datatype StepStatus = StepStatus(id: Option<string>, digest: Option<string>, err: Option<string>)

  type WorkflowStatus = map<string, StepStatus>

  /** `WorkflowStatus.Digest(id)`. */
  function StatusDigest(st: WorkflowStatus, id: string): (r: string)
    ensures id !in st || st[id].digest.None? ==> r == ""
    ensures id in st && st[id].digest.Some? ==> r == st[id].digest.value
  {
    if id in st then st[id].digest.GetOr("") else ""
  }

  /** `WorkflowStatus.Err(id)`. */
  function StatusErr(st: WorkflowStatus, id: string): (r: string)
    ensures id !in st || st[id].err.None? ==> r == ""
    ensures id in st && st[id].err.Some? ==> r == st[id].err.value
  {
    if id in st then st[id].err.GetOr("") else ""
  }

  // ---- payload shapes (what a step's `with` decodes to) ----

  /** One `set` entry; `asString` is the optional pointer of the newer snapshots. */
  datatype Data = Data(name: string, value: string, asString: Option<bool>)

  datatype Reference = Reference(name: string, namespace: string)

  datatype ObjectMeta = ObjectMeta(apiVersion: string, kind: string, metadata: Reference)

  datatype ValueFromSource = ValueFromSource(meta: ObjectMeta, selector: string)

  datatype VarPayload = VarPayload(name: string, value: string, valueFrom: Option<ValueFromSource>)

  datatype ObjectPayload = ObjectPayload(meta: ObjectMeta, sets: seq<Data>)

  datatype SecretKeySelector = SecretKeySelector(namespace: string, name: string, key: string)

  datatype Credentials = Credentials(username: string, passwordRef: SecretKeySelector)

  /** Durations are counted in nanoseconds, as Go's `time.Duration`. */
  type Duration = int

  const Minute: Duration := 60_000_000_000

  /** A chart step's payload, with the fields every snapshot reads. */
  datatype ChartPayload = ChartPayload(
    repository: string,
    name: string,
    version: string,
    url: string,
    releaseName: string,
    wait: Option<bool>,
    waitTimeout: Option<Duration>,
    sets: seq<Data>,
    insecureSkipTLSVerify: Option<bool>,
    maxHistory: Option<int>,
    credentials: Option<Credentials>)
}
