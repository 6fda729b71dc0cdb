/** Per-step drift detection of the older controller: the digests recorded in the status are
    compared with the digests of the steps as they are now. */
module DriftSupport {
  import opened Wrappers
  import opened Types

  /** A status entry that records a digest: both its id and its digest are present and non-empty. */
  predicate Recorded(x: StepStatus) {
    x.id.Some? && x.id.value != "" && x.digest.Some? && x.digest.value != ""
  }

  /** What `currentDigestMap` may return: an id is a key exactly when some recorded entry
      carries it, and its value is the digest of one such entry. Go visits the status map in
      no fixed order, so when two entries carry the same id either digest may win. */
  ghost predicate IsDigestMap(status: WorkflowStatus, got: map<string, string>) {
    (forall id :: id in got <==> exists k :: k in status && Recorded(status[k]) && status[k].id.value == id)
    && (forall id :: id in got ==>
          exists k :: k in status && Recorded(status[k]) && status[k].id.value == id && status[k].digest.value == got[id])
  }

  /** A status written by the controllers, where every entry is stored under its own id. */
  ghost predicate KeyedById(status: WorkflowStatus) {
    forall k :: k in status && status[k].id.Some? ==> status[k].id.value == k
  }

  /** The recorded digests of a status keyed by id. */
  function RecordedDigests(status: WorkflowStatus): map<string, string> {
    map k | k in status && Recorded(status[k]) :: status[k].digest.value
  }

  /** For a status keyed by id the map is determined: it is `RecordedDigests`. */
  lemma DigestMapKeyed(status: WorkflowStatus, got: map<string, string>)
    requires KeyedById(status) && IsDigestMap(status, got)
    ensures got == RecordedDigests(status)
  {
    var want := RecordedDigests(status);
    forall id | id in got
      ensures id in want && want[id] == got[id]
    {
      var k :| k in status && Recorded(status[k]) && status[k].id.value == id && status[k].digest.value == got[id];
      assert k == id;
    }
    forall id | id in want
      ensures id in got
    {
      assert status[id].id.value == id;
    }
  }

  /** Every value of the map is non-empty. */
  lemma DigestMapNonEmpty(status: WorkflowStatus, got: map<string, string>, id: string)
    requires IsDigestMap(status, got) && id in got
    ensures got[id] != ""
  {
  }

  /** `currentDigestMap`: the loop over the status map, in whatever order Go picks. */
  method CurrentDigestMap(status: WorkflowStatus) returns (got: map<string, string>)
    ensures IsDigestMap(status, got)
  {
    got := map[];
    var rest := status.Keys;
    while rest != {}
      invariant rest <= status.Keys
      invariant forall id :: id in got <==>
                  exists k :: k in status && k !in rest && Recorded(status[k]) && status[k].id.value == id
      invariant forall id :: id in got ==>
                  exists k :: k in status && k !in rest && Recorded(status[k]) && status[k].id.value == id
                              && status[k].digest.value == got[id]
      decreases rest
    {
      var k :| k in rest;
      var x := status[k];
      var id := x.id.GetOr("");
      var hash := x.digest.GetOr("");
      rest := rest - {k};
      if |id| == 0 || |hash| == 0 {
        continue;
      }
      got := got[id := hash];
    }
  }

  /** A step is due for an update unless its id has a recorded digest equal to its current one. */
  predicate Stale(hash: Hash64, dm: map<string, string>, x: Step) {
    !(x.id in dm && dm[x.id] == Digest(x, hash))
  }

  /** The ids of the stale steps, in spec order. */
  function ToUpdate(hash: Hash64, steps: seq<Step>, dm: map<string, string>): (all: seq<string>)
    ensures |all| <= |steps|
  {
    if |steps| == 0 then []
    else
      ToUpdate(hash, steps[..|steps| - 1], dm)
      + (if Stale(hash, dm, steps[|steps| - 1]) then [steps[|steps| - 1].id] else [])
  }

  /** An id is listed exactly when some step with that id is stale. */
  lemma {:induction false} ToUpdateMembers(hash: Hash64, steps: seq<Step>, dm: map<string, string>)
    ensures forall id :: id in ToUpdate(hash, steps, dm) <==>
              exists i :: 0 <= i < |steps| && steps[i].id == id && Stale(hash, dm, steps[i])
  {
    if |steps| > 0 {
      var init := steps[..|steps| - 1];
      ToUpdateMembers(hash, init, dm);
      forall id ensures id in ToUpdate(hash, steps, dm) <==>
                        exists i :: 0 <= i < |steps| && steps[i].id == id && Stale(hash, dm, steps[i])
      {
        if id in ToUpdate(hash, init, dm) {
          var i :| 0 <= i < |init| && init[i].id == id && Stale(hash, dm, init[i]);
          assert steps[i] == init[i];
        }
        if exists i :: 0 <= i < |steps| && steps[i].id == id && Stale(hash, dm, steps[i]) {
          var i :| 0 <= i < |steps| && steps[i].id == id && Stale(hash, dm, steps[i]);
          if i < |init| {
            assert init[i] == steps[i];
          }
        }
      }
    }
  }

  /** Nothing recorded: every step id is listed, in spec order. */
  lemma {:induction false} ToUpdateAll(hash: Hash64, steps: seq<Step>)
    ensures ToUpdate(hash, steps, map[]) == seq(|steps|, i requires 0 <= i < |steps| => steps[i].id)
  {
    if |steps| > 0 {
      ToUpdateAll(hash, steps[..|steps| - 1]);
    }
  }

  /** A step without payload has the digest "", which is never recorded, so its id is always listed. */
  lemma EmptyPayloadListed(hash: Hash64, status: WorkflowStatus, dm: map<string, string>, steps: seq<Step>, i: nat)
    requires IsDigestMap(status, dm) && i < |steps| && |Raw(steps[i])| == 0
    ensures steps[i].id in ToUpdate(hash, steps, dm)
  {
    ToUpdateMembers(hash, steps, dm);
    if steps[i].id in dm {
      DigestMapNonEmpty(status, dm, steps[i].id);
    }
  }

  /** When all step ids differ, a step whose recorded digest equals its current one is not listed. */
  lemma UpToDateNotListed(hash: Hash64, steps: seq<Step>, dm: map<string, string>, i: nat)
    requires i < |steps| && !Stale(hash, dm, steps[i])
    requires forall a, b :: 0 <= a < b < |steps| ==> steps[a].id != steps[b].id
    ensures steps[i].id !in ToUpdate(hash, steps, dm)
  {
    ToUpdateMembers(hash, steps, dm);
  }

  /** `listOfStepIdToUpdate`; `dm` is the digest map the first loop built. */
  method ListOfStepIdToUpdate(hash: Hash64, status: WorkflowStatus, steps: seq<Step>)
    returns (all: seq<string>, ghost dm: map<string, string>)
    ensures IsDigestMap(status, dm) && all == ToUpdate(hash, steps, dm)
  {
    var digestMap := CurrentDigestMap(status);
    dm := digestMap;
    all := [];
    var i := 0;
    while i < |steps|
      invariant 0 <= i <= |steps|
      invariant all == ToUpdate(hash, steps[..i], dm)
    {
      var x := steps[i];
      assert steps[..i + 1][..i] == steps[..i];
      var obs := Digest(x, hash);
      if x.id in digestMap && digestMap[x.id] == obs {
        i := i + 1;
        continue;
      }
      all := all + [x.id];
      i := i + 1;
    }
    assert steps[..i] == steps;
  }
}

/** The aggregate digest of the installer controller: one streaming hash over the per-step digests. */
module AggregateDigest {
  import opened Wrappers
  import opened Types
  import Hex

  /** A streaming 64-bit hasher: the sum is the hash of everything written so far. */
  class Hasher64 {
    var written: Bytes
    const hash: Hash64

    constructor (hash: Hash64)
      ensures written == [] && this.hash == hash
    {
      written := [];
      this.hash := hash;
    }

    method Write(b: Bytes)
      modifies this
      ensures written == old(written) + b
    {
      written := written + b;
    }

    function Sum64(): uint64
      reads this
    {
      hash(written)
    }
  }

  /** The bytes of a base-16 digest (`[]byte(s)`; every rune of a digest is ASCII). */
  function AsciiBytes(s: string): (b: Bytes)
    requires forall i :: 0 <= i < |s| ==> s[i] as int < 0x80
    ensures |b| == |s| && forall i :: 0 <= i < |s| ==> b[i] as int == s[i] as int
  {
    if |s| == 0 then [] else [s[0] as int as byte] + AsciiBytes(s[1..])
  }

  lemma DigestIsAscii(x: Step, hash: Hash64)
    ensures forall i :: 0 <= i < |Digest(x, hash)| ==> Digest(x, hash)[i] as int < 0x80
  {
  }

  function DigestBytes(x: Step, hash: Hash64): Bytes {
    DigestIsAscii(x, hash);
    AsciiBytes(Digest(x, hash))
  }

  /** Everything written into the hasher: the digests of the steps, in spec order. */
  function AllDigestBytes(hash: Hash64, steps: seq<Step>): Bytes {
    if |steps| == 0 then [] else AllDigestBytes(hash, steps[..|steps| - 1]) + DigestBytes(steps[|steps| - 1], hash)
  }

  /** `digestForSteps` as a function. */
  function Aggregate(hash: Hash64, steps: seq<Step>): string {
    Hex.FormatUint(hash(AllDigestBytes(hash, steps)))
  }

  /** The aggregate is always a non-empty base-16 numeral, even for no steps, and it names the
      hash of the concatenated per-step digests. */
  lemma AggregateIsHex(hash: Hash64, steps: seq<Step>)
    ensures Aggregate(hash, steps) != "" && Hex.IsHexString(Aggregate(hash, steps))
    ensures Hex.ParseDigits(Aggregate(hash, steps)) == hash(AllDigestBytes(hash, steps)) as nat
  {
    Hex.FormatUintSound(hash(AllDigestBytes(hash, steps)));
  }

  /** The aggregate depends on the per-step digests only: step lists whose digests agree
      position by position (whatever their ids and types) have the same aggregate. */
  lemma {:induction false} AggregateOfDigests(hash: Hash64, s: seq<Step>, t: seq<Step>)
    requires |s| == |t| && forall i :: 0 <= i < |s| ==> Digest(s[i], hash) == Digest(t[i], hash)
    ensures AllDigestBytes(hash, s) == AllDigestBytes(hash, t)
    ensures Aggregate(hash, s) == Aggregate(hash, t)
  {
    if |s| > 0 {
      AggregateOfDigests(hash, s[..|s| - 1], t[..|t| - 1]);
    }
  }

  /** `digestForSteps`: each step's digest is written into one hasher, in spec order. */
  method DigestForSteps(hash: Hash64, steps: seq<Step>) returns (d: string)
    ensures d == Aggregate(hash, steps)
  {
    var hasher := new Hasher64(hash);
    var i := 0;
    while i < |steps|
      invariant 0 <= i <= |steps|
      invariant hasher.hash == hash && hasher.written == AllDigestBytes(hash, steps[..i])
    {
      assert steps[..i + 1][..i] == steps[..i];
      hasher.Write(DigestBytes(steps[i], hash));
      i := i + 1;
    }
    assert steps[..i] == steps;
    d := Hex.FormatUint(hasher.Sum64());
  }
}
