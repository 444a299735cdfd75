/** What one look at a crashed job's parts directory decides about its writer artifacts. */
module RecoveryInspection {
  import opened Wrappers
  import opened Flv
  import opened FlvPrefix
  import opened WriterWindows
  import opened PartStructure

  /** One committed recovery, as the manifest records it; a digest stands for the bytes it was taken of. */
  datatype Record = Record(part: nat, evidence: nat, digest: Bytes, sourceBytes: nat, recoveredBytes: nat, discarded: int)

  datatype JobState = Recording | RecoveringWriter | Elsewhere

  /** The directory, the manifest and the job as one look sees them; files are keyed by part index. */
  datatype Snapshot = Snapshot(finals: map<nat, Bytes>, partials: map<nat, Bytes>, evidence: map<nat, Bytes>,
                               staging: map<nat, Bytes>, records: seq<Record>, partCount: nat, job: JobState, owned: bool)

  datatype Plan = Plan(index: nat, sourceBytes: nat, digest: Bytes, recoveredBytes: nat)
  datatype Inspection = Refused | Pending(plan: Plan) | Complete(parts: nat)

  predicate Contiguous(finals: map<nat, Bytes>) { forall i | 1 <= i <= |finals| :: i in finals }

  ghost predicate CompletedOk(finals: map<nat, Bytes>) {
    Contiguous(finals) && forall i | i in finals :: Accepted(finals[i], None)
  }

  /** The evidence holds the whole recorded source and the part is exactly its recorded prefix. */
  predicate Proves(r: Record, source: Bytes, part: Bytes) {
    && 0 < r.recoveredBytes <= r.sourceBytes == |source| && r.recoveredBytes == |part|
    && part == source[..r.recoveredBytes] && r.digest == source
  }

  predicate RecordOk(s: Snapshot, k: nat)
    requires k < |s.records|
  {
    var r := s.records[k];
    && (forall j | 0 <= j < k :: s.records[j].part != r.part)
    && r.part in s.finals && r.evidence in s.evidence
    && r.recoveredBytes + r.discarded == r.sourceBytes && 0 <= r.discarded
    && Proves(r, s.evidence[r.evidence], s.finals[r.part])
  }

  predicate RecordsOk(s: Snapshot) { forall k | 0 <= k < |s.records| :: RecordOk(s, k) }

  function Recorded(records: seq<Record>): set<nat> { set r | r in records :: r.part }

  function Unrecorded(s: Snapshot): set<nat> { s.evidence.Keys - Recorded(s.records) }

  predicate Active(s: Snapshot) { s.owned && (s.job == Recording || s.job == RecoveringWriter) }

  ghost predicate Recoverable(source: Bytes) {
    source != [] && HasWriterHeader(source) && Accepted(source, Some(PrefixLength(source)))
  }

  function PlanFor(index: nat, source: Bytes): Plan
    requires HasWriterHeader(source)
  {
    Plan(index, |source|, source, PrefixLength(source))
  }

  /** The decision, over all branches. */
  ghost function InspectionOf(s: Snapshot): Inspection {
    var n := |s.finals|;
    if !CompletedOk(s.finals) || !RecordsOk(s) then Refused
    else if s.partials != map[] then
      if s.partials.Keys == {n + 1} && Unrecorded(s) == {} && s.staging == map[] && s.partCount <= n && Active(s)
         && n + 1 !in s.evidence && Recoverable(s.partials[n + 1])
      then Pending(PlanFor(n + 1, s.partials[n + 1])) else Refused
    else if Unrecorded(s) != {} then
      if Unrecorded(s) == {n + 1} && s.staging.Keys <= {n + 1} && s.partCount <= n
         && s.job == RecoveringWriter && s.owned && Recoverable(s.evidence[n + 1])
      then Pending(PlanFor(n + 1, s.evidence[n + 1]))
      else if n >= 1 && Unrecorded(s) == {n} && s.staging.Keys <= {n} && s.partCount <= n - 1
              && s.job == RecoveringWriter && s.owned && Recoverable(s.evidence[n])
      then Pending(PlanFor(n, s.evidence[n]))
      else Refused
    else if s.staging != map[] || n == 0 then Refused
    else Complete(n)
  }

  method CompletedParts(finals: map<nat, Bytes>) returns (ok: bool)
    ensures ok <==> CompletedOk(finals)
  {
    hide Accepted;
    var expected := 1;
    while expected <= |finals|
      invariant 1 <= expected <= |finals| + 1
      invariant forall i | 1 <= i < expected :: i in finals && Accepted(finals[i], None)
    {
      if expected !in finals { return false; }
      var accepted := CheckStructure(finals[expected], None);
      if !accepted { return false; }
      expected := expected + 1;
    }
    ContiguousKeys(finals);
    return true;
  }

  /** As many parts as their highest number leaves no room for others. */
  lemma ContiguousKeys(finals: map<nat, Bytes>)
    requires Contiguous(finals)
    ensures forall i | i in finals :: 1 <= i <= |finals|
  {
    var all := UpTo(|finals|);
    assert all <= finals.Keys;
    forall i | i in finals ensures i in all {
      if i !in all {
        SubsetSize(all + {i}, finals.Keys);
      }
    }
  }

  function UpTo(n: nat): (s: set<nat>)
    ensures |s| == n && forall i :: i in s <==> 1 <= i <= n
  {
    if n == 0 then {} else UpTo(n - 1) + {n}
  }

  lemma {:induction false} SubsetSize(a: set<nat>, b: set<nat>)
    requires a <= b
    ensures |a| <= |b|
  {
    if a != {} {
      var x :| x in a;
      SubsetSize(a - {x}, b - {x});
    }
  }

  method RecordsProven(s: Snapshot) returns (ok: bool)
    ensures ok <==> RecordsOk(s)
  {
    var k := 0;
    var recorded: set<nat> := {};
    while k < |s.records|
      invariant 0 <= k <= |s.records| && forall j | 0 <= j < k :: RecordOk(s, j)
      invariant forall i :: i in recorded <==> exists j | 0 <= j < k :: s.records[j].part == i
    {
      var r := s.records[k];
      if r.part in recorded || r.part !in s.finals || r.evidence !in s.evidence
         || r.recoveredBytes + r.discarded != r.sourceBytes || r.discarded < 0
         || !Proves(r, s.evidence[r.evidence], s.finals[r.part])
      {
        assert !RecordOk(s, k);
        return false;
      }
      recorded := recorded + {r.part};
      k := k + 1;
    }
    return true;
  }

  method SourceRecoverable(source: Bytes) returns (ok: bool, length: nat)
    ensures ok <==> Recoverable(source)
    ensures ok ==> length == PrefixLength(source)
  {
    hide Accepted, PrefixLength;
    length := 0;
    if source == [] { return false, length; }
    var prefix := CompletePrefix(source);
    if prefix.NonWriterHeader? { return false, length; }
    length := prefix.length;
    ok := CheckStructure(source, Some(length));
  }

  method PlanOf(index: nat, source: Bytes) returns (r: Inspection)
    ensures r == if Recoverable(source) then Pending(PlanFor(index, source)) else Refused
  {
    hide Accepted, PrefixLength;
    var ok, length := SourceRecoverable(source);
    return if ok then Pending(Plan(index, |source|, source, length)) else Refused;
  }

  method Inspect(s: Snapshot) returns (r: Inspection)
    ensures r == InspectionOf(s)
  {
    hide CompletedOk, RecordsOk, Recoverable, PlanFor, Recorded;
    var completed := CompletedParts(s.finals);
    if !completed { return Refused; }
    var proven := RecordsProven(s);
    if !proven { return Refused; }
    var n, unrecorded := |s.finals|, Unrecorded(s);
    if s.partials != map[] {
      if s.partials.Keys != {n + 1} || unrecorded != {} || s.staging != map[] || s.partCount > n || !Active(s)
         || n + 1 in s.evidence { return Refused; }
      r := PlanOf(n + 1, s.partials[n + 1]);
      return;
    }
    if unrecorded != {} {
      if s.job != RecoveringWriter || !s.owned { return Refused; }
      if unrecorded == {n + 1} && s.staging.Keys <= {n + 1} && s.partCount <= n {
        assert n + 1 in unrecorded;
        r := PlanOf(n + 1, s.evidence[n + 1]);
        return;
      }
      if n >= 1 && unrecorded == {n} && s.staging.Keys <= {n} && s.partCount <= n - 1 {
        assert n in unrecorded;
        r := PlanOf(n, s.evidence[n]);
        return;
      }
      return Refused;
    }
    if s.staging != map[] || n == 0 { return Refused; }
    return Complete(n);
  }
}
