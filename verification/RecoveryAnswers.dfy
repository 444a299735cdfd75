/** What each answer of an inspection says about the files, both ways. */
module RecoveryAnswers {
  import opened Wrappers
  import opened Flv
  import opened FlvPrefix
  import opened WriterWindows
  import opened PartStructure
  import opened RecoveryInspection

  /** Parts one to `n`, each of them structurally sound. */
  ghost predicate PartsAre(finals: map<nat, Bytes>, n: nat) {
    (forall i :: i in finals <==> 1 <= i <= n) && forall i | i in finals :: Accepted(finals[i], None)
  }

  /** Each record has its own part, whose bytes are the first of the recorded evidence. */
  predicate RecordsStand(s: Snapshot) {
    forall k | 0 <= k < |s.records| ::
      var r := s.records[k];
      && (forall j | 0 <= j < k :: s.records[j].part != r.part)
      && r.part in s.finals && r.evidence in s.evidence && s.evidence[r.evidence] == r.digest && |r.digest| == r.sourceBytes
      && 0 < r.recoveredBytes <= r.sourceBytes && r.discarded == r.sourceBytes - r.recoveredBytes
      && s.finals[r.part] == r.digest[..r.recoveredBytes]
  }

  predicate HasRecord(s: Snapshot, i: nat) { exists r | r in s.records :: r.part == i }

  /** The one source that may be recovered, and what a plan must say of it. */
  ghost predicate Plans(p: Plan, index: nat, source: Bytes) {
    && p.index == index && p.digest == source && p.sourceBytes == |source| && source != []
    && HasWriterHeader(source) && p.recoveredBytes == PrefixLength(source) && Accepted(source, Some(p.recoveredBytes))
  }

  /** An owned partial behind the last part, and nothing else to recover. */
  ghost predicate PartialWaits(s: Snapshot, n: nat, p: Plan) {
    && s.partials.Keys == {n + 1} && s.staging == map[] && (forall i | i in s.evidence :: HasRecord(s, i)) && n + 1 !in s.evidence
    && s.partCount <= n && s.owned && s.job != Elsewhere && Plans(p, n + 1, s.partials[n + 1])
  }

  /** Evidence of the next part, or of the last one when it is already published, that nothing records yet. */
  ghost predicate EvidenceWaits(s: Snapshot, n: nat, p: Plan) {
    && s.partials == map[] && s.owned && s.job == RecoveringWriter && 1 <= p.index && (p.index == n || p.index == n + 1)
    && (forall i :: i == p.index <==> i in s.evidence && !HasRecord(s, i))
    && s.staging.Keys <= {p.index} && s.partCount < p.index && Plans(p, p.index, s.evidence[p.index])
  }

  lemma CompletedIs(finals: map<nat, Bytes>)
    ensures CompletedOk(finals) <==> PartsAre(finals, |finals|)
  {
    hide Accepted;
    if CompletedOk(finals) { ContiguousKeys(finals); }
  }

  lemma CountIs(finals: map<nat, Bytes>, n: nat)
    requires PartsAre(finals, n)
    ensures |finals| == n
  {
    hide Accepted;
    assert finals.Keys == UpTo(n);
  }

  lemma RecordsAre(s: Snapshot)
    ensures RecordsOk(s) <==> RecordsStand(s)
  {
    forall k | 0 <= k < |s.records|
      ensures RecordOk(s, k) <==>
              var r := s.records[k];
              && (forall j | 0 <= j < k :: s.records[j].part != r.part)
              && r.part in s.finals && r.evidence in s.evidence && s.evidence[r.evidence] == r.digest && |r.digest| == r.sourceBytes
              && 0 < r.recoveredBytes <= r.sourceBytes && r.discarded == r.sourceBytes - r.recoveredBytes
              && s.finals[r.part] == r.digest[..r.recoveredBytes]
    {
    }
  }

  lemma RecordedIs(s: Snapshot)
    ensures forall i :: i in Unrecorded(s) <==> i in s.evidence && !HasRecord(s, i)
  {
  }

  /** A directory is complete exactly when it holds at least one part, all parts in a row are sound, and nothing
      is left over: no partial, no copy under way, and no evidence that a standing record does not name. */
  lemma CompleteExactly(s: Snapshot, n: nat)
    ensures InspectionOf(s) == Complete(n) <==>
              && n >= 1 && PartsAre(s.finals, n) && RecordsStand(s) && s.partials == map[] && s.staging == map[]
              && forall i | i in s.evidence :: HasRecord(s, i)
  {
    hide CompletedOk, RecordsOk, PartsAre, RecordsStand, Recoverable, PlanFor, Unrecorded, HasRecord;
    CompletedIs(s.finals);
    RecordsAre(s);
    RecordedIs(s);
    if PartsAre(s.finals, n) { CountIs(s.finals, n); }
    assert Unrecorded(s) == {} <==> forall i | i in s.evidence :: HasRecord(s, i);
  }

  lemma PlansIs(p: Plan, index: nat, source: Bytes)
    ensures Plans(p, index, source) <==> Recoverable(source) && p == PlanFor(index, source)
  {
    hide Accepted, PrefixLength;
  }

  lemma PendingPartial(s: Snapshot, p: Plan)
    requires CompletedOk(s.finals) && RecordsOk(s) && s.partials != map[]
    ensures InspectionOf(s) == Pending(p) <==> PartialWaits(s, |s.finals|, p)
  {
    hide CompletedOk, RecordsOk, Recoverable, PlanFor, Unrecorded, HasRecord, Plans;
    var n := |s.finals|;
    RecordedIs(s);
    assert Unrecorded(s) == {} <==> forall i | i in s.evidence :: HasRecord(s, i);
    if n + 1 in s.partials { PlansIs(p, n + 1, s.partials[n + 1]); }
    assert s.partials.Keys == {n + 1} ==> n + 1 in s.partials;
  }

  lemma PendingEvidence(s: Snapshot, p: Plan)
    requires CompletedOk(s.finals) && RecordsOk(s) && s.partials == map[]
    ensures InspectionOf(s) == Pending(p) <==> EvidenceWaits(s, |s.finals|, p)
  {
    hide CompletedOk, RecordsOk, Recoverable, PlanFor, Unrecorded, HasRecord, Plans;
    var n := |s.finals|;
    RecordedIs(s);
    forall i: nat ensures Unrecorded(s) == {i} <==> forall j :: j == i <==> j in s.evidence && !HasRecord(s, j) {}
    if Unrecorded(s) == {n + 1} { assert n + 1 in Unrecorded(s); PlansIs(p, n + 1, s.evidence[n + 1]); }
    if Unrecorded(s) == {n} { assert n in Unrecorded(s); PlansIs(p, n, s.evidence[n]); }
    PlanHasIndex(s, p);
  }

  lemma PlanHasIndex(s: Snapshot, p: Plan)
    ensures forall i: nat, source: Bytes :: Recoverable(source) ==> PlanFor(i, source).index == i
    ensures forall i: nat, source: Bytes :: Plans(p, i, source) ==> p.index == i
  {
    hide Accepted, PrefixLength;
  }

  /** Recovery is planned exactly for the one source that is owned and left over, and the plan describes it. */
  lemma PendingExactly(s: Snapshot, p: Plan)
    ensures InspectionOf(s) == Pending(p) <==>
              PartsAre(s.finals, |s.finals|) && RecordsStand(s) && (PartialWaits(s, |s.finals|, p) || EvidenceWaits(s, |s.finals|, p))
  {
    hide CompletedOk, RecordsOk, Recoverable, PlanFor, Unrecorded, HasRecord, Plans, PartsAre, RecordsStand;
    CompletedIs(s.finals);
    RecordsAre(s);
    if CompletedOk(s.finals) && RecordsOk(s) {
      if s.partials != map[] { PendingPartial(s, p); } else { PendingEvidence(s, p); }
    }
  }

  /** Whatever else lies there, a directory without a part is never complete, and what nobody owns is never
      recovered. */
  lemma NothingIsNeverComplete(s: Snapshot)
    ensures s.finals == map[] ==> !InspectionOf(s).Complete?
    ensures !s.owned ==> !InspectionOf(s).Pending?
    ensures s.job == Elsewhere ==> !InspectionOf(s).Pending?
  {
    match InspectionOf(s)
    case Complete(n) => CompleteExactly(s, n);
    case Pending(p) => PendingExactly(s, p);
    case Refused =>
  }
}
