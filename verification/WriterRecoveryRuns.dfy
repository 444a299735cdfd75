/** The recovery itself, step by step, with a mishap possible before every step. */
module WriterRecoveryRuns {
  import opened Flv
  import opened FlvPrefix
  import opened WriterWindows
  import opened PartStructure
  import opened RecoveryInspection
  import opened RecoveryAnswers
  import opened WriterRecovery

  /** A step can go through, raise (so cleanup runs), or never happen because the process died. */
  datatype Mishap = Fine | Raises | Dies

  class RecoveryStorage {
    var finals: map<nat, Bytes>
    var partials: map<nat, Bytes>
    var evidence: map<nat, Bytes>
    var staging: map<nat, Bytes>
    var records: seq<Record>
    var partCount: nat
    var job: JobState
    const owned: bool

    function State(): Snapshot
      reads this
    {
      Snapshot(finals, partials, evidence, staging, records, partCount, job, owned)
    }

    constructor (s: Snapshot)
      ensures State() == s
    {
      finals, partials, evidence, staging := s.finals, s.partials, s.evidence, s.staging;
      records, partCount, job, owned := s.records, s.partCount, s.job, s.owned;
    }

    /** The directory is one that the plan was made for, and is still underway. */
    ghost predicate On(o: Origin, plan: Plan)
      reads this
    {
      o.Valid() && InProgress(o, State()) && plan == o.Plan() && job == RecoveringWriter
    }

    /** Copy the kept prefix into a new staging file, chunk by chunk. */
    method CopyPrefix(index: nat, count: nat, mishap: nat -> Mishap) returns (ok: bool)
      requires index in evidence
      modifies `staging
      ensures staging.Keys <= old(staging.Keys) + {index}
      ensures ok ==> count <= |evidence[index]| && staging == old(staging)[index := evidence[index][..count]]
      ensures (forall k :: mishap(k) == Fine) && index !in old(staging) && count <= |evidence[index]| ==> ok
    {
      if index in staging { return false; }
      var source := evidence[index];
      staging := staging[index := []];
      var position := 0;
      while position < count
        invariant 0 <= position <= count && position <= |source|
        invariant staging == old(staging)[index := source[..position]]
        decreases count - position
      {
        if mishap(position) != Fine { return false; }
        var size := if CHUNK <= count - position then CHUNK else count - position;
        var chunk := source[position..if position + size <= |source| then position + size else |source|];
        if chunk == [] { return false; }
        assert source[..position] + chunk == source[..position + |chunk|];
        staging := staging[index := staging[index] + chunk];
        position := position + |chunk|;
      }
      return true;
    }

    /** The partial becomes evidence by one rename, unless either file is not the planned one. */
    method Preserve(plan: Plan, mishap: Mishap, ghost o: Origin) returns (ok: bool)
      modifies `partials, `evidence
      ensures old(On(o, plan)) ==> On(o, plan) && (mishap == Fine ==> ok)
                                   && (ok ==> Preserved(o, State()) || Published(o, State()))
      ensures ok ==> plan.index in evidence && evidence[plan.index] == plan.digest
      ensures partials != old(partials) ==> mishap == Fine
    {
      hide CompletedOk, PrefixLength, Accepted, RecordsOk, Recorded;
      if plan.index in partials {
        if partials[plan.index] != plan.digest || plan.index in evidence || mishap != Fine { return false; }
        evidence, partials := evidence[plan.index := partials[plan.index]], partials - {plan.index};
      }
      return plan.index in evidence && evidence[plan.index] == plan.digest;
    }

    /** Discard an unfinished copy and make a whole one. */
    method Stage(plan: Plan, mishap: nat -> Mishap, ghost o: Origin) returns (ok: bool)
      requires plan.index in evidence
      modifies `staging
      ensures old(On(o, plan) && Preserved(o, State())) ==>
                && On(o, plan) && Preserved(o, State())
                && ((forall k :: mishap(k) == Fine) ==> ok)
                && (ok ==> staging == map[o.Index() := o.Part()])
    {
      hide CompletedOk, PrefixLength, Accepted, RecordsOk, Recorded;
      staging := staging - {plan.index};
      ok := CopyPrefix(plan.index, plan.recoveredBytes, mishap);
    }

    /** Publish the validated copy under the part's own name; a failure short of that removes the copy. */
    method Publish(plan: Plan, validate: Mishap, publish: Mishap, cleanup: Mishap, ghost o: Origin) returns (ok: bool)
      requires plan.index in staging
      modifies `staging, `finals
      ensures old(On(o, plan) && Preserved(o, State()) && staging == map[o.Index() := o.Part()]) ==>
                && On(o, plan) && (if ok then Published(o, State()) else Preserved(o, State()))
                && (validate == publish == Fine ==> ok)
      ensures finals == if ok then old(finals)[plan.index := old(staging)[plan.index]] else old(finals)
      ensures ok ==> validate == publish == Fine
    {
      hide CompletedOk, PrefixLength, Accepted, RecordsOk, Recorded;
      if validate == Dies || publish == Dies { return false; }
      if validate == Raises || publish == Raises || plan.index in finals {
        if old(On(o, plan)) { PartsBehind(o); }
        if cleanup == Fine { staging := staging - {plan.index}; }
        return false;
      }
      finals, staging := finals[plan.index := staging[plan.index]], staging - {plan.index};
      return true;
    }

    /** Preserve the source, copy and validate its kept prefix, and publish that. */
    method Recover(plan: Plan, mishap: nat -> Mishap, copying: nat -> Mishap, ghost o: Origin) returns (ok: bool)
      modifies `partials, `evidence, `staging, `finals
      ensures old(On(o, plan)) ==>
                && On(o, plan) && (ok ==> Published(o, State()))
                && ((forall k :: mishap(k) == copying(k) == Fine) ==> ok)
      ensures partials != old(partials) ==> mishap(2) == Fine
      ensures staging != old(staging) ==> mishap(4) == Fine
      ensures finals != old(finals) ==> mishap(5) == mishap(6) == Fine
      ensures ok ==> if plan.index in old(finals) then mishap(3) == Fine else mishap(5) == mishap(6) == Fine
    {
      hide CompletedOk, PrefixLength, Accepted, RecordsOk, Recorded;
      ok := Preserve(plan, mishap(2), o);
      if !ok { return; }
      if plan.index in finals {
        if On(o, plan) { IsPublished(plan, o); }
        if finals[plan.index] != evidence[plan.index][..if plan.recoveredBytes <= |plan.digest| then plan.recoveredBytes else 0]
           || mishap(3) != Fine { return false; }
        return true;
      }
      if mishap(4) != Fine { return false; }
      ok := Stage(plan, copying, o);
      if !ok || plan.index !in staging { return false; }
      ok := Publish(plan, mishap(5), mishap(6), mishap(7), o);
    }

    lemma IsPublished(plan: Plan, o: Origin)
      requires On(o, plan) && plan.index in finals
      ensures Published(o, State()) && plan.index in evidence && plan.recoveredBytes <= |plan.digest|
      ensures finals[plan.index] == evidence[plan.index][..plan.recoveredBytes]
    {
      hide CompletedOk, Accepted, RecordsOk, Recorded;
      PartsBehind(o);
    }

    /** Record the recovery once; a different record for the same part is refused. */
    method Commit(plan: Plan, ghost o: Origin) returns (ok: bool)
      modifies `records, `partCount
      ensures old(On(o, plan) && Published(o, State())) ==> ok && Done(o)
    {
      hide CompletedOk, PrefixLength, Accepted, RecordsOk;
      var k := 0;
      while k < |records|
        invariant 0 <= k <= |records| && records == old(records) && partCount == old(partCount)
        invariant forall j | 0 <= j < k :: records[j].part != plan.index
      {
        if records[k].part == plan.index {
          IsRecorded(records, k);
          if old(On(o, plan) && Published(o, State())) { PartsBehind(o); }
          return records[k] == RecordOf(plan);
        }
        k := k + 1;
      }
      records := records + [RecordOf(plan)];
      partCount := plan.index;
      return true;
    }

    ghost predicate Planned(o: Origin, plan: Plan)
      reads this
    {
      o.Valid() && InProgress(o, State()) && plan == o.Plan()
    }

    ghost predicate Done(o: Origin)
      reads this
    {
      o.Valid() && Settled(o, State())
    }

    /** The job says, durably and before anything moves, that this recovery owns the artifacts. */
    method Claim(plan: Plan, mishap: Mishap, ghost o: Origin) returns (ok: bool)
      modifies `job
      ensures old(Planned(o, plan)) ==> Planned(o, plan) && (ok ==> On(o, plan)) && (mishap == Fine ==> ok)
    {
      hide CompletedOk, PrefixLength, Accepted, RecordsOk, Recorded, PlanFor;
      if job == RecoveringWriter { return true; }
      if mishap != Fine { return false; }
      job := RecoveringWriter;
      return true;
    }

    /** Carry out a plan as far as mishaps let it. */
    method Resume(plan: Plan, mishap: nat -> Mishap, copying: nat -> Mishap, ghost o: Origin) returns (ok: bool)
      modifies this
      ensures old(Planned(o, plan)) ==> if ok then Done(o) else Planned(o, plan)
      ensures old(Planned(o, plan)) && (forall k :: mishap(k) == copying(k) == Fine) ==> ok
      ensures partials != old(partials) ==> mishap(1) == mishap(2) == Fine
      ensures finals != old(finals) ==> mishap(5) == mishap(6) == Fine
      ensures records != old(records) ==> mishap(8) == Fine
      ensures ok ==> if plan.index in old(finals) then mishap(3) == Fine else mishap(5) == mishap(6) == Fine
    {
      hide *;
      ok := Claim(plan, mishap(0), o);
      if !ok || mishap(1) != Fine { return false; }
      ok := Recover(plan, mishap, copying, o);
      OnIsPlanned(o, plan);
      if !ok || mishap(8) != Fine { return false; }
      ok := Commit(plan, o);
      OnIsPlanned(o, plan);
    }

    lemma OnIsPlanned(o: Origin, plan: Plan)
      ensures On(o, plan) ==> Planned(o, plan)
      ensures o.Valid() && Settled(o, State()) ==> Done(o)
    {
      hide CompletedOk, PrefixLength, Accepted, RecordsOk, Recorded, PlanFor;
    }

    ghost predicate Underway(o: Origin)
      reads this
    {
      o.Valid() && InProgress(o, State())
    }

    lemma Sees(o: Origin)
      ensures Underway(o) ==> InspectionOf(State()).Pending? && Planned(o, InspectionOf(State()).plan)
                               && InspectionOf(State()).plan.index == o.Index()
      ensures Done(o) ==> InspectionOf(State()).Complete?
    {
      hide *;
      if Underway(o) { UnderwayPlans(o); }
      if Done(o) { DoneIsComplete(o); }
    }

    lemma UnderwayPlans(o: Origin)
      requires Underway(o)
      ensures InspectionOf(State()).Pending? && Planned(o, InspectionOf(State()).plan)
                               && InspectionOf(State()).plan.index == o.Index()
    {
      hide InspectionOf, InProgress, CompletedOk, RecordsOk, Accepted, PrefixLength;
      EveryLookPlansTheSame(o, State());
    }

    lemma PlannedIsUnderway(o: Origin, plan: Plan)
      requires Planned(o, plan)
      ensures Underway(o)
    {
    }

    lemma DoneIsComplete(o: Origin)
      requires Done(o)
      ensures InspectionOf(State()) == Complete(o.Index())
    {
      hide InspectionOf, Settled, Origin.Valid;
      SettledIsComplete(o, State());
    }

    lemma IsUnderway(o: Origin)
      requires o.Valid() && InProgress(o, State())
      ensures Underway(o)
    {
    }

    lemma Ends(s: Snapshot, o: Origin)
      requires InspectionOf(s).Pending? && s.partials != map[]
      requires |s.finals| + 1 in s.partials && o == OriginOf(s)
      requires Underway(o) || Done(o)
      ensures HasWriterHeader(s.partials[|s.finals| + 1])
      ensures Underway(o) ==> InspectionOf(State()) == InspectionOf(s)
      ensures Done(o) ==> State() == FinalOf(s)
      ensures InspectionOf(FinalOf(s)) == Complete(|s.finals| + 1)
      ensures var i, source, t := |s.finals| + 1, s.partials[|s.finals| + 1], State();
              && (i in t.partials <==> i !in t.evidence)
              && (if i in t.partials then t.partials[i] else t.evidence[i]) == source
    {
      hide InspectionOf, InProgress, Settled, CompletedOk, RecordsOk, PlanFor, Accepted, PrefixLength, FinalOf;
      StartsUnderway(s);
      SettledIsFinal(s, FinalOf(s));
      SettledIsFinal(s, State());
      SettledIsComplete(o, FinalOf(s));
      SourceIsInOnePlace(o, State());
      if Underway(o) { EveryLookPlansTheSame(o, State()); }
    }

    /** One reconciliation: look, claim the job, recover, record, look again. Wherever it stops, the
        next one can take over; when nothing stops it, the recovery is settled. */
    method Reconcile(mishap: nat -> Mishap, copying: nat -> Mishap, ghost o: Origin) returns (ok: bool)
      modifies this
      ensures old(Underway(o)) ==> if ok then Done(o) else Underway(o)
      ensures old(Underway(o)) && (forall k :: mishap(k) == copying(k) == Fine) ==> ok
      ensures old(Done(o)) ==> ok && Done(o) && State() == old(State())
      // Success always means retained parts and nothing left over, wherever the recovery began.
      ensures ok ==> finals != map[] && partials == map[] && staging == map[]
      // Nothing moves without its ownership check, and nothing is published that the validator refused.
      ensures partials != old(partials) ==> mishap(1) == mishap(2) == Fine
      ensures finals != old(finals) ==> mishap(5) == mishap(6) == Fine
      ensures records != old(records) ==> mishap(8) == Fine
      ensures old(Underway(o)) && ok ==> if o.Index() in old(finals) then mishap(3) == Fine else mishap(5) == mishap(6) == Fine
    {
      hide *;
      Sees(o);
      var first := Inspect(State());
      if first.Refused? { return false; }
      CompleteHere();
      if first.Complete? { return true; }
      ok := Resume(first.plan, mishap, copying, o);
      if Planned(o, first.plan) { PlannedIsUnderway(o, first.plan); }
      if !ok { return; }
      var last := Inspect(State());
      Sees(o);
      CompleteHere();
      return last.Complete?;
    }

    lemma CompleteHere()
      ensures InspectionOf(State()).Complete? ==> finals != map[] && partials == map[] && staging == map[]
    {
      hide InspectionOf;
      CompleteHolds(State());
    }
  }

  lemma CompleteHolds(s: Snapshot)
    ensures InspectionOf(s).Complete? ==> s.finals != map[] && s.partials == map[] && s.staging == map[]
  {
    hide InspectionOf, PartsAre, RecordsStand;
    match InspectionOf(s)
    case Complete(n) =>
      CompleteExactly(s, n);
      NothingIsNeverComplete(s);
    case _ =>
  }

  // -------------------------------------------------------------------- whole runs

  /** What a partial's recovery started from, read off the snapshot that found it. */
  function OriginOf(s: Snapshot): Origin
    requires |s.finals| + 1 in s.partials
  {
    Origin(s.finals, s.evidence, s.records, s.partCount, s.partials[|s.finals| + 1])
  }

  /** The one state every recovery of this partial ends in. */
  function FinalOf(s: Snapshot): Snapshot
    requires |s.finals| + 1 in s.partials && HasWriterHeader(s.partials[|s.finals| + 1])
  {
    var o := OriginOf(s);
    Snapshot(o.finals[o.Index() := o.Part()], map[], o.evidence[o.Index() := o.source], map[],
             o.records + [o.Record()], o.Index(), RecoveringWriter, true)
  }

  lemma StartsUnderway(s: Snapshot)
    requires InspectionOf(s).Pending? && s.partials != map[]
    ensures |s.finals| + 1 in s.partials && OriginOf(s).Valid() && InProgress(OriginOf(s), s)
    ensures InspectionOf(s) == Pending(OriginOf(s).Plan())
  {
    hide InspectionOf, InProgress, CompletedOk, RecordsOk, Unrecorded, Recoverable, Active, Origin.Valid;
    PendingPartial(s);
    StartValid(s);
    StartUntouched(s);
  }

  /** What a pending partial's inspection found. */
  lemma PendingPartial(s: Snapshot)
    requires InspectionOf(s).Pending? && s.partials != map[]
    ensures var n := |s.finals| + 1;
            && s.partials.Keys == {n} && n in s.partials && CompletedOk(s.finals) && RecordsOk(s) && Unrecorded(s) == {}
            && s.staging == map[] && s.partCount <= n - 1 && Active(s) && n !in s.evidence && Recoverable(s.partials[n])
            && InspectionOf(s) == Pending(PlanFor(n, s.partials[n]))
  {
    hide CompletedOk, RecordsOk, PlanFor, Accepted, PrefixLength, Recorded;
    var n := |s.finals| + 1;
    assert n in s.partials.Keys;
  }

  lemma StartValid(s: Snapshot)
    requires InspectionOf(s).Pending? && s.partials != map[]
    ensures |s.finals| + 1 in s.partials && OriginOf(s).Valid()
  {
    hide InspectionOf, CompletedOk, RecordsOk, Recoverable, Unrecorded, Recorded, Active, PlanFor, Origin.Valid;
    PendingPartial(s);
    StartRecords(s);
    EvidenceRecorded(s);
    OriginFrom(OriginOf(s));
  }

  lemma StartRecords(s: Snapshot)
    requires RecordsOk(s) && |s.finals| + 1 in s.partials
    ensures RecordsOk(OriginOf(s).Before())
  {
    hide RecordsOk;
    SameRecords(s, OriginOf(s).Before());
  }

  lemma OriginFrom(o: Origin)
    requires CompletedOk(o.finals) && Recoverable(o.source) && o.partCount <= |o.finals| && o.Index() !in o.evidence
    requires RecordsOk(o.Before()) && o.evidence.Keys <= Recorded(o.records)
    ensures o.Valid()
  {
    hide CompletedOk, Recoverable, RecordsOk, Recorded;
  }

  lemma EvidenceRecorded(s: Snapshot)
    requires Unrecorded(s) == {}
    ensures s.evidence.Keys <= Recorded(s.records)
  {
    hide Recorded;
    forall i | i in s.evidence.Keys ensures i in Recorded(s.records) {
      assert i !in Unrecorded(s);
    }
  }

  lemma StartUntouched(s: Snapshot)
    requires InspectionOf(s).Pending? && s.partials != map[]
    ensures |s.finals| + 1 in s.partials && HasWriterHeader(OriginOf(s).source) && InProgress(OriginOf(s), s)
  {
    hide InspectionOf, CompletedOk, RecordsOk, Accepted, PrefixLength, HasWriterHeader, Untouched, Preserved, Published, Unrecorded;
    PendingPartial(s);
    OnlyPartial(s);
  }

  lemma OnlyPartial(s: Snapshot)
    requires |s.finals| + 1 in s.partials && s.partials.Keys == {|s.finals| + 1} && s.staging == map[] && Active(s)
    ensures Untouched(OriginOf(s), s) && s.owned
  {
    hide PrefixLength, HasWriterHeader;
    var n := |s.finals| + 1;
    assert s.partials == map[n := s.partials[n]];
  }

  lemma SettledIsFinal(s: Snapshot, t: Snapshot)
    requires |s.finals| + 1 in s.partials && HasWriterHeader(s.partials[|s.finals| + 1])
    ensures Settled(OriginOf(s), t) <==> t == FinalOf(s)
  {
    hide PrefixLength, HasWriterHeader;
  }

  datatype Attempt = Attempt(mishap: nat -> Mishap, copying: nat -> Mishap)

  ghost predicate Undisturbed(a: Attempt) { forall k :: a.mishap(k) == a.copying(k) == Fine }

  /** Any number of reconciliations, each stopped anywhere or not at all: the plan never changes, one
      undisturbed attempt settles it, and there is one settled state however it was reached. */
  method ReconcileAgainAndAgain(s: Snapshot, attempts: seq<Attempt>) returns (t: Snapshot)
    requires InspectionOf(s).Pending? && s.partials != map[]
    ensures |s.finals| + 1 in s.partials && HasWriterHeader(s.partials[|s.finals| + 1])
    ensures InspectionOf(t) == InspectionOf(s) || t == FinalOf(s)
    ensures (exists a | a in attempts :: Undisturbed(a)) ==> t == FinalOf(s)
    ensures InspectionOf(FinalOf(s)) == Complete(|s.finals| + 1)
    ensures var i, source := |s.finals| + 1, s.partials[|s.finals| + 1];
            && (i in t.partials <==> i !in t.evidence)
            && (if i in t.partials then t.partials[i] else t.evidence[i]) == source
  {
    hide *;
    StartsUnderway(s);
    ghost var o := OriginOf(s);
    var storage := new RecoveryStorage(s);
    storage.IsUnderway(o);
    var k := 0;
    while k < |attempts|
      invariant 0 <= k <= |attempts| && fresh(storage)
      invariant storage.Underway(o) || storage.Done(o)
      invariant (exists a | a in attempts[..k] :: Undisturbed(a)) ==> storage.Done(o)
    {
      var ok := storage.Reconcile(attempts[k].mishap, attempts[k].copying, o);
      UndisturbedMeans(attempts[k]);
      assert attempts[..k + 1] == attempts[..k] + [attempts[k]];
      k := k + 1;
    }
    assert attempts[..k] == attempts;
    t := storage.State();
    storage.Ends(s, o);
  }

  lemma UndisturbedMeans(a: Attempt)
    ensures Undisturbed(a) <==> forall k :: a.mishap(k) == a.copying(k) == Fine
  {
  }
}
