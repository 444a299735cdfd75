/** Recovering a crashed writer's partial, restartable after a crash between any two of its steps. */
module WriterRecovery {
  import opened Wrappers
  import opened Flv
  import opened FlvPrefix
  import opened WriterWindows
  import opened PartStructure
  import opened RecoveryInspection

  // --------------------------------------------------------------- the states of a run

  /** What a recovery starts from: completed parts with their proven records, and one owned partial. */
  datatype Origin = Origin(finals: map<nat, Bytes>, evidence: map<nat, Bytes>, records: seq<Record>, partCount: nat,
                           source: Bytes)
  {
    function Index(): nat { |finals| + 1 }

    ghost predicate Valid() {
      && CompletedOk(finals) && Recoverable(source) && partCount <= |finals| && Index() !in evidence
      && RecordsOk(Before()) && evidence.Keys <= Recorded(records)
    }

    function Before(): Snapshot {
      Snapshot(finals, map[Index() := source], evidence, map[], records, partCount, Recording, true)
    }

    function Plan(): Plan
      requires HasWriterHeader(source)
    {
      PlanFor(Index(), source)
    }

    function Part(): Bytes
      requires HasWriterHeader(source)
    {
      source[..PrefixLength(source)]
    }

    function Record(): Record
      requires HasWriterHeader(source)
    {
      RecordOf(Plan())
    }
  }

  function RecordOf(p: Plan): Record {
    Record(p.index, p.index, p.digest, p.sourceBytes, p.recoveredBytes, p.sourceBytes - p.recoveredBytes)
  }

  /** The partial has not been touched. */
  ghost predicate Untouched(o: Origin, s: Snapshot) {
    && s.partials == map[o.Index() := o.source] && s.evidence == o.evidence && s.finals == o.finals
    && s.staging == map[] && (s.job == Recording || s.job == RecoveringWriter)
  }

  /** The partial has become evidence; a copy of its prefix may have been begun. */
  ghost predicate Preserved(o: Origin, s: Snapshot) {
    && s.partials == map[] && s.evidence == o.evidence[o.Index() := o.source] && s.finals == o.finals
    && s.staging.Keys <= {o.Index()} && s.job == RecoveringWriter
  }

  /** The prefix is published and not yet recorded. */
  ghost predicate Published(o: Origin, s: Snapshot)
    requires HasWriterHeader(o.source)
  {
    && s.partials == map[] && s.evidence == o.evidence[o.Index() := o.source]
    && s.finals == o.finals[o.Index() := o.Part()] && s.staging == map[] && s.job == RecoveringWriter
  }

  ghost predicate InProgress(o: Origin, s: Snapshot)
    requires HasWriterHeader(o.source)
  {
    && s.records == o.records && s.partCount == o.partCount && s.owned
    && (Untouched(o, s) || Preserved(o, s) || Published(o, s))
  }

  /** The recovery has been recorded. */
  ghost predicate Settled(o: Origin, s: Snapshot)
    requires HasWriterHeader(o.source)
  {
    && Published(o, s) && s.records == o.records + [o.Record()] && s.partCount == o.Index() && s.owned
  }

  // ------------------------------------------------------------ every look agrees

  lemma UntouchedPlans(o: Origin, s: Snapshot)
    requires o.Valid() && InProgress(o, s) && Untouched(o, s)
    ensures InspectionOf(s) == Pending(o.Plan())
  {
    hide CompletedOk, Recoverable, PlanFor, RecordsOk, Recorded;
    SameRecords(o.Before(), s);
    assert o.Index() in s.partials;
  }

  /** A record only depends on the two files it names and the records before it. */
  lemma SameRecord(s: Snapshot, s2: Snapshot, k: nat)
    requires k < |s.records| <= |s2.records| && s.records == s2.records[..|s.records|] && RecordOk(s, k)
    requires forall i | i in s.finals :: i in s2.finals && s2.finals[i] == s.finals[i]
    requires forall i | i in s.evidence :: i in s2.evidence && s2.evidence[i] == s.evidence[i]
    ensures RecordOk(s2, k)
  {
    assert forall j | 0 <= j <= k :: s2.records[j] == s.records[j];
  }

  lemma SameRecords(s: Snapshot, s2: Snapshot)
    requires RecordsOk(s) && s2.records == s.records
    requires forall i | i in s.finals :: i in s2.finals && s2.finals[i] == s.finals[i]
    requires forall i | i in s.evidence :: i in s2.evidence && s2.evidence[i] == s.evidence[i]
    ensures RecordsOk(s2)
  {
    hide RecordOk;
    assert s.records == s2.records[..|s.records|];
    forall k | 0 <= k < |s2.records| ensures RecordOk(s2, k) { SameRecord(s, s2, k); }
  }

  lemma PartsBehind(o: Origin)
    requires o.Valid()
    ensures o.Index() !in o.finals && o.Index() !in Recorded(o.records) && o.evidence.Keys <= Recorded(o.records)
    ensures forall i | i in o.finals :: 1 <= i <= |o.finals|
  {
    hide Accepted, Recoverable, PrefixLength;
    ContiguousKeys(o.finals);
    forall r | r in o.records ensures r.part in o.finals {
      var k :| 0 <= k < |o.records| && o.records[k] == r;
      assert RecordOk(o.Before(), k);
    }
  }

  lemma RecordsStay(o: Origin, s: Snapshot)
    requires o.Valid() && s.records == o.records
    requires s.finals == o.finals || s.finals == o.finals[o.Index() := o.Part()]
    requires s.evidence == o.evidence[o.Index() := o.source]
    ensures RecordsOk(s) && Unrecorded(s) == {o.Index()}
  {
    hide CompletedOk, Recoverable, PrefixLength, RecordsOk, Recorded;
    PartsBehind(o);
    SameRecords(o.Before(), s);
  }

  lemma PreservedPlans(o: Origin, s: Snapshot)
    requires o.Valid() && InProgress(o, s) && Preserved(o, s)
    ensures InspectionOf(s) == Pending(o.Plan())
  {
    hide CompletedOk, Recoverable, PrefixLength, RecordOk, RecordsOk, Recorded;
    RecordsStay(o, s);
  }

  /** The published prefix is itself an accepted part. */
  lemma PrefixIsAccepted(o: Origin)
    requires o.Valid()
    ensures Accepted(o.Part(), None)
  {
    hide Structured, PrefixLength, ReadStream;
    assert o.Part()[..13] == o.source[..13] == WRITER_HEADER;
  }

  lemma PublishedParts(o: Origin, s: Snapshot)
    requires o.Valid() && Published(o, s)
    ensures CompletedOk(s.finals) && |s.finals| == o.Index() && s.finals[o.Index()] == o.Part()
  {
    hide Accepted, Recoverable, PrefixLength, RecordOk, RecordsOk, Recorded;
    PartsBehind(o);
    PrefixIsAccepted(o);
  }

  lemma PublishedPlans(o: Origin, s: Snapshot)
    requires o.Valid() && InProgress(o, s) && Published(o, s)
    ensures InspectionOf(s) == Pending(o.Plan())
  {
    hide CompletedOk, Recoverable, PrefixLength, RecordOk, RecordsOk, Recorded;
    RecordsStay(o, s);
    PublishedParts(o, s);
  }

  /** However far an interrupted recovery came, the next look makes the same plan: the same part
      number, source length, source digest and recovered length. */
  lemma EveryLookPlansTheSame(o: Origin, s: Snapshot)
    requires o.Valid() && InProgress(o, s)
    ensures InspectionOf(s) == Pending(o.Plan())
  {
    hide InspectionOf, Origin.Valid, Untouched, Preserved, Published, PlanFor;
    if Untouched(o, s) { UntouchedPlans(o, s); }
    else if Preserved(o, s) { PreservedPlans(o, s); }
    else { PublishedPlans(o, s); }
  }

  lemma PrefixLeavesRest(o: Origin)
    requires o.Valid()
    ensures Proves(o.Record(), o.source, o.Part())
  {
  }

  /** Once recorded, every look finds one more completed part and nothing to recover. */
  lemma SettledIsComplete(o: Origin, s: Snapshot)
    requires o.Valid() && Settled(o, s)
    ensures InspectionOf(s) == Complete(o.Index())
  {
    hide CompletedOk, PrefixLength, RecordsOk, Recorded, Accepted;
    PublishedParts(o, s);
    PartsBehind(o);
    SettledRecords(o, s);
  }

  lemma SettledRecords(o: Origin, s: Snapshot)
    requires o.Valid() && Settled(o, s)
    ensures RecordsOk(s) && Recorded(s.records) == Recorded(o.records) + {o.Index()}
  {
    hide CompletedOk, PrefixLength, RecordOk, Accepted, Published;
    var n := |o.records|;
    PublishedKeeps(o, s);
    assert s.records[..n] == o.records && s.records[n] == o.Record();
    forall k | 0 <= k < n ensures RecordOk(s, k) {
      assert RecordOk(o.Before(), k);
      SameRecord(o.Before(), s, k);
    }
    NewRecordOk(o, s);
    assert forall r | r in o.records :: r in s.records;
    assert o.Record() in s.records;
  }

  lemma PublishedKeeps(o: Origin, s: Snapshot)
    requires o.Valid() && Published(o, s)
    ensures forall i | i in o.finals :: i in s.finals && s.finals[i] == o.finals[i]
    ensures forall i | i in o.evidence :: i in s.evidence && s.evidence[i] == o.evidence[i]
  {
    hide CompletedOk, PrefixLength, RecordOk, Accepted;
    PartsBehind(o);
  }

  lemma IsRecorded(records: seq<Record>, j: nat)
    requires j < |records|
    ensures records[j].part in Recorded(records)
  {
    assert records[j] in records;
  }

  lemma NewRecordOk(o: Origin, s: Snapshot)
    requires o.Valid() && Settled(o, s)
    ensures RecordOk(s, |o.records|)
  {
    hide PrefixLength, Accepted, Recorded;
    PartsBehind(o);
    PrefixLeavesRest(o);
    PublishedParts(o, s);
    forall j | 0 <= j < |o.records| ensures s.records[j].part != o.Index() {
      assert s.records[j] == o.records[j];
      IsRecorded(o.records, j);
    }
  }

  /** Throughout, the crashed bytes exist in exactly one of the two places. */
  lemma SourceIsInOnePlace(o: Origin, s: Snapshot)
    requires o.Valid() && (InProgress(o, s) || Settled(o, s))
    ensures var i := o.Index();
            && (i in s.partials <==> i !in s.evidence)
            && (if i in s.partials then s.partials[i] else s.evidence[i]) == o.source
  {
    hide CompletedOk, Recoverable, PrefixLength, RecordOk, RecordsOk;
  }
}
