/** What the journal guarantees over every run of calls, faults and retries. */
module JournalGuarantees {
  import opened Wrappers
  import opened JournalTypes
  import opened JournalTables
  import opened JournalSpec
  import opened JournalInvariant
  import opened JournalPreserve
  import opened JournalPreserveTasks
  import opened JournalPreserveReserve
  import opened JournalRuns
  import opened JournalHistory

  lemma GrowsMeans(t: Tables, u: Tables)
    requires Grows(t, u)
    ensures forall o | o in t.operations :: o in u.operations && u.operations[o] == t.operations[o]
    ensures forall c | c in t.receipts :: c in u.receipts && u.receipts[c] == t.receipts[c]
    ensures forall s | s in t.sessions :: s in u.sessions && RowGrows(t.sessions[s], u.sessions[s])
    ensures t.queueSeq <= u.queueSeq
  {
  }

  // ------------------------------------------------------------- exactly once

  /** How often a run changed the durable tables under one operation identity. */
  ghost function Effects(calls: seq<Call>, o: Id): nat
    decreases |calls|
  {
    if calls == [] then 0
    else
      var last := |calls| - 1;
      Effects(calls[..last], o)
      + if calls[last].operation == o && Reached(calls) != Reached(calls[..last]) then 1 else 0
  }

  lemma CaptureKeepsOperations(t: Tables, o: Id, req: Request)
    requires TaskConstraints(t) && Act(t, o, req).Done?
    requires req.Admit? || req.CaptureIntent? || req.Handoff? || req.SettleReservation?
    ensures Act(t, o, req).next.operations == t.operations
  {
    hide TaskConstraints, CaptureGuard, AdmissionRefused, SealBound, SealInsideParts, ArtifactsWithout, RoomsWithout, Unbound;
  }

  lemma ReserveKeepsOperations(t: Tables, o: Id, req: Request)
    requires TaskConstraints(t) && Act(t, o, req).Done? && req.Reserve?
    ensures Act(t, o, req).next.operations == t.operations
  {
    hide TaskConstraints, AdmissionRefused, SessionReceiptValid, FreeSlot, Claims;
  }

  lemma TaskKeepsOperations(t: Tables, o: Id, req: Request)
    requires TaskConstraints(t) && Act(t, o, req).Done?
    requires !(req.Reserve? || req.Admit? || req.CaptureIntent? || req.Handoff? || req.SettleReservation?)
    ensures Act(t, o, req).next.operations == t.operations
  {
    hide TaskConstraints, TaskGuard, TokenTaken, ArtifactsWithout, RoomsWithout;
  }

  lemma ActKeepsOperations(t: Tables, o: Id, req: Request)
    requires TaskConstraints(t) && Act(t, o, req).Done?
    ensures Act(t, o, req).next.operations == t.operations
  {
    hide Act, TaskConstraints;
    if req.Reserve? {
      ReserveKeepsOperations(t, o, req);
    } else if req.Admit? || req.CaptureIntent? || req.Handoff? || req.SettleReservation? {
      CaptureKeepsOperations(t, o, req);
    } else {
      TaskKeepsOperations(t, o, req);
    }
  }

  lemma AfterRecords(t: Tables, o: Id, req: Request)
    requires TaskConstraints(t) && Act(t, o, req).Done?
    ensures After(t, o, req).operations == t.operations[o := OperationRow(req, Act(t, o, req).result)]
  {
    hide Act, TaskConstraints;
    ActKeepsOperations(t, o, req);
  }

  /** A step under another identity changes no receipt of this one. */
  lemma StepRecords(t: Tables, call: Call, o: Id)
    requires Sound(t) && TaskConstraints(t)
    ensures var u := Transact(t, call).0;
            o in u.operations <==> o in t.operations || (call.operation == o && u != t)
    ensures var u := Transact(t, call).0; call.operation == o && o in t.operations ==> u == t
  {
    hide Sound, Act, ArgumentsAcceptable, TaskConstraints, Record, Transact, Attempted, After;
    StepCases(t, call);
    if Transact(t, call).0 != t {
      AfterRecords(t, call.operation, call.request);
    }
  }

  /** Each operation identity takes effect exactly once if its receipt exists, and never otherwise. */
  lemma {:induction false} EffectsOccurOnce(calls: seq<Call>, o: Id)
    ensures Effects(calls, o) == if o in Reached(calls).operations then 1 else 0
    decreases |calls|
  {
    hide Reached, Transact, Sound, TaskConstraints;
    if calls == [] {
      ReachedNothing();
    } else {
      var last := |calls| - 1;
      EffectsOccurOnce(calls[..last], o);
      assert calls == calls[..last] + [calls[last]];
      RunUnfolds(calls[..last], calls[last]);
      StepRecords(Reached(calls[..last]), calls[last], o);
    }
  }

  lemma ReachedNothing()
    ensures Reached([]) == Fresh() && Fresh().operations == map[]
  {
    FreshIsSound();
  }

  ghost predicate RequestsAcceptable(t: Tables) {
    forall o | o in t.operations :: ArgumentsAcceptable(t.operations[o].request)
  }

  lemma {:induction false} RecordedRequestsAcceptable(calls: seq<Call>)
    ensures RequestsAcceptable(Reached(calls))
    decreases |calls|
  {
    hide Reached, Transact, ArgumentsAcceptable, After, Act, Sound, TaskConstraints;
    if calls == [] {
      ReachedNothing();
    } else {
      var last := |calls| - 1;
      RecordedRequestsAcceptable(calls[..last]);
      assert calls == calls[..last] + [calls[last]];
      RunUnfolds(calls[..last], calls[last]);
      StepCases(Reached(calls[..last]), calls[last]);
      var t := Reached(calls[..last]);
      if Reached(calls) != t {
        AfterRecords(t, calls[last].operation, calls[last].request);
      }
    }
  }

  /** No fault keeps the answer of a call that only reads from its caller. */
  predicate Answers(fault: Fault) { !fault.FaultAtBegin? && !fault.FaultOnRollback? && !fault.FaultOnClose? }

  /** Once an operation is recorded, calling it again in any later state changes nothing: the same request gets
      its first result, another request a conflict, and a fault can only keep the answer from the caller. */
  lemma ReplayIsHistorical(calls: seq<Call>, more: seq<Call>, call: Call)
    requires call.operation in Reached(calls).operations
    ensures var first := Reached(calls).operations[call.operation];
            var t := Reached(calls + more);
            && Transact(t, call).0 == t
            && (ArgumentsAcceptable(call.request) && !Answers(call.fault) ==> Transact(t, call).1 in {Interrupted, Uncertain})
            && (Answers(call.fault) && call.request == first.request ==> Transact(t, call).1 == Returned(first.result))
            && (Answers(call.fault) && call.request != first.request && ArgumentsAcceptable(call.request) ==>
                  Transact(t, call).1 == Refused(Conflict))
  {
    hide *;
    HistoryIsPermanent(calls, more);
    GrowsMeans(Reached(calls), Reached(calls + more));
    RecordedRequestsAcceptable(calls);
    AcceptableMeans(Reached(calls), call.operation);
    ReplayDecided(Reached(calls + more), call);
  }

  lemma AcceptableMeans(t: Tables, o: Id)
    requires RequestsAcceptable(t) && o in t.operations
    ensures ArgumentsAcceptable(t.operations[o].request)
  {
  }

  lemma ReplayDecided(t: Tables, call: Call)
    requires Sound(t) && TaskConstraints(t) && call.operation in t.operations
    ensures Transact(t, call).0 == t
    ensures ArgumentsAcceptable(call.request) && !Answers(call.fault) ==> Transact(t, call).1 in {Interrupted, Uncertain}
    ensures Answers(call.fault) && ArgumentsAcceptable(call.request) ==>
              Transact(t, call).1 == (if call.request == t.operations[call.operation].request
                                      then Returned(t.operations[call.operation].result) else Refused(Conflict))
  {
    hide Sound, Act, ArgumentsAcceptable, TaskConstraints, Record, Transact, Attempted;
    AuditsNeverReject(t, call);
  }

  // --------------------------------------------------- automatic acceptance

  lemma ClaimantIsReceipted(t: Tables, claim: Id)
    requires SessionConstraints(t) && ReceiptConstraints(t) && Provenance(t) && claim in t.receipts
    ensures Claimant(t, claim) == Some(t.receipts[claim].session)
    ensures var s := t.receipts[claim].session;
            s in t.sessions && SessionReceiptValid(t, s) && t.sessions[s].intent == t.receipts[claim].intent
  {
    var s := t.receipts[claim].session;
    assert SessionReceiptValid(t, s);
    assert Claims(t, s, claim);
  }

  lemma ReserveReplays(t: Tables, o: Id, intent: SessionIntent, slot: Option<int>)
    requires Sound(t) && TaskConstraints(t) && intent.automaticClaim.Some? && intent.automaticClaim.value in t.receipts
    ensures var receipt := t.receipts[intent.automaticClaim.value];
            receipt.session in t.sessions
            && Act(t, o, Reserve(intent, slot)) ==
               if receipt.intent != intent then Refuse(Conflict)
               else Done(t, CaptureResult(receipt.session, t.sessions[receipt.session].originSlot,
                                          t.sessions[receipt.session].generation, 1))
  {
    hide Sound, Schema, SessionConstraints, ReceiptConstraints, Provenance, SessionReceiptValid, ReserveNew, Claimant,
         TaskConstraints;
    SoundMeans(t);
    SchemaMeans(t);
    ClaimantIsReceipted(t, intent.automaticClaim.value);
  }

  /** Repeating an accepted automatic claim, under any identity and in any later state, returns the
      original acceptance and changes nothing but the new receipt; another intent conflicts. */
  lemma AutomaticClaimIsPermanent(calls: seq<Call>, more: seq<Call>, o: Id, intent: SessionIntent, slot: Option<int>)
    requires intent.automaticClaim.Some? && intent.automaticClaim.value in Reached(calls).receipts
    ensures var t, receipt := Reached(calls), Reached(calls).receipts[intent.automaticClaim.value];
            && receipt.session in t.sessions
            && Act(Reached(calls + more), o, Reserve(intent, slot)) ==
               if receipt.intent != intent then Refuse(Conflict)
               else Done(Reached(calls + more),
                         CaptureResult(receipt.session, t.sessions[receipt.session].originSlot,
                                       t.sessions[receipt.session].generation, 1))
  {
    hide *;
    HistoryIsPermanent(calls, more);
    GrowsMeans(Reached(calls), Reached(calls + more));
    ReserveReplays(Reached(calls), o, intent, slot);
    ReserveReplays(Reached(calls + more), o, intent, slot);
    var s := Reached(calls).receipts[intent.automaticClaim.value].session;
    RowMeans(Reached(calls).sessions[s], Reached(calls + more).sessions[s]);
  }

  lemma RowMeans(a: SessionRow, b: SessionRow)
    requires RowGrows(a, b)
    ensures b.originSlot == a.originSlot && b.generation == a.generation && b.intent == a.intent
    ensures a.revision <= b.revision && (Terminal(a.phase) ==> b == a)
  {
  }

  // ----------------------------------------------------------- terminal sessions

  lemma ValidIsNotTerminal(t: Tables, s: Id)
    requires s in t.sessions && (CaptureValid(t, s) || TaskValid(t, s))
    ensures !Terminal(t.sessions[s].phase)
  {
  }

  lemma TerminalHasNoUnit(t: Tables, s: Id)
    requires Audit(t) && s in t.sessions && Terminal(t.sessions[s].phase)
    ensures s !in t.units
  {
    hide *;
    if s in t.units {
      UnitMeans(t, s);
      ValidIsNotTerminal(t, s);
    }
  }

  /** A completed or unassembled session never changes again and never holds a unit again. */
  lemma TerminalIsForever(calls: seq<Call>, more: seq<Call>, s: Id)
    requires s in Reached(calls).sessions && Terminal(Reached(calls).sessions[s].phase)
    ensures var u := Reached(calls + more); s in u.sessions && u.sessions[s] == Reached(calls).sessions[s] && s !in u.units
  {
    hide *;
    HistoryIsPermanent(calls, more);
    GrowsMeans(Reached(calls), Reached(calls + more));
    RowMeans(Reached(calls).sessions[s], Reached(calls + more).sessions[s]);
    SoundMeans(Reached(calls + more));
    TerminalHasNoUnit(Reached(calls + more), s);
  }

  // ------------------------------------------------------------------ ownership

  /** Two outstanding sessions never share a room or overlap in any claimed path, and no file sealed
      by one overlaps any claim of the other. */
  ghost predicate Exclusive(t: Tables, a: Id, b: Id)
    requires a in t.sessions && b in t.sessions
  {
    var left, right := t.sessions[a], t.sessions[b];
    && (CurrentRoom(left).Some? ==> CurrentRoom(left) != CurrentRoom(right))
    && !left.intent.output.Overlaps(right.intent.output) && !left.intent.output.Overlaps(right.intent.parts)
    && !left.intent.parts.Overlaps(right.intent.output) && !left.intent.parts.Overlaps(right.intent.parts)
    && (left.seal.Some? ==> forall f | f in left.seal.value.artifacts ::
          !f.identity.Overlaps(right.intent.output) && !f.identity.Overlaps(right.intent.parts))
  }

  /** One creator's two outstanding sessions are in distinct known rooms and not both still capturing. */
  ghost predicate CreatorSeparated(t: Tables, a: Id, b: Id)
    requires a in t.sessions && b in t.sessions && a in t.units && b in t.units
  {
    t.sessions[a].creator == t.sessions[b].creator ==>
      && CurrentRoom(t.sessions[a]).Some? && CurrentRoom(t.sessions[b]).Some?
      && CurrentRoom(t.sessions[a]) != CurrentRoom(t.sessions[b])
      && (t.units[a] == TaskUnit || t.units[b] == TaskUnit)
  }

  lemma AuditedOwnersExclusive(t: Tables, a: Id, b: Id)
    requires Audit(t) && a in t.units && b in t.units && a != b
    ensures a in t.sessions && b in t.sessions && Exclusive(t, a, b) && CreatorSeparated(t, a, b)
  {
    assert UnitValid(t, a) && OwnershipValid(t, a);
    assert UnitValid(t, b) && OwnershipValid(t, b);
    assert !OwnershipConflict(OwnerOf(t, a), OwnerOf(t, b));
    var left, right := t.sessions[a], t.sessions[b];
    if left.seal.Some? {
      forall f | f in left.seal.value.artifacts
        ensures !f.identity.Overlaps(right.intent.output) && !f.identity.Overlaps(right.intent.parts)
      {
        if f.identity.Overlaps(right.intent.output) {
          OverlapInsideReachesClaim(left.intent.parts, f.identity, right.intent.output);
        }
        if f.identity.Overlaps(right.intent.parts) {
          OverlapInsideReachesClaim(left.intent.parts, f.identity, right.intent.parts);
        }
      }
    }
  }

  lemma OwnershipIsExclusive(calls: seq<Call>, a: Id, b: Id)
    requires a in Reached(calls).units && b in Reached(calls).units && a != b
    ensures var t := Reached(calls);
            a in t.sessions && b in t.sessions && Exclusive(t, a, b) && CreatorSeparated(t, a, b)
  {
    hide *;
    SoundMeans(Reached(calls));
    AuditedOwnersExclusive(Reached(calls), a, b);
  }

  // ----------------------------------------------------------------- conservation

  ghost function BoundSlots(t: Tables): set<int> { set i | i in t.bindings && t.bindings[i].session.Some? }
  ghost function BoundSessions(t: Tables): set<Id> {
    set i | i in t.bindings && t.bindings[i].session.Some? :: t.bindings[i].session.value
  }
  ghost function OutstandingTasks(t: Tables): set<Id> { set s | s in t.tasks && t.tasks[s].state != Completed }

  lemma UnitsSplit(t: Tables)
    requires Audit(t)
    ensures t.units.Keys == BoundSessions(t) + OutstandingTasks(t)
    ensures BoundSessions(t) !! OutstandingTasks(t)
  {
    UnitsAreOwed(t);
    UnitsAreOwned(t);
  }

  lemma UnitsAreOwed(t: Tables)
    requires Audit(t)
    ensures t.units.Keys <= BoundSessions(t) + OutstandingTasks(t)
  {
    forall s | s in t.units.Keys ensures s in BoundSessions(t) + OutstandingTasks(t) {
      assert UnitValid(t, s);
      if t.units[s] == CaptureUnit { assert CaptureValid(t, s); } else { assert TaskValid(t, s); }
    }
  }

  lemma UnitsAreOwned(t: Tables)
    requires Audit(t)
    ensures BoundSessions(t) + OutstandingTasks(t) <= t.units.Keys && BoundSessions(t) !! OutstandingTasks(t)
  {
  }

  lemma OneSessionPerSlot(t: Tables)
    requires BindingConstraints(t) && t.bindings.Keys == {1, 2}
    ensures |BoundSessions(t)| == |BoundSlots(t)| <= 2
  {
    var one, two := t.bindings[1].session, t.bindings[2].session;
    if one.Some? && two.Some? {
      assert BoundSlots(t) == {1, 2} && BoundSessions(t) == {one.value, two.value};
      assert one.value != two.value;
    } else if one.Some? {
      assert BoundSlots(t) == {1} && BoundSessions(t) == {one.value};
    } else if two.Some? {
      assert BoundSlots(t) == {2} && BoundSessions(t) == {two.value};
    } else {
      assert BoundSlots(t) == {} && BoundSessions(t) == {};
    }
  }

  /** Outstanding units are exactly the bound slots plus the unfinished tasks, never more than
      eight, with at most two captures and one running task. */
  lemma UnitsAreConserved(calls: seq<Call>)
    ensures var t := Reached(calls);
            && |t.units| == |BoundSlots(t)| + |OutstandingTasks(t)| <= 8 && |BoundSlots(t)| <= 2
            && forall a, b | a in t.tasks && b in t.tasks && t.tasks[a].state == Running && t.tasks[b].state == Running :: a == b
  {
    hide *;
    var t := Reached(calls);
    SoundMeans(t);
    SchemaMeans(t);
    AuditMeans(t);
    AuditSlots(t);
    UnitsSplit(t);
    OneSessionPerSlot(t);
    assert |t.units| == |t.units.Keys|;
    assert |BoundSessions(t) + OutstandingTasks(t)| == |BoundSessions(t)| + |OutstandingTasks(t)|;
    OneRunning(t);
  }

  lemma OneRunning(t: Tables)
    requires TaskConstraints(t)
    ensures forall a, b | a in t.tasks && b in t.tasks && t.tasks[a].state == Running && t.tasks[b].state == Running :: a == b
  {
  }

  // ------------------------------------------------------- guarded callbacks

  predicate CaptureCallback(req: Request, s: Id, generation: int, revision: int) {
    && (req.Admit? || req.CaptureIntent? || req.Handoff? || req.SettleReservation?)
    && req.sid == s && req.generation == generation && req.revision == revision
  }

  /** How many capture changes a run committed under one (session, generation, revision) guard. */
  ghost function CaptureChanges(calls: seq<Call>, s: Id, generation: int, revision: int): nat
    decreases |calls|
  {
    if calls == [] then 0
    else
      var last := |calls| - 1;
      CaptureChanges(calls[..last], s, generation, revision)
      + if CaptureCallback(calls[last].request, s, generation, revision) && Reached(calls) != Reached(calls[..last])
        then 1 else 0
  }

  /** A committed capture callback matched its session's current revision and moved past it. */
  lemma CallbackConsumesRevision(t: Tables, o: Id, req: Request)
    requires TaskConstraints(t) && Act(t, o, req).Done?
    requires req.Admit? || req.CaptureIntent? || req.Handoff? || req.SettleReservation?
    ensures CaptureGuard(t, req.sid, req.generation, req.revision)
    ensures req.sid in After(t, o, req).sessions && req.revision < After(t, o, req).sessions[req.sid].revision
  {
  }

  lemma GuardMatchesRevision(t: Tables, s: Id, generation: int, revision: int)
    requires CaptureGuard(t, s, generation, revision)
    ensures s in t.sessions && t.sessions[s].revision == revision
  {
  }

  ghost predicate PastRevision(t: Tables, s: Id, revision: int) {
    s in t.sessions && revision < t.sessions[s].revision
  }

  lemma StepKeepsPast(t: Tables, call: Call, s: Id, revision: int)
    requires Sound(t) && TaskConstraints(t) && PastRevision(t, s, revision)
    ensures PastRevision(Transact(t, call).0, s, revision)
  {
    hide Sound, TaskConstraints, Transact, Grows, RowGrows;
    StepGrows(t, call);
    GrowsMeans(t, Transact(t, call).0);
    RowMeans(t.sessions[s], Transact(t, call).0.sessions[s]);
  }

  lemma CallbackStep(t: Tables, call: Call, s: Id, generation: int, revision: int)
    requires Sound(t) && TaskConstraints(t) && CaptureCallback(call.request, s, generation, revision)
    requires Transact(t, call).0 != t
    ensures !PastRevision(t, s, revision) && PastRevision(Transact(t, call).0, s, revision)
  {
    hide Sound, TaskConstraints, Transact, Act, After, CaptureGuard;
    StepCases(t, call);
    CallbackConsumesRevision(t, call.operation, call.request);
    GuardMatchesRevision(t, s, generation, revision);
  }

  /** A capture guard is spent by its first commit: no other callback with the same guard ever commits. */
  lemma {:induction false} GuardCommitsOnce(calls: seq<Call>, s: Id, generation: int, revision: int)
    ensures CaptureChanges(calls, s, generation, revision) <= 1
    ensures CaptureChanges(calls, s, generation, revision) == 1 ==> PastRevision(Reached(calls), s, revision)
    decreases |calls|
  {
    hide Reached, Transact, CaptureCallback, PastRevision, Sound, TaskConstraints;
    if calls != [] {
      var last := |calls| - 1;
      GuardCommitsOnce(calls[..last], s, generation, revision);
      assert calls == calls[..last] + [calls[last]];
      var t := Reached(calls[..last]);
      RunUnfolds(calls[..last], calls[last]);
      if CaptureCallback(calls[last].request, s, generation, revision) && Reached(calls) != t {
        CallbackStep(t, calls[last], s, generation, revision);
      } else if CaptureChanges(calls[..last], s, generation, revision) == 1 {
        StepKeepsPast(t, calls[last], s, revision);
      }
    }
  }

  /** Every row of session `x` is the same in both tables. */
  ghost predicate RowsSame(t: Tables, u: Tables, x: Id) {
    && (x in u.sessions <==> x in t.sessions) && (x in t.sessions ==> u.sessions[x] == t.sessions[x])
    && (x in u.units <==> x in t.units) && (x in t.units ==> u.units[x] == t.units[x])
    && (x in u.tasks <==> x in t.tasks) && (x in t.tasks ==> u.tasks[x] == t.tasks[x])
    && (forall kind :: ((x, kind) in u.artifacts <==> (x, kind) in t.artifacts)
                       && ((x, kind) in t.artifacts ==> u.artifacts[(x, kind)] == t.artifacts[(x, kind)]))
    && (forall i | BoundAt(t, i, x) :: BoundAt(u, i, x) && u.bindings[i] == t.bindings[i])
  }

  lemma ElsewhereSame(t: Tables, u: Tables, s: Id, x: Id)
    requires Elsewhere(t, u, s) && x != s
    ensures RowsSame(t, u, x)
  {
  }

  /** A capture callback never touches another session, in particular not the later owner of its slot,
      and once its own session has left the slot it changes nothing at all. */
  lemma StaleCallbackIsHarmless(calls: seq<Call>, call: Call, s: Id, generation: int, revision: int, x: Id)
    requires CaptureCallback(call.request, s, generation, revision)
    ensures x != s ==> RowsSame(Reached(calls), Transact(Reached(calls), call).0, x)
    ensures !CaptureGuard(Reached(calls), s, generation, revision) ==> Transact(Reached(calls), call).0 == Reached(calls)
  {
    hide Reached, Transact, Sound, TaskConstraints, Act, After, CaptureGuard, Elsewhere, RowsSame;
    var t := Reached(calls);
    StepCases(t, call);
    if Transact(t, call).0 == t {
      NothingChanged(t, x);
    } else {
      CallbackConsumesRevision(t, call.operation, call.request);
      ActKeepsSound(t, call.operation, call.request);
      TouchesOneMeans(t, call.operation, call.request);
      ResultNames(t, call.operation, call.request);
      if x != s { ElsewhereSame(t, Transact(t, call).0, s, x); }
    }
  }

  lemma NothingChanged(t: Tables, x: Id)
    ensures RowsSame(t, t, x)
  {
  }
}
