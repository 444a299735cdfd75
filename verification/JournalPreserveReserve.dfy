/** Acceptance of a new session, and the induction over every mutation. */
module JournalPreserveReserve {
  import opened Wrappers
  import opened JournalTypes
  import opened JournalTables
  import opened JournalSpec
  import opened JournalInvariant
  import opened JournalPreserve
  import opened JournalPreserveTasks

  /** What admission established before a new session takes a free slot. */
  ghost predicate Admissible(t: Tables, intent: SessionIntent, slot: int) {
    && intent.sessionId !in t.sessions
    && slot in {1, 2} && slot in t.bindings && t.bindings[slot].session.None?
    && |t.units| < 8
    && !AdmissionRefused(t, intent, intent.expectedRoom, None)
    && (intent.automaticClaim.Some? ==>
          && intent.automaticClaim.value !in t.receipts
          && forall x | x in t.sessions :: t.sessions[x].automaticClaim != intent.automaticClaim)
  }

  ghost predicate Accepts(t: Tables, intent: SessionIntent, slot: int, o: Id, req: Request, u: Tables, r: OperationRow) {
    && Admissible(t, intent, slot)
    && var act := AcceptedInto(t, intent, slot);
    && r == OperationRow(req, act.result) && u == Record(act.next, o, req, act.result)
  }

  lemma AcceptMeans(t: Tables, intent: SessionIntent, slot: int, o: Id, req: Request, u: Tables, r: OperationRow)
    requires Accepts(t, intent, slot, o, req, u, r)
    ensures u.queue == t.queue && u.queueSeq == t.queueSeq && u.attempts == t.attempts && u.tasks == t.tasks
    ensures t.sessions.Keys <= u.sessions.Keys && intent.sessionId in u.sessions
    ensures u.operations == t.operations[o := r] && t.operations.Keys <= u.operations.Keys
    ensures r.result.CaptureResult? && r.result.session == intent.sessionId
    ensures u.units == t.units[intent.sessionId := CaptureUnit] && |t.units| < 8
    ensures intent.sessionId !in t.sessions
    ensures u.units[intent.sessionId] == CaptureUnit
  {
  }

  lemma AcceptSessions(t: Tables, intent: SessionIntent, slot: int, o: Id, req: Request, u: Tables, r: OperationRow)
    requires SessionConstraints(t) && Accepts(t, intent, slot, o, req, u, r)
    ensures SessionConstraints(u)
  {
  }

  lemma AcceptBindings(t: Tables, intent: SessionIntent, slot: int, o: Id, req: Request, u: Tables, r: OperationRow)
    requires BindingConstraints(t) && Accepts(t, intent, slot, o, req, u, r)
    ensures BindingConstraints(u)
  {
  }

  /** No claimed path equals one of an admissible intent's: equal paths overlap. */
  lemma AdmissiblePathsAreNew(t: Tables, intent: SessionIntent, slot: int)
    requires Admissible(t, intent, slot) && Accounted(t) && forall x | x in t.units :: OwnershipValid(t, x)
    ensures forall k | k in t.artifacts :: t.artifacts[k] != intent.output && t.artifacts[k] != intent.parts
  {
    forall k | k in t.artifacts ensures t.artifacts[k] != intent.output && t.artifacts[k] != intent.parts {
      var x := k.0;
      assert OwnershipValid(t, x);
      assert !OwnershipConflict(Owner(intent, intent.expectedRoom, CaptureUnit), OwnerOf(t, x));
      if k.1 == OutputClaim { assert k == (x, OutputClaim); } else { assert k == (x, PartsClaim); }
    }
  }

  lemma AdmissibleRoomIsNew(t: Tables, intent: SessionIntent, slot: int)
    requires Admissible(t, intent, slot) && Accounted(t) && forall x | x in t.units :: UnitValid(t, x)
    requires intent.expectedRoom.Some?
    ensures intent.expectedRoom.value !in t.rooms
  {
    var room := intent.expectedRoom.value;
    if room in t.rooms {
      var x := t.rooms[room];
      assert UnitValid(t, x) && RoomsValid(t, x);
      assert OwnershipConflict(Owner(intent, intent.expectedRoom, CaptureUnit), OwnerOf(t, x));
    }
  }

  lemma AcceptClaims(t: Tables, intent: SessionIntent, slot: int, o: Id, req: Request, u: Tables, r: OperationRow)
    requires ClaimConstraints(t) && Accepts(t, intent, slot, o, req, u, r)
    requires forall k | k in t.artifacts :: t.artifacts[k] != intent.output && t.artifacts[k] != intent.parts
    ensures ClaimConstraints(u)
  {
    hide Accepts;
    assert intent.output != intent.parts;
    var s := intent.sessionId;
    AcceptedRows(t, intent, slot, o, req, u, r);
    AcceptMeans(t, intent, slot, o, req, u, r);
    forall k, l | k in u.artifacts && l in u.artifacts && k != l ensures u.artifacts[k] != u.artifacts[l] {
    }
  }

  lemma AcceptReceipts(t: Tables, intent: SessionIntent, slot: int, o: Id, req: Request, u: Tables, r: OperationRow)
    requires ReceiptConstraints(t) && Accepts(t, intent, slot, o, req, u, r)
    ensures ReceiptConstraints(u)
  {
    hide Accepts;
    AcceptedRows(t, intent, slot, o, req, u, r);
    AcceptMeans(t, intent, slot, o, req, u, r);
  }

  /** The rows that an acceptance inserts beside the session's own. */
  lemma AcceptedRows(t: Tables, intent: SessionIntent, slot: int, o: Id, req: Request, u: Tables, r: OperationRow)
    requires Accepts(t, intent, slot, o, req, u, r)
    ensures u.artifacts == t.artifacts[(intent.sessionId, OutputClaim) := intent.output][(intent.sessionId, PartsClaim) := intent.parts]
    ensures u.rooms == if intent.expectedRoom.Some? then t.rooms[intent.expectedRoom.value := intent.sessionId] else t.rooms
    ensures u.receipts == if intent.automaticClaim.Some?
                          then t.receipts[intent.automaticClaim.value := ReceiptRow(intent.sessionId, intent)] else t.receipts
  {
    hide Admissible;
  }

  lemma OneMoreUnit(t: Tables, u: Tables, s: Id)
    requires u.units == t.units[s := CaptureUnit] && |t.units| < 8
    ensures |u.units| <= 8
  {
    assert u.units.Keys == t.units.Keys + {s};
    assert |u.units| == |u.units.Keys| && |t.units| == |t.units.Keys|;
  }

  lemma OwnershipsOfUnits(t: Tables)
    requires forall x | x in t.units :: UnitValid(t, x)
    ensures forall x | x in t.units :: OwnershipValid(t, x)
  {
  }

  lemma AcceptSchema(t: Tables, intent: SessionIntent, slot: int, o: Id, req: Request, u: Tables, r: OperationRow)
    requires Schema(t) && Audit(t) && Accepts(t, intent, slot, o, req, u, r) && Admissible(t, intent, slot)
    ensures Schema(u)
  {
    hide *;
    SchemaMeans(t);
    AuditMeans(t);
    AcceptMeans(t, intent, slot, o, req, u, r);
    AcceptSessions(t, intent, slot, o, req, u, r);
    AcceptBindings(t, intent, slot, o, req, u, r);
    OwnershipsOfUnits(t);
    AdmissiblePathsAreNew(t, intent, slot);
    AcceptClaims(t, intent, slot, o, req, u, r);
    QueueConstraintsKept(t, u);
    AttemptConstraintsKept(t, u);
    TaskConstraintsKept(t, u, intent.sessionId);
    AcceptReceipts(t, intent, slot, o, req, u, r);
    OneMoreUnit(t, u, intent.sessionId);
    SchemaFrom(u);
  }

  lemma AcceptKeyedElsewhere(t: Tables, intent: SessionIntent, slot: int, o: Id, req: Request, u: Tables, r: OperationRow)
    requires Accepts(t, intent, slot, o, req, u, r)
    ensures KeyedElsewhere(t, u, intent.sessionId)
  {
  }

  lemma AcceptOwnedElsewhere(t: Tables, intent: SessionIntent, slot: int, o: Id, req: Request, u: Tables, r: OperationRow)
    requires Accepts(t, intent, slot, o, req, u, r)
    requires intent.expectedRoom.Some? ==> intent.expectedRoom.value !in t.rooms
    ensures OwnedElsewhere(t, u, intent.sessionId)
  {
  }

  lemma AcceptHistory(t: Tables, intent: SessionIntent, slot: int, o: Id, req: Request, u: Tables, r: OperationRow)
    requires o !in t.operations && Accepts(t, intent, slot, o, req, u, r)
    ensures HistoryKept(t, u, intent.sessionId)
  {
  }

  lemma AcceptElsewhere(t: Tables, intent: SessionIntent, slot: int, o: Id, req: Request, u: Tables, r: OperationRow)
    requires o !in t.operations && Accepts(t, intent, slot, o, req, u, r)
    requires intent.expectedRoom.Some? ==> intent.expectedRoom.value !in t.rooms
    ensures KeyedElsewhere(t, u, intent.sessionId) && HistoryKept(t, u, intent.sessionId)
    ensures Elsewhere(t, u, intent.sessionId)
  {
    hide Accepts, KeyedElsewhere, OwnedElsewhere, HistoryKept;
    AcceptKeyedElsewhere(t, intent, slot, o, req, u, r);
    AcceptOwnedElsewhere(t, intent, slot, o, req, u, r);
    AcceptHistory(t, intent, slot, o, req, u, r);
  }

  /** Nothing anywhere refers to a session that was never accepted. */
  ghost predicate Unreferenced(t: Tables, s: Id) {
    && (forall r | r in t.rooms :: t.rooms[r] != s)
    && (forall a | a in t.attempts :: t.attempts[a].session != s)
    && (forall c | c in t.receipts :: t.receipts[c].session != s)
    && s !in t.tasks
  }

  lemma NewSessionUnreferenced(t: Tables, s: Id)
    requires ClaimConstraints(t) && AttemptConstraints(t) && ReceiptConstraints(t) && TaskConstraints(t)
    requires s !in t.sessions
    ensures Unreferenced(t, s)
  {
  }

  lemma AcceptReceipt(t: Tables, intent: SessionIntent, slot: int, o: Id, req: Request, u: Tables, r: OperationRow)
    requires Accepts(t, intent, slot, o, req, u, r) && Unreferenced(t, intent.sessionId)
    ensures intent.sessionId in u.sessions && SessionReceiptValid(u, intent.sessionId)
  {
  }

  lemma AcceptOwnership(t: Tables, intent: SessionIntent, slot: int, o: Id, req: Request, u: Tables, r: OperationRow)
    requires Accepts(t, intent, slot, o, req, u, r) && intent.sessionId in u.sessions && SessionReceiptValid(u, intent.sessionId)
    ensures OwnershipValid(u, intent.sessionId)
  {
  }

  lemma AcceptRooms(t: Tables, intent: SessionIntent, slot: int, o: Id, req: Request, u: Tables, r: OperationRow)
    requires Accepts(t, intent, slot, o, req, u, r) && Unreferenced(t, intent.sessionId) && intent.sessionId in u.sessions
    ensures RoomsValid(u, intent.sessionId) && CaptureValid(u, intent.sessionId)
  {
  }

  lemma CaptureUnitFrom(u: Tables, s: Id)
    requires s in u.units && u.units[s] == CaptureUnit && OwnershipValid(u, s) && RoomsValid(u, s) && CaptureValid(u, s)
    ensures UnitValid(u, s)
  {
  }

  lemma AcceptUnit(t: Tables, intent: SessionIntent, slot: int, o: Id, req: Request, u: Tables, r: OperationRow)
    requires Accepts(t, intent, slot, o, req, u, r) && Unreferenced(t, intent.sessionId)
    ensures var s := intent.sessionId; s in u.units && s in u.sessions && SessionReceiptValid(u, s) && UnitValid(u, s)
  {
    hide *;
    AcceptMeans(t, intent, slot, o, req, u, r);
    AcceptReceipt(t, intent, slot, o, req, u, r);
    AcceptOwnership(t, intent, slot, o, req, u, r);
    AcceptRooms(t, intent, slot, o, req, u, r);
    CaptureUnitFrom(u, intent.sessionId);
  }

  lemma AcceptSeparate(t: Tables, intent: SessionIntent, slot: int, o: Id, req: Request, u: Tables, r: OperationRow)
    requires Accepts(t, intent, slot, o, req, u, r)
    ensures SeparateHere(t, u, intent.sessionId)
  {
  }

  lemma AcceptAccounted(t: Tables, intent: SessionIntent, slot: int, o: Id, req: Request, u: Tables, r: OperationRow)
    requires Accepts(t, intent, slot, o, req, u, r) && Unreferenced(t, intent.sessionId)
    ensures AccountedHere(u, intent.sessionId)
  {
  }

  lemma AcceptAudit(t: Tables, intent: SessionIntent, slot: int, o: Id, req: Request, u: Tables, r: OperationRow)
    requires Schema(t) && Audit(t) && o !in t.operations
    requires Accepts(t, intent, slot, o, req, u, r) && Admissible(t, intent, slot)
    ensures Audit(u)
  {
    hide *;
    SchemaMeans(t);
    AuditMeans(t);
    AcceptMeans(t, intent, slot, o, req, u, r);
    if intent.expectedRoom.Some? { AdmissibleRoomIsNew(t, intent, slot); }
    AcceptElsewhere(t, intent, slot, o, req, u, r);
    NewSessionUnreferenced(t, intent.sessionId);
    AcceptUnit(t, intent, slot, o, req, u, r);
    AcceptSeparate(t, intent, slot, o, req, u, r);
    AcceptAccounted(t, intent, slot, o, req, u, r);
    OneMoreUnit(t, u, intent.sessionId);
    AuditCarries(t, u, intent.sessionId);
  }

  lemma AcceptProvenance(t: Tables, intent: SessionIntent, slot: int, o: Id, req: Request, u: Tables, r: OperationRow)
    requires SessionConstraints(t) && Provenance(t) && o !in t.operations && Accepts(t, intent, slot, o, req, u, r)
    requires Unreferenced(t, intent.sessionId)
    requires KeyedElsewhere(t, u, intent.sessionId) && HistoryKept(t, u, intent.sessionId)
    ensures Provenance(u)
  {
    hide *;
    AcceptMeans(t, intent, slot, o, req, u, r);
    AcceptReceipt(t, intent, slot, o, req, u, r);
    ProvenanceCarries(t, u, intent.sessionId, o);
  }

  lemma AcceptKeeps(t: Tables, intent: SessionIntent, slot: int, o: Id, req: Request, u: Tables, r: OperationRow)
    requires Schema(t) && Audit(t) && Provenance(t) && o !in t.operations
    requires Accepts(t, intent, slot, o, req, u, r) && Admissible(t, intent, slot)
    ensures Schema(u) && Audit(u) && Provenance(u)
    ensures Elsewhere(t, u, intent.sessionId) && !r.result.NothingQueued? && r.result.session == intent.sessionId
  {
    hide *;
    SchemaMeans(t);
    AuditMeans(t);
    AcceptMeans(t, intent, slot, o, req, u, r);
    AcceptSchema(t, intent, slot, o, req, u, r);
    AcceptAudit(t, intent, slot, o, req, u, r);
    if intent.expectedRoom.Some? { AdmissibleRoomIsNew(t, intent, slot); }
    AcceptElsewhere(t, intent, slot, o, req, u, r);
    NewSessionUnreferenced(t, intent.sessionId);
    AcceptProvenance(t, intent, slot, o, req, u, r);
  }

  // ------------------------------------------- operations that only leave a receipt

  lemma RecordSchema(t: Tables, u: Tables, o: Id, r: OperationRow)
    requires Schema(t) && o !in t.operations && u == t.(operations := t.operations[o := r])
    ensures Schema(u)
  {
    hide *;
    SchemaMeans(t);
    RecordSessions(t, u);
    RecordClaims(t, u);
    QueueConstraintsKept(t, u);
    AttemptConstraintsKept(t, u);
    ReceiptConstraintsKept(t, u);
    SchemaFrom(u);
  }

  lemma RecordSessions(t: Tables, u: Tables)
    requires SessionConstraints(t) && BindingConstraints(t) && TaskConstraints(t)
    requires u.sessions == t.sessions && u.bindings == t.bindings && u.tasks == t.tasks
    requires u.queue == t.queue && u.attempts == t.attempts
    ensures SessionConstraints(u) && BindingConstraints(u) && TaskConstraints(u)
  {
  }

  lemma RecordClaims(t: Tables, u: Tables)
    requires ClaimConstraints(t) && u.sessions == t.sessions
    requires u.units == t.units && u.artifacts == t.artifacts && u.rooms == t.rooms
    ensures ClaimConstraints(u)
  {
  }

  lemma RecordUnit(t: Tables, u: Tables, o: Id, r: OperationRow, s: Id)
    requires o !in t.operations && u == t.(operations := t.operations[o := r]) && s in t.units && UnitValid(t, s)
    ensures UnitValid(u, s) && OwnerOf(u, s) == OwnerOf(t, s)
  {
    assert SessionReceiptValid(u, s);
    assert OwnershipValid(u, s);
    assert RoomsValid(u, s);
    if t.units[s] == CaptureUnit {
      assert CaptureValid(u, s);
    } else {
      assert QueuePlaceValid(u, s);
      assert TaskValid(u, s);
    }
  }

  lemma RecordOwners(t: Tables, u: Tables)
    requires OwnersSeparate(t) && u.sessions == t.sessions && u.units == t.units
    ensures OwnersSeparate(u)
  {
    forall a, b | a in u.units && b in u.units && a != b
      ensures a in u.sessions && b in u.sessions && !OwnershipConflict(OwnerOf(u, a), OwnerOf(u, b))
    {
      assert OwnerOf(u, a) == OwnerOf(t, a) && OwnerOf(u, b) == OwnerOf(t, b);
    }
  }

  lemma RecordAccounted(t: Tables, u: Tables)
    requires Accounted(t) && u.sessions == t.sessions && u.units == t.units && u.bindings == t.bindings
    requires u.tasks == t.tasks && u.artifacts == t.artifacts && u.rooms == t.rooms && u.attempts == t.attempts
    ensures Accounted(u)
  {
    forall a | a in u.attempts && u.attempts[a].state == AttemptRunning
      ensures exists x | x in u.tasks :: TaskRuns(u, x, a)
    {
      var x :| x in t.tasks && TaskRuns(t, x, a);
      assert TaskRuns(u, x, a);
    }
  }

  lemma AuditFrom(u: Tables)
    requires |u.units| <= 8 && u.bindings.Keys == {1, 2} && (forall s | s in u.units :: UnitValid(u, s))
    requires OwnersSeparate(u) && Accounted(u)
    ensures Audit(u)
  {
  }

  lemma AuditSlots(t: Tables)
    requires Audit(t)
    ensures t.bindings.Keys == {1, 2}
  {
  }

  lemma RecordAudit(t: Tables, u: Tables, o: Id, r: OperationRow)
    requires Audit(t) && o !in t.operations && u == t.(operations := t.operations[o := r])
    ensures Audit(u)
  {
    hide *;
    AuditMeans(t);
    AuditSlots(t);
    forall s | s in u.units ensures UnitValid(u, s) { RecordUnit(t, u, o, r, s); }
    RecordOwners(t, u);
    RecordAccounted(t, u);
    AuditFrom(u);
  }

  lemma RecordProvenance(t: Tables, u: Tables, o: Id, r: OperationRow)
    requires Provenance(t) && o !in t.operations && u == t.(operations := t.operations[o := r])
    requires !r.result.NothingQueued? ==> r.result.session in t.sessions
    ensures Provenance(u)
  {
    forall s | s in u.sessions ensures SessionReceiptValid(u, s) { assert SessionReceiptValid(t, s); }
  }

  lemma RecordElsewhere(t: Tables, u: Tables, o: Id, r: OperationRow)
    requires o !in t.operations && u == t.(operations := t.operations[o := r])
    ensures !r.result.NothingQueued? ==> Elsewhere(t, u, r.result.session)
  {
    assert HistoryKept(t, u, if r.result.NothingQueued? then o else r.result.session);
  }

  // ------------------------------------------------------------- every mutation

  /** Acceptance past the claim lookup: the session and its claim are new, and admission was granted. */
  lemma ReserveNewAccepts(t: Tables, o: Id, req: Request, u: Tables, r: OperationRow)
    requires req.Reserve? && BindingConstraints(t)
    requires req.intent.automaticClaim.Some? ==>
               req.intent.automaticClaim.value !in t.receipts
               && forall x :: !Claims(t, x, req.intent.automaticClaim.value)
    requires var act := ReserveNew(t, req.intent, req.slot);
             act.Done? && r == OperationRow(req, act.result) && u == Record(act.next, o, req, act.result)
    ensures exists slot :: Accepts(t, req.intent, slot, o, req, u, r) && Admissible(t, req.intent, slot)
  {
    hide SessionReceiptValid, AdmissionRefused;
    if req.intent.automaticClaim.Some? {
      assert forall x | x in t.sessions :: !Claims(t, x, req.intent.automaticClaim.value);
    }
    var slot := FreeSlot(t, req.slot).value;
    assert Admissible(t, req.intent, slot);
    assert Accepts(t, req.intent, slot, o, req, u, r);
  }

  lemma ReserveCases(t: Tables, o: Id, req: Request, u: Tables, r: OperationRow)
    requires req.Reserve? && BindingConstraints(t)
    requires var act := DoReserve(t, req.intent, req.slot);
             act.Done? && r == OperationRow(req, act.result) && u == Record(act.next, o, req, act.result)
    ensures (exists slot :: Accepts(t, req.intent, slot, o, req, u, r) && Admissible(t, req.intent, slot))
            || (u == t.(operations := t.operations[o := r]) && r.result.CaptureResult? && r.result.session in t.sessions)
  {
    hide SessionReceiptValid, ReserveNew, Accepts, Admissible, BindingConstraints;
    var intent := req.intent;
    if intent.automaticClaim.None? || Claimant(t, intent.automaticClaim.value).None? {
      ReserveNewAccepts(t, o, req, u, r);
    }
  }

  lemma ReserveKeeps(t: Tables, o: Id, req: Request, u: Tables, r: OperationRow)
    requires Schema(t) && Audit(t) && Provenance(t) && o !in t.operations && req.Reserve?
    requires var act := DoReserve(t, req.intent, req.slot);
             act.Done? && r == OperationRow(req, act.result) && u == Record(act.next, o, req, act.result)
    ensures Schema(u) && Audit(u) && Provenance(u)
    ensures if r.result.NothingQueued? then u == t.(operations := t.operations[o := r]) else Elsewhere(t, u, r.result.session)
  {
    hide *;
    SchemaMeans(t);
    ReserveCases(t, o, req, u, r);
    if slot :| Accepts(t, req.intent, slot, o, req, u, r) && Admissible(t, req.intent, slot) {
      AcceptKeeps(t, req.intent, slot, o, req, u, r);
    } else {
      RecordSchema(t, u, o, r);
      RecordAudit(t, u, o, r);
      RecordProvenance(t, u, o, r);
      RecordElsewhere(t, u, o, r);
    }
  }

  lemma ClaimNextCases(t: Tables, o: Id, req: Request, u: Tables, r: OperationRow)
    requires req.ClaimNext? && TaskConstraints(t)
    requires var act := DoClaimNext(t, req.token);
             act.Done? && r == OperationRow(req, act.result) && u == Record(act.next, o, req, act.result)
    ensures (u == t.(operations := t.operations[o := r]) && r.result.NothingQueued?)
            || exists s :: ClaimsTask(t, s, o, req, u, r)
  {
    if !AnyRunning(t) && exists s :: OldestQueued(t, s) {
      var s :| OldestQueued(t, s) && DoClaimNext(t, req.token) == Claimed(t, s, req.token);
      assert ClaimsTask(t, s, o, req, u, r);
    }
  }

  ghost predicate ClaimsTask(t: Tables, s: Id, o: Id, req: Request, u: Tables, r: OperationRow)
    requires req.ClaimNext?
  {
    && s in t.tasks && s in t.sessions && t.tasks[s].state == Queued && !AnyRunning(t) && 0 <= t.tasks[s].attempt
    && var act := Claimed(t, s, req.token);
    && act.Done? && r == OperationRow(req, act.result) && u == Record(act.next, o, req, act.result)
  }

  lemma ClaimsTaskMeans(t: Tables, s: Id, o: Id, req: Request, u: Tables, r: OperationRow)
    requires req.ClaimNext? && ClaimsTask(t, s, o, req, u, r)
    ensures s in t.tasks && s in t.sessions && t.tasks[s].state == Queued && !AnyRunning(t) && 0 <= t.tasks[s].attempt
    ensures var act := Claimed(t, s, req.token);
            act.Done? && r == OperationRow(req, act.result) && u == Record(act.next, o, req, act.result)
  {
  }

  lemma ClaimNextKeeps(t: Tables, o: Id, req: Request, u: Tables, r: OperationRow)
    requires Schema(t) && Audit(t) && Provenance(t) && o !in t.operations && req.ClaimNext? && TaskConstraints(t)
    requires var act := DoClaimNext(t, req.token);
             act.Done? && r == OperationRow(req, act.result) && u == Record(act.next, o, req, act.result)
    ensures Schema(u) && Audit(u) && Provenance(u)
    ensures if r.result.NothingQueued? then u == t.(operations := t.operations[o := r]) else Elsewhere(t, u, r.result.session)
  {
    hide *;
    ClaimNextCases(t, o, req, u, r);
    if s :| ClaimsTask(t, s, o, req, u, r) {
      ClaimsTaskMeans(t, s, o, req, u, r);
      ClaimKeeps(t, o, s, req.token, req, u, r);
    } else {
      RecordSchema(t, u, o, r);
      RecordAudit(t, u, o, r);
      RecordProvenance(t, u, o, r);
      RecordElsewhere(t, u, o, r);
    }
  }
}
