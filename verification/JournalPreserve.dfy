/** Each mutation keeps the schema, the audit and the provenance of the catalog. */
module JournalPreserve {
  import opened Wrappers
  import opened JournalTypes
  import opened JournalTables
  import opened JournalSpec
  import opened JournalInvariant

  // ------------------------------------------------- constraints, table by table

  /** An update of one existing session row that leaves its immutable columns alone. */
  ghost predicate SessionUpdated(t: Tables, u: Tables, s: Id) {
    && s in t.sessions && s in u.sessions && u.sessions == t.sessions[s := u.sessions[s]]
    && var a, b := t.sessions[s], u.sessions[s];
    && b.id == a.id && b.intent == a.intent && b.creator == a.creator && b.expectedRoom == a.expectedRoom
    && b.automaticClaim == a.automaticClaim && b.originSlot == a.originSlot && b.generation == a.generation
    && a.revision <= b.revision && (b.seal.Some? <==> b.sealHash.Some?)
  }

  lemma SessionConstraintsKept(t: Tables, u: Tables, s: Id)
    requires SessionConstraints(t) && SessionUpdated(t, u, s)
    ensures SessionConstraints(u) && u.sessions.Keys == t.sessions.Keys
  {
  }

  lemma BindingConstraintsKept(t: Tables, u: Tables, s: Id)
    requires BindingConstraints(t) && t.sessions.Keys <= u.sessions.Keys
    requires u.bindings == t.bindings || u.bindings == Unbound(t.bindings, s)
    ensures BindingConstraints(u)
  {
  }

  lemma ClaimConstraintsKept(t: Tables, u: Tables)
    requires ClaimConstraints(t) && t.sessions.Keys <= u.sessions.Keys
    requires u.units.Keys <= t.units.Keys
    requires forall k | k in u.artifacts :: k in t.artifacts && t.artifacts[k] == u.artifacts[k]
    requires forall r | r in u.rooms :: u.rooms[r] in t.sessions
    ensures ClaimConstraints(u)
  {
  }

  lemma QueueConstraintsKept(t: Tables, u: Tables)
    requires QueueConstraints(t) && t.sessions.Keys <= u.sessions.Keys && t.operations.Keys <= u.operations.Keys
    requires u.queue == t.queue && u.queueSeq == t.queueSeq
    ensures QueueConstraints(u)
  {
  }

  lemma QueueConstraintsGrown(t: Tables, u: Tables, s: Id, o: Id)
    requires QueueConstraints(t) && t.sessions.Keys <= u.sessions.Keys && t.operations.Keys <= u.operations.Keys
    requires s in u.sessions && o in u.operations && o !in t.operations
    requires u.queueSeq == t.queueSeq + 1 && u.queue == t.queue[t.queueSeq + 1 := QueueEntry(s, o)]
    ensures QueueConstraints(u) && t.queueSeq + 1 !in t.queue
  {
  }

  lemma AttemptConstraintsKept(t: Tables, u: Tables)
    requires AttemptConstraints(t) && t.sessions.Keys <= u.sessions.Keys
    requires u.attempts.Keys == t.attempts.Keys
    requires forall a | a in t.attempts :: u.attempts[a].session == t.attempts[a].session
                                           && u.attempts[a].number == t.attempts[a].number
    ensures AttemptConstraints(u)
  {
  }

  /** The columns of a task row that the constraints look at, for a row that is being replaced. */
  ghost predicate TaskRowAcceptable(t: Tables, u: Tables, s: Id) {
    && s in u.tasks && u.tasks == t.tasks[s := u.tasks[s]]
    && var row := u.tasks[s];
    && 0 < row.revision && 0 <= row.attempt && row.queueOrder in u.queue
    && (row.token.Some? ==> row.token.value in u.attempts)
    && (row.state == Running ==> row.token.Some? && 0 < row.attempt)
    && (forall x | x in t.tasks && x != s ::
          && t.tasks[x].queueOrder != row.queueOrder
          && (row.token.Some? ==> t.tasks[x].token != row.token)
          && !(t.tasks[x].state == Running && row.state == Running))
  }

  lemma TaskConstraintsKept(t: Tables, u: Tables, s: Id)
    requires TaskConstraints(t) && t.sessions.Keys <= u.sessions.Keys && s in u.sessions
    requires t.queue.Keys <= u.queue.Keys && t.attempts.Keys <= u.attempts.Keys
    requires u.tasks == t.tasks || TaskRowAcceptable(t, u, s)
    ensures TaskConstraints(u)
  {
  }

  lemma ReceiptConstraintsKept(t: Tables, u: Tables)
    requires ReceiptConstraints(t) && t.sessions.Keys <= u.sessions.Keys && u.receipts == t.receipts
    ensures ReceiptConstraints(u)
  {
  }

  lemma SchemaMeans(t: Tables)
    requires Schema(t)
    ensures SessionConstraints(t) && BindingConstraints(t) && ClaimConstraints(t) && QueueConstraints(t)
    ensures AttemptConstraints(t) && TaskConstraints(t) && ReceiptConstraints(t) && |t.units| <= 8
  {
  }

  lemma SchemaFrom(t: Tables)
    requires SessionConstraints(t) && BindingConstraints(t) && ClaimConstraints(t) && QueueConstraints(t)
    requires AttemptConstraints(t) && TaskConstraints(t) && ReceiptConstraints(t) && |t.units| <= 8
    ensures Schema(t)
  {
  }

  lemma AuditMeans(t: Tables)
    requires Audit(t)
    ensures (forall s | s in t.units :: UnitValid(t, s)) && OwnersSeparate(t) && Accounted(t) && |t.units| <= 8
  {
  }

  lemma UnitMeans(t: Tables, s: Id)
    requires Audit(t) && s in t.units
    ensures UnitValid(t, s) && OwnershipValid(t, s) && SessionReceiptValid(t, s) && RoomsValid(t, s)
    ensures t.units[s] == CaptureUnit ==> CaptureValid(t, s)
    ensures t.units[s] == TaskUnit ==> TaskValid(t, s)
  {
  }

  lemma ReceiptKept(t: Tables, u: Tables, s: Id)
    requires SessionUpdated(t, u, s) && u.receipts == t.receipts && SessionReceiptValid(t, s)
    ensures SessionReceiptValid(u, s)
  {
  }

  lemma ProvenanceStep(t: Tables, u: Tables, s: Id, o: Id, r: OperationRow)
    requires SessionConstraints(t) && Provenance(t) && KeyedElsewhere(t, u, s) && HistoryKept(t, u, s)
    requires SessionUpdated(t, u, s) && u.receipts == t.receipts && s in t.sessions && s in u.sessions
    requires SessionReceiptValid(t, s) && o !in t.operations && u.operations == t.operations[o := r]
    requires !r.result.NothingQueued? && r.result.session == s
    ensures Provenance(u)
  {
    hide *;
    ReceiptKept(t, u, s);
    ProvenanceCarries(t, u, s, o);
  }

  // --------------------------------------------------- facts of one outstanding session

  /** In an audited catalog the guard names a capture unit bound to its own slot and generation. */
  lemma CaptureGuardMeans(t: Tables, s: Id, generation: int, revision: int)
    requires BindingConstraints(t) && Audit(t) && CaptureGuard(t, s, generation, revision)
    ensures s in t.units && t.units[s] == CaptureUnit
    ensures t.sessions[s].generation == generation && t.sessions[s].revision == revision
  {
    var i :| i in t.bindings && BoundAt(t, i, s) && t.bindings[i].generation == generation;
    assert s in t.units && UnitValid(t, s);
    assert CaptureValid(t, s);
  }

  lemma OutstandingTaskMeans(t: Tables, s: Id)
    requires Audit(t) && s in t.tasks && t.tasks[s].state != Completed
    ensures s in t.units && t.units[s] == TaskUnit
  {
  }

  /** A running attempt of a session is the one its running task holds. */
  lemma RunningAttemptIsHeld(t: Tables, s: Id, a: Id)
    requires Accounted(t) && forall x | x in t.units :: UnitValid(t, x)
    requires a in t.attempts && t.attempts[a].session == s && t.attempts[a].state == AttemptRunning
    ensures TaskRuns(t, s, a)
  {
    hide UnitValid;
    var x :| x in t.tasks && TaskRuns(t, x, a);
    assert UnitValid(t, x);
    RunningTaskOwns(t, x, a);
  }

  lemma RunningTaskOwns(t: Tables, x: Id, a: Id)
    requires x in t.units && t.units[x] == TaskUnit && UnitValid(t, x) && TaskRuns(t, x, a)
    ensures a in t.attempts && t.attempts[a].session == x
  {
    hide RoomsValid, CaptureValid, QueuePlaceValid;
  }

  lemma SeparateKept(t: Tables, u: Tables, s: Id)
    requires OwnersSeparate(t) && s in t.units && s in t.sessions && s in u.units && s in u.sessions
    requires OwnerOf(u, s) == OwnerOf(t, s)
    ensures SeparateHere(t, u, s)
  {
  }

  lemma NoRunningAttempt(t: Tables, s: Id)
    requires Accounted(t) && (forall x | x in t.units :: UnitValid(t, x)) && s !in t.tasks
    ensures forall a | a in t.attempts && t.attempts[a].session == s :: t.attempts[a].state != AttemptRunning
  {
    forall a | a in t.attempts && t.attempts[a].session == s && t.attempts[a].state == AttemptRunning ensures false {
      RunningAttemptIsHeld(t, s, a);
    }
  }

  lemma CaptureAccounted(t: Tables, u: Tables, s: Id)
    requires forall a | a in t.attempts && t.attempts[a].session == s :: t.attempts[a].state != AttemptRunning
    requires s in u.units && u.units[s] == CaptureUnit && s !in u.tasks
    requires u.attempts == t.attempts
    ensures AccountedHere(u, s)
  {
  }

  lemma SameUnitCount(t: Tables, u: Tables)
    requires u.units.Keys == t.units.Keys
    ensures |u.units| == |t.units|
  {
    assert |u.units| == |u.units.Keys| && |t.units| == |t.units.Keys|;
  }

  // ------------------------------------- admission and intents of a bound capture

  /** Only the room, phase, stop and recovery columns of a capture move. */
  ghost predicate CaptureEdited(t: Tables, u: Tables, s: Id, o: Id, r: OperationRow) {
    && SessionUpdated(t, u, s)
    && u == t.(sessions := u.sessions, rooms := u.rooms, operations := t.operations[o := r])
    && var a, b := t.sessions[s], u.sessions[s];
    && b.phase in {Phase.Reserved, Capturing, Closing} && b.seal == a.seal && b.sealHash == a.sealHash
    && ((b.room == a.room && u.rooms == t.rooms)
        || (b.room.Some? && (a.room.None? || a.room == b.room)
            && (a.expectedRoom.None? || a.expectedRoom == b.room)
            && u.rooms == t.rooms[b.room.value := s] && (b.room.value in t.rooms ==> t.rooms[b.room.value] == s)))
  }

  lemma CaptureEditedSchema(t: Tables, u: Tables, s: Id, o: Id, r: OperationRow)
    requires Schema(t) && CaptureEdited(t, u, s, o, r)
    ensures Schema(u)
  {
    hide SessionConstraints, BindingConstraints, QueueConstraints, AttemptConstraints, TaskConstraints, ReceiptConstraints;
    SessionConstraintsKept(t, u, s);
    BindingConstraintsKept(t, u, s);
    ClaimConstraintsKept(t, u);
    QueueConstraintsKept(t, u);
    AttemptConstraintsKept(t, u);
    TaskConstraintsKept(t, u, s);
    ReceiptConstraintsKept(t, u);
  }

  lemma CaptureEditedElsewhere(t: Tables, u: Tables, s: Id, o: Id, r: OperationRow)
    requires o !in t.operations && CaptureEdited(t, u, s, o, r)
    ensures KeyedElsewhere(t, u, s) && OwnedElsewhere(t, u, s) && HistoryKept(t, u, s) && Elsewhere(t, u, s)
  {
  }

  lemma CaptureEditedUnit(t: Tables, u: Tables, s: Id, o: Id, r: OperationRow)
    requires CaptureEdited(t, u, s, o, r)
    requires s in t.units && t.units[s] == CaptureUnit && UnitValid(t, s)
    ensures UnitValid(u, s)
  {
    ReceiptKept(t, u, s);
    assert OwnershipValid(u, s);
    assert RoomsValid(u, s);
    assert CaptureValid(u, s);
  }

  lemma CaptureEditedKeeps(t: Tables, u: Tables, s: Id, o: Id, r: OperationRow)
    requires Schema(t) && Audit(t) && Provenance(t)
    requires o !in t.operations && CaptureEdited(t, u, s, o, r) && SessionUpdated(t, u, s)
    requires u.units == t.units && u.tasks == t.tasks && u.attempts == t.attempts && u.receipts == t.receipts
    requires u.operations == t.operations[o := r] && !r.result.NothingQueued? && r.result.session == s
    requires s in t.units && t.units[s] == CaptureUnit && s !in t.tasks && SeparateHere(t, u, s) && s in u.sessions
    ensures Schema(u) && Audit(u) && Provenance(u)
    ensures Elsewhere(t, u, s)
  {
    hide *;
    SchemaMeans(t);
    AuditMeans(t);
    UnitMeans(t, s);
    CaptureEditedSchema(t, u, s, o, r);
    CaptureEditedElsewhere(t, u, s, o, r);
    CaptureEditedUnit(t, u, s, o, r);
    NoRunningAttempt(t, s);
    CaptureAccounted(t, u, s);
    AuditCarries(t, u, s);
    ReceiptKept(t, u, s);
    ProvenanceCarries(t, u, s, o);
  }

  lemma CaptureIntentEdits(t: Tables, o: Id, req: Request, u: Tables, r: OperationRow)
    requires req.CaptureIntent? && SessionConstraints(t)
    requires req.sid in t.sessions && t.sessions[req.sid].phase in {Phase.Reserved, Capturing, Closing}
    requires var act := DoCaptureIntent(t, req.sid, req.generation, req.revision, req.closing, req.stop, req.recovery);
             act.Done? && r == OperationRow(req, act.result) && u == Record(act.next, o, req, act.result)
    ensures CaptureEdited(t, u, req.sid, o, r) && SessionUpdated(t, u, req.sid)
    ensures u.units == t.units && u.tasks == t.tasks && u.attempts == t.attempts && u.receipts == t.receipts
    ensures u.operations == t.operations[o := r] && r.result.CaptureResult? && r.result.session == req.sid
    ensures CurrentRoom(u.sessions[req.sid]) == CurrentRoom(t.sessions[req.sid])
  {
  }

  /** A room already in the table can only be this session's own once admission was not refused. */
  lemma AdmittedRoomIsFree(t: Tables, s: Id, room: Room)
    requires Accounted(t) && (forall x | x in t.units :: UnitValid(t, x))
    requires s in t.sessions && room in t.rooms
    requires !AdmissionRefused(t, t.sessions[s].intent, Some(room), Some(s))
    ensures t.rooms[room] == s
  {
    var x := t.rooms[room];
    if x != s {
      assert UnitValid(t, x) && RoomsValid(t, x);
      assert OwnershipConflict(Owner(t.sessions[s].intent, Some(room), CaptureUnit), OwnerOf(t, x));
    }
  }

  lemma AdmittedSeparate(t: Tables, u: Tables, s: Id)
    requires s in t.units && t.units[s] == CaptureUnit && u.units == t.units && s in t.sessions && s in u.sessions
    requires u.sessions[s].intent == t.sessions[s].intent
    requires !AdmissionRefused(t, t.sessions[s].intent, CurrentRoom(u.sessions[s]), Some(s))
    ensures SeparateHere(t, u, s)
  {
  }

  lemma AdmitEdits(t: Tables, o: Id, req: Request, u: Tables, r: OperationRow)
    requires req.Admit? && SessionConstraints(t) && req.sid in t.sessions
    requires var s := req.sid; t.sessions[s].intent.expectedRoom == t.sessions[s].expectedRoom
    requires var act := DoAdmit(t, req.sid, req.generation, req.revision, req.provenRoom);
             act.Done? && r == OperationRow(req, act.result) && u == Record(act.next, o, req, act.result)
    requires req.provenRoom in t.rooms ==> t.rooms[req.provenRoom] == req.sid
    ensures CaptureEdited(t, u, req.sid, o, r) && SessionUpdated(t, u, req.sid)
    ensures u.units == t.units && u.tasks == t.tasks && u.attempts == t.attempts && u.receipts == t.receipts
    ensures u.operations == t.operations[o := r] && r.result.CaptureResult? && r.result.session == req.sid
    ensures CurrentRoom(u.sessions[req.sid]) == Some(req.provenRoom)
    ensures u.sessions[req.sid].intent == t.sessions[req.sid].intent
    ensures !AdmissionRefused(t, t.sessions[req.sid].intent, Some(req.provenRoom), Some(req.sid))
  {
    assert req.provenRoom in t.rooms ==> t.rooms[req.provenRoom := req.sid] == t.rooms;
  }

  lemma AdmitNotRefused(t: Tables, req: Request)
    requires req.Admit? && DoAdmit(t, req.sid, req.generation, req.revision, req.provenRoom).Done?
    ensures req.sid in t.sessions && CaptureGuard(t, req.sid, req.generation, req.revision)
    ensures !AdmissionRefused(t, t.sessions[req.sid].intent, Some(req.provenRoom), Some(req.sid))
  {
  }

  lemma ReceiptMeans(t: Tables, s: Id)
    requires s in t.sessions && SessionReceiptValid(t, s)
    ensures t.sessions[s].intent.expectedRoom == t.sessions[s].expectedRoom
    ensures t.sessions[s].intent.sessionId == t.sessions[s].id
  {
  }

  lemma AdmitKeeps(t: Tables, o: Id, req: Request, u: Tables, r: OperationRow)
    requires Schema(t) && Audit(t) && Provenance(t) && o !in t.operations && req.Admit?
    requires var act := DoAdmit(t, req.sid, req.generation, req.revision, req.provenRoom);
             act.Done? && r == OperationRow(req, act.result) && u == Record(act.next, o, req, act.result)
    ensures Schema(u) && Audit(u) && Provenance(u)
    ensures Elsewhere(t, u, req.sid) && r.result.CaptureResult? && r.result.session == req.sid
  {
    hide *;
    var s := req.sid;
    SchemaMeans(t);
    AuditMeans(t);
    AdmitNotRefused(t, req);
    CaptureGuardMeans(t, s, req.generation, req.revision);
    UnitMeans(t, s);
    ReceiptMeans(t, s);
    if req.provenRoom in t.rooms { AdmittedRoomIsFree(t, s, req.provenRoom); }
    AdmitEdits(t, o, req, u, r);
    AdmittedSeparate(t, u, s);
    CaptureMeans(t, s);
    CaptureEditedKeeps(t, u, s, o, r);
  }

  lemma CaptureMeans(t: Tables, s: Id)
    requires s in t.sessions && CaptureValid(t, s)
    ensures s !in t.tasks && t.sessions[s].phase in {Phase.Reserved, Capturing, Closing}
    ensures BoundAt(t, t.sessions[s].originSlot, s)
  {
  }

  lemma SameOwner(t: Tables, u: Tables, s: Id)
    requires s in t.units && s in u.units && u.units[s] == t.units[s]
    requires s in t.sessions && s in u.sessions && u.sessions[s].intent == t.sessions[s].intent
    requires CurrentRoom(u.sessions[s]) == CurrentRoom(t.sessions[s])
    ensures OwnerOf(u, s) == OwnerOf(t, s)
  {
  }

  lemma UpdatedMeans(t: Tables, u: Tables, s: Id)
    requires SessionUpdated(t, u, s)
    ensures s in t.sessions && s in u.sessions && u.sessions[s].intent == t.sessions[s].intent
  {
  }

  lemma CaptureIntentGuarded(t: Tables, req: Request)
    requires req.CaptureIntent?
    requires DoCaptureIntent(t, req.sid, req.generation, req.revision, req.closing, req.stop, req.recovery).Done?
    ensures CaptureGuard(t, req.sid, req.generation, req.revision)
  {
  }

  lemma CaptureIntentKeeps(t: Tables, o: Id, req: Request, u: Tables, r: OperationRow)
    requires Schema(t) && Audit(t) && Provenance(t) && o !in t.operations && req.CaptureIntent?
    requires var act := DoCaptureIntent(t, req.sid, req.generation, req.revision, req.closing, req.stop, req.recovery);
             act.Done? && r == OperationRow(req, act.result) && u == Record(act.next, o, req, act.result)
    ensures Schema(u) && Audit(u) && Provenance(u)
    ensures Elsewhere(t, u, req.sid) && r.result.CaptureResult? && r.result.session == req.sid
  {
    hide *;
    var s := req.sid;
    SchemaMeans(t);
    AuditMeans(t);
    CaptureIntentGuarded(t, req);
    CaptureGuardMeans(t, s, req.generation, req.revision);
    UnitMeans(t, s);
    CaptureMeans(t, s);
    CaptureIntentEdits(t, o, req, u, r);
    UpdatedMeans(t, u, s);
    SameOwner(t, u, s);
    SeparateKept(t, u, s);
    CaptureEditedKeeps(t, u, s, o, r);
  }

  // ------------------------------------------------ releasing a unit and its pins

  /** The session becomes terminal and its unit, artifacts and rooms are gone. */
  ghost predicate Released(t: Tables, u: Tables, s: Id, o: Id, r: OperationRow) {
    && SessionUpdated(t, u, s) && Terminal(u.sessions[s].phase)
    && u == t.(sessions := u.sessions, tasks := u.tasks, attempts := u.attempts, units := t.units - {s},
               artifacts := ArtifactsWithout(t.artifacts, s), rooms := RoomsWithout(t.rooms, s),
               bindings := u.bindings, operations := t.operations[o := r])
    && (u.bindings == t.bindings || u.bindings == Unbound(t.bindings, s))
    && (forall i | i in u.bindings :: u.bindings[i].session != Some(s))
    && (u.tasks == t.tasks || (s in t.tasks && s in u.tasks && u.tasks == t.tasks[s := u.tasks[s]]))
    && (s in u.tasks ==> u.tasks[s].state == Completed)
    && u.attempts.Keys == t.attempts.Keys
    && (forall a | a in t.attempts :: u.attempts[a] == t.attempts[a]
          || (t.attempts[a].session == s && u.attempts[a].session == s && u.attempts[a].number == t.attempts[a].number))
    && (forall a | a in u.attempts && u.attempts[a].session == s :: u.attempts[a].state != AttemptRunning)
  }

  lemma FewerUnits(t: Tables, u: Tables, s: Id)
    requires u.units == t.units - {s}
    ensures |u.units| <= |t.units|
  {
    assert u.units.Keys == t.units.Keys - {s};
    assert |u.units| == |u.units.Keys| && |t.units| == |t.units.Keys|;
  }

  lemma ReleasedMeans(t: Tables, u: Tables, s: Id, o: Id, r: OperationRow)
    requires Released(t, u, s, o, r)
    ensures SessionUpdated(t, u, s) && s in t.sessions && s in u.sessions
    ensures u.bindings == t.bindings || u.bindings == Unbound(t.bindings, s)
    ensures u.units.Keys <= t.units.Keys
    ensures forall k | k in u.artifacts :: k in t.artifacts && t.artifacts[k] == u.artifacts[k]
    ensures forall r | r in u.rooms :: r in t.rooms && u.rooms[r] == t.rooms[r]
    ensures u.queue == t.queue && u.queueSeq == t.queueSeq && t.operations.Keys <= u.operations.Keys
    ensures u.attempts.Keys == t.attempts.Keys && u.receipts == t.receipts
    ensures forall a | a in t.attempts :: u.attempts[a].session == t.attempts[a].session
                                          && u.attempts[a].number == t.attempts[a].number
  {
  }

  lemma RoomsHeldBySessions(t: Tables)
    requires ClaimConstraints(t)
    ensures forall r | r in t.rooms :: t.rooms[r] in t.sessions
  {
  }

  lemma ReleasedSchema(t: Tables, u: Tables, s: Id, o: Id, r: OperationRow)
    requires Schema(t) && Released(t, u, s, o, r) && u.units == t.units - {s}
    requires u.tasks == t.tasks || TaskRowAcceptable(t, u, s)
    ensures Schema(u)
  {
    hide *;
    SchemaMeans(t);
    ReleasedMeans(t, u, s, o, r);
    RoomsHeldBySessions(t);
    SessionConstraintsKept(t, u, s);
    BindingConstraintsKept(t, u, s);
    ClaimConstraintsKept(t, u);
    QueueConstraintsKept(t, u);
    AttemptConstraintsKept(t, u);
    TaskConstraintsKept(t, u, s);
    ReceiptConstraintsKept(t, u);
    FewerUnits(t, u, s);
    SchemaFrom(u);
  }

  lemma ReleasedElsewhere(t: Tables, u: Tables, s: Id, o: Id, r: OperationRow)
    requires o !in t.operations && Released(t, u, s, o, r)
    ensures KeyedElsewhere(t, u, s) && OwnedElsewhere(t, u, s) && HistoryKept(t, u, s) && Elsewhere(t, u, s)
  {
  }

  lemma ReleasedAccounted(t: Tables, u: Tables, s: Id, o: Id, r: OperationRow)
    requires Released(t, u, s, o, r)
    ensures AccountedHere(u, s) && SeparateHere(t, u, s) && s !in u.units && s in u.sessions
  {
  }

  lemma ReleasedAudit(t: Tables, u: Tables, s: Id, o: Id, r: OperationRow)
    requires Schema(t) && Audit(t) && o !in t.operations && Released(t, u, s, o, r) && u.units == t.units - {s}
    ensures Audit(u)
  {
    hide *;
    SchemaMeans(t);
    ReleasedElsewhere(t, u, s, o, r);
    ReleasedAccounted(t, u, s, o, r);
    FewerUnits(t, u, s);
    AuditCarries(t, u, s);
  }

  lemma ReleasedKeeps(t: Tables, u: Tables, s: Id, o: Id, r: OperationRow)
    requires Schema(t) && Audit(t) && Provenance(t)
    requires o !in t.operations && Released(t, u, s, o, r) && SessionUpdated(t, u, s)
    requires u.tasks == t.tasks || TaskRowAcceptable(t, u, s)
    requires u.units == t.units - {s} && u.receipts == t.receipts && s in t.sessions && s in u.sessions
    requires u.operations == t.operations[o := r] && !r.result.NothingQueued? && r.result.session == s
    requires SessionReceiptValid(t, s)
    ensures Schema(u) && Audit(u) && Provenance(u)
    ensures Elsewhere(t, u, s)
  {
    hide *;
    SchemaMeans(t);
    ReleasedSchema(t, u, s, o, r);
    ReleasedAudit(t, u, s, o, r);
    ReleasedElsewhere(t, u, s, o, r);
    ProvenanceStep(t, u, s, o, r);
  }

  lemma SettleReservationReleases(t: Tables, o: Id, req: Request, u: Tables, r: OperationRow)
    requires req.SettleReservation? && SessionConstraints(t)
    requires var act := DoSettleReservation(t, req.sid, req.generation, req.revision);
             act.Done? && r == OperationRow(req, act.result) && u == Record(act.next, o, req, act.result)
    requires req.sid !in t.tasks
    requires forall a | a in t.attempts && t.attempts[a].session == req.sid :: t.attempts[a].state != AttemptRunning
    ensures Released(t, u, req.sid, o, r) && SessionUpdated(t, u, req.sid) && u.tasks == t.tasks
    ensures u.units == t.units - {req.sid} && u.receipts == t.receipts
    ensures u.operations == t.operations[o := r] && r.result.CaptureResult? && r.result.session == req.sid
  {
  }

  lemma SettleReservationGuarded(t: Tables, req: Request)
    requires req.SettleReservation? && DoSettleReservation(t, req.sid, req.generation, req.revision).Done?
    ensures CaptureGuard(t, req.sid, req.generation, req.revision)
  {
  }

  lemma SettleReservationKeeps(t: Tables, o: Id, req: Request, u: Tables, r: OperationRow)
    requires Schema(t) && Audit(t) && Provenance(t) && o !in t.operations && req.SettleReservation?
    requires var act := DoSettleReservation(t, req.sid, req.generation, req.revision);
             act.Done? && r == OperationRow(req, act.result) && u == Record(act.next, o, req, act.result)
    ensures Schema(u) && Audit(u) && Provenance(u)
    ensures Elsewhere(t, u, req.sid) && r.result.CaptureResult? && r.result.session == req.sid
  {
    hide *;
    var s := req.sid;
    SchemaMeans(t);
    AuditMeans(t);
    SettleReservationGuarded(t, req);
    CaptureGuardMeans(t, s, req.generation, req.revision);
    UnitMeans(t, s);
    CaptureMeans(t, s);
    NoRunningAttempt(t, s);
    SettleReservationReleases(t, o, req, u, r);
    UpdatedMeans(t, u, s);
    ReleasedKeeps(t, u, s, o, r);
  }
}
