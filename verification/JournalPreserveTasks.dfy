/** The finalizer side: handoff into the queue, task moves, settlement; and acceptance of a new session. */
module JournalPreserveTasks {
  import opened Wrappers
  import opened JournalTypes
  import opened JournalTables
  import opened JournalSpec
  import opened JournalInvariant
  import opened JournalPreserve

  // ----------------------------------------------------------------- handoff

  ghost predicate HandedOff(t: Tables, u: Tables, s: Id, o: Id, r: OperationRow) {
    && SessionUpdated(t, u, s)
    && var n := t.queueSeq + 1;
    && u == t.(sessions := u.sessions, queue := t.queue[n := QueueEntry(s, o)], queueSeq := n,
               tasks := t.tasks[s := TaskRow(Queued, 1, 0, None, None, None, n)],
               units := t.units[s := TaskUnit], bindings := Unbound(t.bindings, s),
               operations := t.operations[o := r])
    && var a, b := t.sessions[s], u.sessions[s];
    && a.room.Some? && b.room == a.room && b.phase == QueuedPhase && b.seal.Some?
    && b.sealHash == Some(HashOf(b.seal.value))
    && SealBound(b.seal.value, s, a.generation, a.room, a.intent) && SealInsideParts(b.seal.value, a.intent)
    && r.request.Handoff? && r.result.HandoffResult? && r.result.session == s && r.result.queueOrder == n
  }

  lemma HandedOffMeans(t: Tables, u: Tables, s: Id, o: Id, r: OperationRow)
    requires HandedOff(t, u, s, o, r) && s in t.units
    ensures SessionUpdated(t, u, s) && s in t.sessions && s in u.sessions && s in u.tasks
    ensures u.bindings == Unbound(t.bindings, s) && u.units.Keys == t.units.Keys
    ensures u.artifacts == t.artifacts && u.rooms == t.rooms && u.attempts == t.attempts && u.receipts == t.receipts
    ensures u.queueSeq == t.queueSeq + 1 && u.queue == t.queue[t.queueSeq + 1 := QueueEntry(s, o)]
    ensures t.queue.Keys <= u.queue.Keys
    ensures u.operations == t.operations[o := r] && r.result.HandoffResult? && r.result.session == s
    ensures o in u.operations && t.operations.Keys <= u.operations.Keys
  {
  }

  lemma HandoffTaskRow(t: Tables, u: Tables, s: Id, o: Id, r: OperationRow)
    requires TaskConstraints(t) && HandedOff(t, u, s, o, r) && t.queueSeq + 1 !in t.queue
    ensures TaskRowAcceptable(t, u, s)
  {
  }

  lemma HandoffSchema(t: Tables, u: Tables, s: Id, o: Id, r: OperationRow)
    requires Schema(t) && HandedOff(t, u, s, o, r) && s in t.units && o !in t.operations
    ensures Schema(u)
  {
    hide *;
    SchemaMeans(t);
    HandedOffMeans(t, u, s, o, r);
    SessionConstraintsKept(t, u, s);
    BindingConstraintsKept(t, u, s);
    RoomsHeldBySessions(t);
    ClaimConstraintsKept(t, u);
    QueueConstraintsGrown(t, u, s, o);
    AttemptConstraintsKept(t, u);
    HandoffTaskRow(t, u, s, o, r);
    TaskConstraintsKept(t, u, s);
    ReceiptConstraintsKept(t, u);
    SameUnitCount(t, u);
    SchemaFrom(u);
  }

  lemma HandoffOthers(t: Tables, u: Tables, s: Id, o: Id, r: OperationRow)
    requires HandedOff(t, u, s, o, r)
    ensures KeyedElsewhere(t, u, s) && OwnedElsewhere(t, u, s)
  {
  }

  lemma HandoffHistory(t: Tables, u: Tables, s: Id, o: Id, r: OperationRow)
    requires o !in t.operations && t.queueSeq + 1 !in t.queue && HandedOff(t, u, s, o, r)
    ensures HistoryKept(t, u, s)
  {
  }

  lemma HandoffElsewhere(t: Tables, u: Tables, s: Id, o: Id, r: OperationRow)
    requires o !in t.operations && t.queueSeq + 1 !in t.queue && HandedOff(t, u, s, o, r)
    ensures KeyedElsewhere(t, u, s) && OwnedElsewhere(t, u, s) && HistoryKept(t, u, s) && Elsewhere(t, u, s)
  {
    hide HandedOff, KeyedElsewhere, OwnedElsewhere, HistoryKept;
    HandoffOthers(t, u, s, o, r);
    HandoffHistory(t, u, s, o, r);
  }

  lemma HandoffQueuePlace(t: Tables, u: Tables, s: Id, o: Id, r: OperationRow)
    requires QueueConstraints(t) && HandedOff(t, u, s, o, r)
    ensures s in u.tasks && QueuePlaceValid(u, s)
  {
  }

  lemma HandoffUnit(t: Tables, u: Tables, s: Id, o: Id, r: OperationRow)
    requires QueueConstraints(t) && HandedOff(t, u, s, o, r)
    requires s in t.units && UnitValid(t, s)
    ensures s in u.units && u.units[s] == TaskUnit && UnitValid(u, s)
  {
    ReceiptKept(t, u, s);
    assert OwnershipValid(u, s);
    assert RoomsValid(u, s);
    HandoffQueuePlace(t, u, s, o, r);
    assert TaskValid(u, s);
  }

  /** A queued task conflicts with less than the capture it was: only separated known rooms were possible. */
  lemma HandoffSeparate(t: Tables, u: Tables, s: Id, o: Id, r: OperationRow)
    requires OwnersSeparate(t) && HandedOff(t, u, s, o, r)
    requires s in t.units && t.units[s] == CaptureUnit
    ensures SeparateHere(t, u, s)
  {
    forall x | x in t.units && x in t.sessions && x != s
      ensures !OwnershipConflict(OwnerOf(u, s), OwnerOf(t, x))
    {
      assert !OwnershipConflict(OwnerOf(t, s), OwnerOf(t, x));
    }
  }

  lemma HandoffAccounted(t: Tables, u: Tables, s: Id, o: Id, r: OperationRow)
    requires HandedOff(t, u, s, o, r)
    requires forall a | a in t.attempts && t.attempts[a].session == s :: t.attempts[a].state != AttemptRunning
    ensures AccountedHere(u, s)
  {
  }

  lemma HandoffIsHandedOff(t: Tables, o: Id, req: Request, u: Tables, r: OperationRow)
    requires req.Handoff? && SessionConstraints(t)
    requires var act := DoHandoff(t, o, req.sid, req.generation, req.revision, req.seal);
             act.Done? && r == OperationRow(req, act.result) && u == Record(act.next, o, req, act.result)
    requires req.sid in t.sessions && t.sessions[req.sid].generation == req.generation
    ensures HandedOff(t, u, req.sid, o, r)
  {
  }

  lemma HandoffGuarded(t: Tables, o: Id, req: Request)
    requires req.Handoff? && DoHandoff(t, o, req.sid, req.generation, req.revision, req.seal).Done?
    ensures CaptureGuard(t, req.sid, req.generation, req.revision)
  {
  }

  lemma HandoffAudit(t: Tables, u: Tables, s: Id, o: Id, r: OperationRow)
    requires Schema(t) && Audit(t) && o !in t.operations && HandedOff(t, u, s, o, r)
    requires s in t.units && t.units[s] == CaptureUnit
    ensures Audit(u)
  {
    hide *;
    SchemaMeans(t);
    AuditMeans(t);
    UnitMeans(t, s);
    CaptureMeans(t, s);
    HandedOffMeans(t, u, s, o, r);
    NewPositionIsNew(t);
    HandoffElsewhere(t, u, s, o, r);
    HandoffUnit(t, u, s, o, r);
    HandoffSeparate(t, u, s, o, r);
    NoRunningAttempt(t, s);
    HandoffAccounted(t, u, s, o, r);
    SameUnitCount(t, u);
    AuditCarries(t, u, s);
  }

  lemma NewPositionIsNew(t: Tables)
    requires QueueConstraints(t)
    ensures t.queueSeq + 1 !in t.queue
  {
  }

  lemma HandoffKeeps(t: Tables, o: Id, req: Request, u: Tables, r: OperationRow)
    requires Schema(t) && Audit(t) && Provenance(t) && o !in t.operations && req.Handoff?
    requires var act := DoHandoff(t, o, req.sid, req.generation, req.revision, req.seal);
             act.Done? && r == OperationRow(req, act.result) && u == Record(act.next, o, req, act.result)
    ensures Schema(u) && Audit(u) && Provenance(u)
    ensures Elsewhere(t, u, req.sid) && !r.result.NothingQueued? && r.result.session == req.sid
  {
    hide *;
    var s := req.sid;
    SchemaMeans(t);
    HandoffGuarded(t, o, req);
    CaptureGuardMeans(t, s, req.generation, req.revision);
    UnitMeans(t, s);
    CaptureMeans(t, s);
    HandoffIsHandedOff(t, o, req, u, r);
    HandedOffMeans(t, u, s, o, r);
    HandoffSchema(t, u, s, o, r);
    HandoffAudit(t, u, s, o, r);
    NewPositionIsNew(t);
    HandoffElsewhere(t, u, s, o, r);
    ProvenanceStep(t, u, s, o, r);
  }

  // ------------------------------------------------- moves of an outstanding task

  /** One outstanding task moves between states; it may take a new attempt or a new queue place. */
  ghost predicate TaskMoved(t: Tables, u: Tables, s: Id, o: Id, r: OperationRow) {
    && SessionUpdated(t, u, s) && s in t.tasks && s in u.tasks && u.tasks == t.tasks[s := u.tasks[s]]
    && u == t.(sessions := u.sessions, queue := u.queue, queueSeq := u.queueSeq, tasks := u.tasks,
               attempts := u.attempts, operations := t.operations[o := r])
    && var a, b := t.sessions[s], u.sessions[s];
    && b.room == a.room && b.seal == a.seal && b.sealHash == a.sealHash
    && b.phase == PhaseOf(u.tasks[s].state) && u.tasks[s].state != Completed
    && (forall a | a in t.attempts && t.attempts[a].session != s :: a in u.attempts && u.attempts[a] == t.attempts[a])
    && (forall a | a in u.attempts && u.attempts[a].session != s :: a in t.attempts && u.attempts[a] == t.attempts[a])
  }

  /** The task keeps its place, or appends itself at the tail under a receipt that says so. */
  ghost predicate QueueMoved(t: Tables, u: Tables, s: Id, o: Id, r: OperationRow)
    requires s in t.tasks && s in u.tasks
  {
    || (u.queue == t.queue && u.queueSeq == t.queueSeq && u.tasks[s].queueOrder == t.tasks[s].queueOrder)
    || (var n := t.queueSeq + 1;
        && u.queueSeq == n && u.queue == t.queue[n := QueueEntry(s, o)] && u.tasks[s].queueOrder == n
        && r.request.RetryFailed? && r.result.RetryResult? && r.result.session == s && r.result.queueOrder == n)
  }

  /** The task's token, if any, names its own current attempt, and no other attempt of the session runs. */
  ghost predicate AttemptMoved(u: Tables, s: Id)
    requires s in u.tasks
  {
    && var task := u.tasks[s];
    && (task.token.Some? ==>
          && task.token.value in u.attempts
          && u.attempts[task.token.value].session == s && u.attempts[task.token.value].number == task.attempt
          && u.attempts[task.token.value].state == AttemptStateOf(task.state))
    && (forall a | a in u.attempts && u.attempts[a].session == s && u.attempts[a].state == AttemptRunning ::
          TaskRuns(u, s, a))
  }

  lemma TaskMovedMeans(t: Tables, u: Tables, s: Id, o: Id, r: OperationRow)
    requires TaskMoved(t, u, s, o, r)
    ensures SessionUpdated(t, u, s) && s in t.sessions && s in u.sessions && s in t.tasks && s in u.tasks
    ensures u.bindings == t.bindings && u.units == t.units && u.rooms == t.rooms && u.artifacts == t.artifacts
    ensures u.receipts == t.receipts && u.operations == t.operations[o := r]
    ensures t.operations.Keys <= u.operations.Keys && o in u.operations
    ensures u.tasks == t.tasks[s := u.tasks[s]]
    ensures u.sessions[s].intent == t.sessions[s].intent
    ensures CurrentRoom(u.sessions[s]) == CurrentRoom(t.sessions[s])
  {
  }

  lemma QueueMovedMeans(t: Tables, u: Tables, s: Id, o: Id, r: OperationRow)
    requires s in t.tasks && s in u.tasks && QueueMoved(t, u, s, o, r)
    ensures t.queue.Keys <= u.queue.Keys
    ensures (u.queue == t.queue && u.queueSeq == t.queueSeq)
            || (u.queueSeq == t.queueSeq + 1 && u.queue == t.queue[t.queueSeq + 1 := QueueEntry(s, o)])
  {
  }

  lemma TaskMovedSchema(t: Tables, u: Tables, s: Id, o: Id, r: OperationRow)
    requires Schema(t) && o !in t.operations && TaskMoved(t, u, s, o, r) && s in t.tasks && s in u.tasks
    requires QueueMoved(t, u, s, o, r) && TaskRowAcceptable(t, u, s)
    requires AttemptConstraints(u) && t.attempts.Keys <= u.attempts.Keys
    ensures Schema(u)
  {
    hide *;
    SchemaMeans(t);
    TaskMovedMeans(t, u, s, o, r);
    QueueMovedMeans(t, u, s, o, r);
    SessionConstraintsKept(t, u, s);
    BindingConstraintsKept(t, u, s);
    RoomsHeldBySessions(t);
    ClaimConstraintsKept(t, u);
    if u.queueSeq == t.queueSeq { QueueConstraintsKept(t, u); } else { QueueConstraintsGrown(t, u, s, o); }
    TaskConstraintsKept(t, u, s);
    ReceiptConstraintsKept(t, u);
    SchemaFrom(u);
  }

  lemma TaskMovedElsewhere(t: Tables, u: Tables, s: Id, o: Id, r: OperationRow)
    requires o !in t.operations && t.queueSeq + 1 !in t.queue && TaskMoved(t, u, s, o, r)
    requires s in t.tasks && s in u.tasks && QueueMoved(t, u, s, o, r)
    ensures KeyedElsewhere(t, u, s) && OwnedElsewhere(t, u, s) && HistoryKept(t, u, s) && Elsewhere(t, u, s)
  {
    assert KeyedElsewhere(t, u, s);
    assert OwnedElsewhere(t, u, s);
  }

  lemma TaskMovedQueuePlace(t: Tables, u: Tables, s: Id, o: Id, r: OperationRow)
    requires QueueConstraints(t) && o !in t.operations && TaskMoved(t, u, s, o, r)
    requires s in t.tasks && s in u.tasks && QueueMoved(t, u, s, o, r) && QueuePlaceValid(t, s)
    ensures QueuePlaceValid(u, s)
  {
  }

  lemma TaskMovedUnit(t: Tables, u: Tables, s: Id, o: Id, r: OperationRow)
    requires TaskMoved(t, u, s, o, r) && s in t.sessions && s in u.sessions && s in u.tasks
    requires QueuePlaceValid(u, s) && AttemptMoved(u, s)
    requires s in t.units && OwnershipValid(t, s) && RoomsValid(t, s) && TaskValid(t, s)
    ensures s in u.units && OwnershipValid(u, s) && RoomsValid(u, s) && TaskValid(u, s)
  {
    ReceiptKept(t, u, s);
    assert OwnershipValid(u, s);
    assert RoomsValid(u, s);
  }

  lemma TaskMovedAccounted(t: Tables, u: Tables, s: Id, o: Id, r: OperationRow)
    requires TaskMoved(t, u, s, o, r) && s in u.tasks && AttemptMoved(u, s)
    requires s in t.units && t.units[s] == TaskUnit && forall i | i in t.bindings :: t.bindings[i].session != Some(s)
    ensures AccountedHere(u, s)
  {
  }

  lemma TaskUnitMeans(t: Tables, s: Id)
    requires s in t.sessions && TaskValid(t, s)
    ensures forall i | i in t.bindings :: t.bindings[i].session != Some(s)
    ensures s in t.tasks && QueuePlaceValid(t, s)
  {
  }

  lemma UnitFrom(u: Tables, s: Id)
    requires s in u.units && OwnershipValid(u, s) && RoomsValid(u, s)
    requires u.units[s] == TaskUnit && TaskValid(u, s)
    ensures UnitValid(u, s)
  {
  }

  lemma TaskMovedAudit(t: Tables, u: Tables, s: Id, o: Id, r: OperationRow)
    requires Schema(t) && Audit(t) && o !in t.operations && TaskMoved(t, u, s, o, r)
    requires s in t.tasks && s in u.tasks && QueueMoved(t, u, s, o, r) && AttemptMoved(u, s)
    requires s in t.units && t.units[s] == TaskUnit
    ensures Audit(u)
  {
    hide *;
    SchemaMeans(t);
    AuditMeans(t);
    UnitMeans(t, s);
    TaskUnitMeans(t, s);
    TaskMovedMeans(t, u, s, o, r);
    NewPositionIsNew(t);
    TaskMovedElsewhere(t, u, s, o, r);
    TaskMovedQueuePlace(t, u, s, o, r);
    TaskMovedUnit(t, u, s, o, r);
    UnitFrom(u, s);
    SameOwner(t, u, s);
    SeparateKept(t, u, s);
    TaskMovedAccounted(t, u, s, o, r);
    AuditCarries(t, u, s);
  }

  lemma TaskMovedKeeps(t: Tables, u: Tables, s: Id, o: Id, r: OperationRow)
    requires Schema(t) && Audit(t) && Provenance(t) && o !in t.operations && TaskMoved(t, u, s, o, r)
    requires s in t.tasks && s in u.tasks && QueueMoved(t, u, s, o, r) && TaskRowAcceptable(t, u, s)
    requires AttemptMoved(u, s) && AttemptConstraints(u) && t.attempts.Keys <= u.attempts.Keys
    requires s in t.units && t.units[s] == TaskUnit && !r.result.NothingQueued? && r.result.session == s
    ensures Schema(u) && Audit(u) && Provenance(u)
    ensures Elsewhere(t, u, s)
  {
    hide *;
    SchemaMeans(t);
    UnitMeans(t, s);
    TaskMovedMeans(t, u, s, o, r);
    TaskMovedSchema(t, u, s, o, r);
    TaskMovedAudit(t, u, s, o, r);
    NewPositionIsNew(t);
    TaskMovedElsewhere(t, u, s, o, r);
    ProvenanceStep(t, u, s, o, r);
  }

  lemma SealPaired(t: Tables, s: Id)
    requires SessionConstraints(t) && s in t.sessions
    ensures t.sessions[s].seal.Some? <==> t.sessions[s].sealHash.Some?
    ensures 0 < t.sessions[s].revision
  {
  }

  lemma TaskRowHeld(t: Tables, s: Id)
    requires TaskConstraints(t) && s in t.tasks
    ensures s in t.sessions && (t.tasks[s].token.Some? ==> t.tasks[s].token.value in t.attempts)
    ensures t.tasks[s].state == Running ==> t.tasks[s].token.Some?
  {
  }

  /** What the audit and the constraints say about one outstanding task and its attempts. */
  ghost predicate TaskHeld(t: Tables, s: Id) {
    && s in t.tasks && s in t.sessions && t.tasks[s].state != Completed
    && t.sessions[s].phase == PhaseOf(t.tasks[s].state)
    && (t.tasks[s].token.Some? ==>
          && t.tasks[s].token.value in t.attempts
          && var attempt := t.attempts[t.tasks[s].token.value];
             attempt.session == s && attempt.number == t.tasks[s].attempt
             && attempt.state == AttemptStateOf(t.tasks[s].state))
    && (forall a | a in t.attempts && t.attempts[a].session == s && t.attempts[a].state == AttemptRunning ::
          TaskRuns(t, s, a))
  }

  lemma OutstandingTaskHeld(t: Tables, s: Id)
    requires Audit(t) && (forall x | x in t.units :: UnitValid(t, x)) && Accounted(t)
    requires s in t.units && t.units[s] == TaskUnit && s in t.sessions && TaskValid(t, s)
    ensures TaskHeld(t, s)
  {
    hide Audit, UnitValid;
    forall a | a in t.attempts && t.attempts[a].session == s && t.attempts[a].state == AttemptRunning
      ensures TaskRuns(t, s, a)
    {
      RunningAttemptIsHeld(t, s, a);
    }
  }

  /** Everything the four moves below start from. */
  lemma OutstandingTask(t: Tables, s: Id)
    requires Schema(t) && Audit(t) && s in t.tasks && t.tasks[s].state != Completed
    ensures TaskHeld(t, s) && TaskConstraints(t) && AttemptConstraints(t) && QueueConstraints(t) && SessionConstraints(t)
    ensures s in t.units && t.units[s] == TaskUnit && s in t.sessions
  {
    hide *;
    SchemaMeans(t);
    AuditMeans(t);
    OutstandingTaskMeans(t, s);
    UnitMeans(t, s);
    OutstandingTaskHeld(t, s);
  }

  lemma HoldAttemptMoves(t: Tables, o: Id, req: Request, u: Tables, r: OperationRow)
    requires req.HoldAttempt? && TaskConstraints(t) && SessionConstraints(t) && TaskHeld(t, req.sid)
    requires var act := DoHoldAttempt(t, req.sid, req.revision, req.attempt, req.token, req.reason);
             act.Done? && r == OperationRow(req, act.result) && u == Record(act.next, o, req, act.result)
    ensures TaskMoved(t, u, req.sid, o, r) && QueueMoved(t, u, req.sid, o, r)
    ensures u.attempts.Keys == t.attempts.Keys && !r.result.NothingQueued? && r.result.session == req.sid
    ensures forall a | a in t.attempts :: u.attempts[a].session == t.attempts[a].session
                                          && u.attempts[a].number == t.attempts[a].number
  {
    hide TaskConstraints, SessionConstraints;
    SealPaired(t, req.sid);
    TaskRowHeld(t, req.sid);
  }

  lemma HoldAttemptRow(t: Tables, o: Id, req: Request, u: Tables)
    requires req.HoldAttempt? && TaskConstraints(t)
    requires var act := DoHoldAttempt(t, req.sid, req.revision, req.attempt, req.token, req.reason);
             act.Done? && u == Record(act.next, o, req, act.result)
    ensures TaskRowAcceptable(t, u, req.sid)
  {
  }

  lemma HoldAttemptAttempt(t: Tables, o: Id, req: Request, u: Tables)
    requires req.HoldAttempt? && TaskConstraints(t) && TaskHeld(t, req.sid)
    requires var act := DoHoldAttempt(t, req.sid, req.revision, req.attempt, req.token, req.reason);
             act.Done? && u == Record(act.next, o, req, act.result)
    ensures AttemptMoved(u, req.sid)
  {
  }

  lemma HoldAttemptGuarded(t: Tables, o: Id, req: Request)
    requires req.HoldAttempt? && TaskConstraints(t)
    requires DoHoldAttempt(t, req.sid, req.revision, req.attempt, req.token, req.reason).Done?
    ensures req.sid in t.tasks && t.tasks[req.sid].state != Completed
  {
  }

  lemma HoldAttemptKeeps(t: Tables, o: Id, req: Request, u: Tables, r: OperationRow)
    requires Schema(t) && Audit(t) && Provenance(t) && o !in t.operations && req.HoldAttempt? && TaskConstraints(t)
    requires var act := DoHoldAttempt(t, req.sid, req.revision, req.attempt, req.token, req.reason);
             act.Done? && r == OperationRow(req, act.result) && u == Record(act.next, o, req, act.result)
    ensures Schema(u) && Audit(u) && Provenance(u)
    ensures Elsewhere(t, u, req.sid) && !r.result.NothingQueued? && r.result.session == req.sid
  {
    hide *;
    HoldAttemptGuarded(t, o, req);
    OutstandingTask(t, req.sid);
    HoldAttemptMoves(t, o, req, u, r);
    TaskMovedMeans(t, u, req.sid, o, r);
    HoldAttemptRow(t, o, req, u);
    HoldAttemptAttempt(t, o, req, u);
    AttemptConstraintsKept(t, u);
    TaskMovedKeeps(t, u, req.sid, o, r);
  }

  lemma FailTaskMoves(t: Tables, o: Id, req: Request, u: Tables, r: OperationRow)
    requires req.FailTask? && TaskConstraints(t) && SessionConstraints(t) && req.sid in t.sessions
    requires req.token in t.attempts ==> t.attempts[req.token].session == req.sid
    requires var act := DoFailTask(t, req.sid, req.revision, req.attempt, req.token, req.exit, req.reason);
             act.Done? && r == OperationRow(req, act.result) && u == Record(act.next, o, req, act.result)
    ensures TaskMoved(t, u, req.sid, o, r)
  {
    hide TaskConstraints, SessionConstraints;
    SealPaired(t, req.sid);
    TaskRowHeld(t, req.sid);
  }

  lemma FailTaskKeepsAttempts(t: Tables, o: Id, req: Request, u: Tables, r: OperationRow)
    requires req.FailTask? && TaskConstraints(t)
    requires var act := DoFailTask(t, req.sid, req.revision, req.attempt, req.token, req.exit, req.reason);
             act.Done? && r == OperationRow(req, act.result) && u == Record(act.next, o, req, act.result)
    ensures req.sid in t.tasks && req.sid in u.tasks && QueueMoved(t, u, req.sid, o, r)
    ensures u.attempts.Keys == t.attempts.Keys && !r.result.NothingQueued? && r.result.session == req.sid
    ensures forall a | a in t.attempts :: u.attempts[a].session == t.attempts[a].session
                                          && u.attempts[a].number == t.attempts[a].number
  {
  }

  lemma FailTaskTokenIsOwn(t: Tables, o: Id, req: Request)
    requires req.FailTask? && TaskConstraints(t) && TaskHeld(t, req.sid)
    requires DoFailTask(t, req.sid, req.revision, req.attempt, req.token, req.exit, req.reason).Done?
    ensures req.token in t.attempts && t.attempts[req.token].session == req.sid
  {
  }

  lemma FailTaskRow(t: Tables, o: Id, req: Request, u: Tables)
    requires req.FailTask? && TaskConstraints(t)
    requires var act := DoFailTask(t, req.sid, req.revision, req.attempt, req.token, req.exit, req.reason);
             act.Done? && u == Record(act.next, o, req, act.result)
    ensures TaskRowAcceptable(t, u, req.sid)
  {
  }

  lemma FailTaskAttempt(t: Tables, o: Id, req: Request, u: Tables)
    requires req.FailTask? && TaskConstraints(t) && TaskHeld(t, req.sid)
    requires var act := DoFailTask(t, req.sid, req.revision, req.attempt, req.token, req.exit, req.reason);
             act.Done? && u == Record(act.next, o, req, act.result)
    ensures AttemptMoved(u, req.sid)
  {
  }

  lemma FailTaskGuarded(t: Tables, o: Id, req: Request)
    requires req.FailTask? && TaskConstraints(t)
    requires DoFailTask(t, req.sid, req.revision, req.attempt, req.token, req.exit, req.reason).Done?
    ensures req.sid in t.tasks && t.tasks[req.sid].state != Completed
  {
  }

  lemma FailTaskKeeps(t: Tables, o: Id, req: Request, u: Tables, r: OperationRow)
    requires Schema(t) && Audit(t) && Provenance(t) && o !in t.operations && req.FailTask? && TaskConstraints(t)
    requires var act := DoFailTask(t, req.sid, req.revision, req.attempt, req.token, req.exit, req.reason);
             act.Done? && r == OperationRow(req, act.result) && u == Record(act.next, o, req, act.result)
    ensures Schema(u) && Audit(u) && Provenance(u)
    ensures Elsewhere(t, u, req.sid) && !r.result.NothingQueued? && r.result.session == req.sid
  {
    hide *;
    FailTaskGuarded(t, o, req);
    OutstandingTask(t, req.sid);
    FailTaskTokenIsOwn(t, o, req);
    FailTaskMoves(t, o, req, u, r);
    FailTaskKeepsAttempts(t, o, req, u, r);
    TaskMovedMeans(t, u, req.sid, o, r);
    FailTaskRow(t, o, req, u);
    FailTaskAttempt(t, o, req, u);
    AttemptConstraintsKept(t, u);
    TaskMovedKeeps(t, u, req.sid, o, r);
  }

  lemma RetryFailedMoves(t: Tables, o: Id, req: Request, u: Tables, r: OperationRow)
    requires req.RetryFailed? && TaskConstraints(t) && SessionConstraints(t) && TaskHeld(t, req.sid)
    requires var act := DoRetryFailed(t, o, req.sid, req.revision, req.attempt, req.token, req.exit);
             act.Done? && r == OperationRow(req, act.result) && u == Record(act.next, o, req, act.result)
    ensures TaskMoved(t, u, req.sid, o, r) && QueueMoved(t, u, req.sid, o, r)
    ensures u.attempts.Keys == t.attempts.Keys && !r.result.NothingQueued? && r.result.session == req.sid
    ensures forall a | a in t.attempts :: u.attempts[a].session == t.attempts[a].session
                                          && u.attempts[a].number == t.attempts[a].number
  {
    hide TaskConstraints, SessionConstraints;
    SealPaired(t, req.sid);
    TaskRowHeld(t, req.sid);
  }

  lemma RetryFailedRow(t: Tables, o: Id, req: Request, u: Tables)
    requires req.RetryFailed? && TaskConstraints(t) && QueueConstraints(t)
    requires var act := DoRetryFailed(t, o, req.sid, req.revision, req.attempt, req.token, req.exit);
             act.Done? && u == Record(act.next, o, req, act.result)
    ensures TaskRowAcceptable(t, u, req.sid)
  {
  }

  lemma RetryFailedAttempt(t: Tables, o: Id, req: Request, u: Tables)
    requires req.RetryFailed? && TaskConstraints(t) && TaskHeld(t, req.sid)
    requires var act := DoRetryFailed(t, o, req.sid, req.revision, req.attempt, req.token, req.exit);
             act.Done? && u == Record(act.next, o, req, act.result)
    ensures AttemptMoved(u, req.sid)
  {
  }

  lemma RetryFailedGuarded(t: Tables, o: Id, req: Request)
    requires req.RetryFailed? && TaskConstraints(t)
    requires DoRetryFailed(t, o, req.sid, req.revision, req.attempt, req.token, req.exit).Done?
    ensures req.sid in t.tasks && t.tasks[req.sid].state != Completed
  {
  }

  lemma RetryFailedKeeps(t: Tables, o: Id, req: Request, u: Tables, r: OperationRow)
    requires Schema(t) && Audit(t) && Provenance(t) && o !in t.operations && req.RetryFailed? && TaskConstraints(t)
    requires var act := DoRetryFailed(t, o, req.sid, req.revision, req.attempt, req.token, req.exit);
             act.Done? && r == OperationRow(req, act.result) && u == Record(act.next, o, req, act.result)
    ensures Schema(u) && Audit(u) && Provenance(u)
    ensures Elsewhere(t, u, req.sid) && !r.result.NothingQueued? && r.result.session == req.sid
  {
    hide *;
    RetryFailedGuarded(t, o, req);
    OutstandingTask(t, req.sid);
    RetryFailedMoves(t, o, req, u, r);
    TaskMovedMeans(t, u, req.sid, o, r);
    RetryFailedRow(t, o, req, u);
    RetryFailedAttempt(t, o, req, u);
    AttemptConstraintsKept(t, u);
    TaskMovedKeeps(t, u, req.sid, o, r);
  }

  lemma BlockQueuedMoves(t: Tables, o: Id, req: Request, u: Tables, r: OperationRow)
    requires req.BlockQueued? && TaskConstraints(t) && SessionConstraints(t) && TaskHeld(t, req.sid)
    requires var act := DoBlockQueued(t, req.sid, req.revision, req.reason);
             act.Done? && r == OperationRow(req, act.result) && u == Record(act.next, o, req, act.result)
    ensures TaskMoved(t, u, req.sid, o, r) && QueueMoved(t, u, req.sid, o, r)
    ensures u.attempts.Keys == t.attempts.Keys && !r.result.NothingQueued? && r.result.session == req.sid
    ensures forall a | a in t.attempts :: u.attempts[a].session == t.attempts[a].session
                                          && u.attempts[a].number == t.attempts[a].number
  {
    hide TaskConstraints, SessionConstraints;
    SealPaired(t, req.sid);
    TaskRowHeld(t, req.sid);
  }

  lemma BlockQueuedRow(t: Tables, o: Id, req: Request, u: Tables)
    requires req.BlockQueued? && TaskConstraints(t)
    requires var act := DoBlockQueued(t, req.sid, req.revision, req.reason);
             act.Done? && u == Record(act.next, o, req, act.result)
    ensures TaskRowAcceptable(t, u, req.sid)
  {
  }

  lemma BlockQueuedAttempt(t: Tables, o: Id, req: Request, u: Tables)
    requires req.BlockQueued? && TaskConstraints(t) && TaskHeld(t, req.sid)
    requires var act := DoBlockQueued(t, req.sid, req.revision, req.reason);
             act.Done? && u == Record(act.next, o, req, act.result)
    ensures AttemptMoved(u, req.sid)
  {
  }

  lemma BlockQueuedGuarded(t: Tables, o: Id, req: Request)
    requires req.BlockQueued? && TaskConstraints(t)
    requires DoBlockQueued(t, req.sid, req.revision, req.reason).Done?
    ensures req.sid in t.tasks && t.tasks[req.sid].state != Completed
  {
  }

  lemma BlockQueuedKeeps(t: Tables, o: Id, req: Request, u: Tables, r: OperationRow)
    requires Schema(t) && Audit(t) && Provenance(t) && o !in t.operations && req.BlockQueued? && TaskConstraints(t)
    requires var act := DoBlockQueued(t, req.sid, req.revision, req.reason);
             act.Done? && r == OperationRow(req, act.result) && u == Record(act.next, o, req, act.result)
    ensures Schema(u) && Audit(u) && Provenance(u)
    ensures Elsewhere(t, u, req.sid) && !r.result.NothingQueued? && r.result.session == req.sid
  {
    hide *;
    BlockQueuedGuarded(t, o, req);
    OutstandingTask(t, req.sid);
    BlockQueuedMoves(t, o, req, u, r);
    TaskMovedMeans(t, u, req.sid, o, r);
    BlockQueuedRow(t, o, req, u);
    BlockQueuedAttempt(t, o, req, u);
    AttemptConstraintsKept(t, u);
    TaskMovedKeeps(t, u, req.sid, o, r);
  }

  // ---------------------------------------------------------- claiming a task

  lemma ClaimMoves(t: Tables, o: Id, s: Id, token: Id, req: Request, u: Tables, r: OperationRow)
    requires TaskConstraints(t) && SessionConstraints(t) && TaskHeld(t, s) && t.tasks[s].state == Queued
    requires var act := Claimed(t, s, token);
             act.Done? && r == OperationRow(req, act.result) && u == Record(act.next, o, req, act.result)
    ensures TaskMoved(t, u, s, o, r) && QueueMoved(t, u, s, o, r)
    ensures t.attempts.Keys <= u.attempts.Keys && !r.result.NothingQueued? && r.result.session == s
  {
    hide TaskConstraints, SessionConstraints;
    SealPaired(t, s);
  }

  lemma ClaimRow(t: Tables, o: Id, s: Id, token: Id, req: Request, u: Tables)
    requires TaskConstraints(t) && s in t.tasks && s in t.sessions && !AnyRunning(t)
    requires var act := Claimed(t, s, token); act.Done? && u == Record(act.next, o, req, act.result)
    ensures TaskRowAcceptable(t, u, s)
  {
  }

  lemma ClaimAttempt(t: Tables, o: Id, s: Id, token: Id, req: Request, u: Tables)
    requires TaskHeld(t, s) && t.tasks[s].state == Queued && AttemptConstraints(t) && 0 <= t.tasks[s].attempt
    requires var act := Claimed(t, s, token); act.Done? && u == Record(act.next, o, req, act.result)
    ensures AttemptMoved(u, s) && AttemptConstraints(u)
  {
  }

  lemma ClaimKeeps(t: Tables, o: Id, s: Id, token: Id, req: Request, u: Tables, r: OperationRow)
    requires Schema(t) && Audit(t) && Provenance(t) && o !in t.operations
    requires s in t.tasks && s in t.sessions && t.tasks[s].state == Queued && !AnyRunning(t) && 0 <= t.tasks[s].attempt
    requires var act := Claimed(t, s, token);
             act.Done? && r == OperationRow(req, act.result) && u == Record(act.next, o, req, act.result)
    ensures Schema(u) && Audit(u) && Provenance(u)
    ensures Elsewhere(t, u, s) && !r.result.NothingQueued? && r.result.session == s
  {
    hide *;
    OutstandingTask(t, s);
    ClaimMoves(t, o, s, token, req, u, r);
    TaskMovedMeans(t, u, s, o, r);
    ClaimRow(t, o, s, token, req, u);
    ClaimAttempt(t, o, s, token, req, u);
    TaskMovedKeeps(t, u, s, o, r);
  }

  // ---------------------------------------------------------------- settlement

  lemma SettleTaskReleases(t: Tables, o: Id, req: Request, u: Tables, r: OperationRow)
    requires req.SettleTask? && TaskConstraints(t) && SessionConstraints(t) && TaskHeld(t, req.sid)
    requires var act := DoSettleTask(t, req.sid, req.revision, req.attempt, req.token, req.settlement);
             act.Done? && r == OperationRow(req, act.result) && u == Record(act.next, o, req, act.result)
    requires forall i | i in t.bindings :: t.bindings[i].session != Some(req.sid)
    ensures Released(t, u, req.sid, o, r) && SessionUpdated(t, u, req.sid)
    ensures u.units == t.units - {req.sid} && u.receipts == t.receipts
    ensures u.operations == t.operations[o := r] && !r.result.NothingQueued? && r.result.session == req.sid
  {
    hide TaskConstraints, SessionConstraints;
    SealPaired(t, req.sid);
    TaskRowHeld(t, req.sid);
  }

  lemma SettleTaskRow(t: Tables, o: Id, req: Request, u: Tables)
    requires req.SettleTask? && TaskConstraints(t)
    requires var act := DoSettleTask(t, req.sid, req.revision, req.attempt, req.token, req.settlement);
             act.Done? && u == Record(act.next, o, req, act.result)
    ensures TaskRowAcceptable(t, u, req.sid)
  {
  }

  lemma SettleTaskGuarded(t: Tables, req: Request)
    requires req.SettleTask? && TaskConstraints(t)
    requires DoSettleTask(t, req.sid, req.revision, req.attempt, req.token, req.settlement).Done?
    ensures req.sid in t.tasks && t.tasks[req.sid].state == Running
  {
  }

  lemma SettleTaskKeeps(t: Tables, o: Id, req: Request, u: Tables, r: OperationRow)
    requires Schema(t) && Audit(t) && Provenance(t) && o !in t.operations && req.SettleTask? && TaskConstraints(t)
    requires var act := DoSettleTask(t, req.sid, req.revision, req.attempt, req.token, req.settlement);
             act.Done? && r == OperationRow(req, act.result) && u == Record(act.next, o, req, act.result)
    ensures Schema(u) && Audit(u) && Provenance(u)
    ensures Elsewhere(t, u, req.sid) && !r.result.NothingQueued? && r.result.session == req.sid
  {
    hide *;
    var s := req.sid;
    SettleTaskGuarded(t, req);
    OutstandingTask(t, s);
    UnitMeans(t, s);
    TaskUnitMeans(t, s);
    SettleTaskReleases(t, o, req, u, r);
    UpdatedMeans(t, u, s);
    SettleTaskRow(t, o, req, u);
    ReleasedKeeps(t, u, s, o, r);
  }
}
