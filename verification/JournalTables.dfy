/** The tables of the session journal, the constraints the database engine
    enforces on them, and the cross-table audit. */
module JournalTables {
  import opened Wrappers
  import opened JournalTypes

  datatype Phase = Reserved | Capturing | Closing | QueuedPhase | RunningPhase
                 | FailedPhase | BlockedPhase | CompletedPhase | NoAssembly
  datatype UnitKind = CaptureUnit | TaskUnit
  datatype ArtifactKind = OutputClaim | PartsClaim
  datatype TaskState = Queued | Running | Failed | Blocked | Completed
  datatype AttemptState = AttemptRunning | AttemptFailed | AttemptCompleted
  datatype Proof = Exit(exit: ExitProof) | Settlement(settlement: SettlementProof)

  datatype SessionRow = SessionRow(
    id: Id, intent: SessionIntent, creator: string, expectedRoom: Option<Room>,
    room: Option<Room>, automaticClaim: Option<Id>, originSlot: int, generation: int,
    phase: Phase, revision: int, stop: bool, recovery: Option<string>,
    seal: Option<ClosureSeal>, sealHash: Option<SealHash>)

  datatype BindingRow = BindingRow(generation: nat, session: Option<Id>)
  datatype AttemptRow = AttemptRow(session: Id, number: int, state: AttemptState, proof: Option<Proof>)
  datatype QueueEntry = QueueEntry(session: Id, operation: Id)
  datatype TaskRow = TaskRow(state: TaskState, revision: int, attempt: int, token: Option<Id>,
                             error: Option<string>, proof: Option<Proof>, queueOrder: nat)
  datatype ReceiptRow = ReceiptRow(session: Id, intent: SessionIntent)
  datatype OperationRow = OperationRow(request: Request, result: OpResult)

  /** The kind and arguments of one mutation, as its permanent receipt stores them. */
  datatype Request =
    | Reserve(intent: SessionIntent, slot: Option<int>)
    | Admit(sid: Id, generation: int, revision: int, provenRoom: Room)
    | CaptureIntent(sid: Id, generation: int, revision: int, closing: bool, stop: bool,
                    recovery: Option<string>)
    | Handoff(sid: Id, generation: int, revision: int, seal: ClosureSeal)
    | SettleReservation(sid: Id, generation: int, revision: int, release: ReleaseProof)
    | ClaimNext(token: Id)
    | HoldAttempt(sid: Id, revision: int, attempt: int, token: Id, reason: string)
    | FailTask(sid: Id, revision: int, attempt: int, token: Id, exit: ExitProof, reason: string)
    | RetryFailed(sid: Id, revision: int, attempt: int, token: Id, exit: ExitProof)
    | BlockQueued(sid: Id, revision: int, reason: string)
    | SettleTask(sid: Id, revision: int, attempt: int, token: Id, settlement: SettlementProof)

  datatype OpResult =
    | NothingQueued
    | CaptureResult(session: Id, slot: int, generation: int, revision: int)
    | HandoffResult(session: Id, slot: int, generation: int, revision: int,
                    taskRevision: int, sealHash: SealHash, queueOrder: nat)
    | AttemptResult(session: Id, revision: int, attempt: int, token: Id)
    | RetryResult(session: Id, revision: int, attempt: int, token: Id, queueOrder: nat)
    | BlockResult(session: Id, revision: int)
    | SettledResult(session: Id, revision: int, attempt: int, token: Id)

  datatype Tables = Tables(
    sessions: map<Id, SessionRow>,
    bindings: map<int, BindingRow>,
    units: map<Id, UnitKind>,
    artifacts: map<(Id, ArtifactKind), ArtifactIdentity>,
    rooms: map<Room, Id>,
    attempts: map<Id, AttemptRow>,
    queue: map<nat, QueueEntry>,
    queueSeq: nat,
    tasks: map<Id, TaskRow>,
    receipts: map<Id, ReceiptRow>,
    operations: map<Id, OperationRow>)

  /** A freshly initialized catalog: two free slots and nothing else. */
  function Fresh(): Tables {
    Tables(map[], map[1 := BindingRow(0, None), 2 := BindingRow(0, None)], map[], map[], map[],
           map[], map[], 0, map[], map[], map[])
  }

  // ------------------------------------------------------------------ schema

  predicate SessionConstraints(t: Tables) {
    && (forall s | s in t.sessions :: var row := t.sessions[s];
          row.id == s && row.originSlot in {1, 2} && 0 < row.generation && 0 < row.revision
          && (row.seal.Some? <==> row.sealHash.Some?))
    && (forall a, b | a in t.sessions && b in t.sessions && a != b ::
          t.sessions[a].automaticClaim.Some? ==> t.sessions[a].automaticClaim != t.sessions[b].automaticClaim)
  }

  predicate BindingConstraints(t: Tables) {
    && t.bindings.Keys <= {1, 2}
    && (forall i | i in t.bindings :: t.bindings[i].session.Some? ==> t.bindings[i].session.value in t.sessions)
    && (forall i, j | i in t.bindings && j in t.bindings && i != j ::
          t.bindings[i].session.Some? ==> t.bindings[i].session != t.bindings[j].session)
  }

  predicate ClaimConstraints(t: Tables) {
    && t.units.Keys <= t.sessions.Keys
    && (forall k | k in t.artifacts :: k.0 in t.sessions)
    && (forall k, l | k in t.artifacts && l in t.artifacts && k != l :: t.artifacts[k] != t.artifacts[l])
    && (forall r | r in t.rooms :: t.rooms[r] in t.sessions)
  }

  predicate QueueConstraints(t: Tables) {
    && (forall p | p in t.queue :: 0 < p <= t.queueSeq && t.queue[p].session in t.sessions
                                   && t.queue[p].operation in t.operations)
    && (forall p, q | p in t.queue && q in t.queue && p != q :: t.queue[p].operation != t.queue[q].operation)
  }

  predicate AttemptConstraints(t: Tables) {
    && (forall a | a in t.attempts :: t.attempts[a].session in t.sessions && 0 < t.attempts[a].number)
    && (forall a, b | a in t.attempts && b in t.attempts && a != b ::
          (t.attempts[a].session, t.attempts[a].number) != (t.attempts[b].session, t.attempts[b].number))
  }

  predicate TaskConstraints(t: Tables) {
    && t.tasks.Keys <= t.sessions.Keys
    && (forall s | s in t.tasks :: var row := t.tasks[s];
          && 0 < row.revision && 0 <= row.attempt && row.queueOrder in t.queue
          && (row.token.Some? ==> row.token.value in t.attempts)
          && (row.state == Running ==> row.token.Some? && 0 < row.attempt))
    && (forall a, b | a in t.tasks && b in t.tasks && a != b ::
          && t.tasks[a].queueOrder != t.tasks[b].queueOrder
          && (t.tasks[a].token.Some? ==> t.tasks[a].token != t.tasks[b].token)
          && !(t.tasks[a].state == Running && t.tasks[b].state == Running))
  }

  predicate ReceiptConstraints(t: Tables) {
    && (forall c | c in t.receipts :: t.receipts[c].session in t.sessions)
    && (forall c, d | c in t.receipts && d in t.receipts && c != d :: t.receipts[c].session != t.receipts[d].session)
  }

  /** Every CHECK, UNIQUE and foreign key constraint, the one-finalizer index and the work limit. */
  predicate Schema(t: Tables) {
    && SessionConstraints(t) && BindingConstraints(t) && ClaimConstraints(t) && QueueConstraints(t)
    && AttemptConstraints(t) && TaskConstraints(t) && ReceiptConstraints(t) && |t.units| <= 8
  }

  // --------------------------------------------------------------- ownership

  datatype Owner = Owner(intent: SessionIntent, room: Option<Room>, kind: UnitKind)

  predicate OwnershipConflict(left: Owner, right: Owner) {
    || (left.room.Some? && left.room == right.room)
    || (left.intent.creator == right.intent.creator
        && ((left.kind == CaptureUnit && right.kind == CaptureUnit) || left.room.None? || right.room.None?))
    || left.intent.output.Overlaps(right.intent.output) || left.intent.output.Overlaps(right.intent.parts)
    || left.intent.parts.Overlaps(right.intent.output) || left.intent.parts.Overlaps(right.intent.parts)
  }

  function CurrentRoom(row: SessionRow): Option<Room> {
    if row.room.Some? then row.room else row.expectedRoom
  }

  function OwnerOf(t: Tables, s: Id): Owner
    requires s in t.units && s in t.sessions
  {
    Owner(t.sessions[s].intent, CurrentRoom(t.sessions[s]), t.units[s])
  }

  // ------------------------------------------------------------------- audit

  /** A session's immutable columns agree with its intent and with its acceptance receipt. */
  predicate SessionReceiptValid(t: Tables, s: Id)
    requires s in t.sessions
  {
    var row := t.sessions[s];
    && row.intent.sessionId == row.id && row.intent.creator == row.creator
    && row.intent.expectedRoom == row.expectedRoom && row.intent.automaticClaim == row.automaticClaim
    && (forall c | c in t.receipts :: t.receipts[c].session == row.id ==> row.automaticClaim == Some(c))
    && (row.automaticClaim.Some? ==>
          && row.automaticClaim.value in t.receipts
          && t.receipts[row.automaticClaim.value] == ReceiptRow(row.id, row.intent))
  }

  predicate SealBound(seal: ClosureSeal, s: Id, generation: int, room: Option<Room>, intent: SessionIntent) {
    && seal.sessionId == s && seal.generation == generation && Some(seal.room) == room
    && seal.rawCopy == intent.rawCopy && intent.startedAt <= seal.endedAt
  }

  predicate SealInsideParts(seal: ClosureSeal, intent: SessionIntent) {
    forall a | a in seal.artifacts :: intent.parts.Contains(a.identity) && a.identity != intent.parts
  }

  predicate OwnershipValid(t: Tables, s: Id) {
    && s in t.sessions
    && SessionReceiptValid(t, s)
    && var row := t.sessions[s];
    && (row.room.Some? ==> row.expectedRoom.None? || row.expectedRoom == row.room)
    && (row.seal.Some? ==>
          && row.sealHash == Some(HashOf(row.seal.value))
          && SealBound(row.seal.value, s, row.generation, row.room, row.intent)
          && SealInsideParts(row.seal.value, row.intent))
    && (s, OutputClaim) in t.artifacts && t.artifacts[(s, OutputClaim)] == row.intent.output
    && (s, PartsClaim) in t.artifacts && t.artifacts[(s, PartsClaim)] == row.intent.parts
  }

  predicate RoomsValid(t: Tables, s: Id)
    requires s in t.sessions
  {
    && (forall r | r in t.rooms :: t.rooms[r] == s ==> CurrentRoom(t.sessions[s]) == Some(r))
    && (CurrentRoom(t.sessions[s]).Some? ==>
          CurrentRoom(t.sessions[s]).value in t.rooms && t.rooms[CurrentRoom(t.sessions[s]).value] == s)
  }

  predicate BoundAt(t: Tables, slot: int, s: Id) {
    slot in t.bindings && t.bindings[slot].session == Some(s)
  }

  predicate CaptureValid(t: Tables, s: Id)
    requires s in t.sessions
  {
    var row := t.sessions[s];
    && BoundAt(t, row.originSlot, s) && t.bindings[row.originSlot].generation == row.generation
    && s !in t.tasks
    && row.phase in {Reserved, Capturing, Closing}
  }

  function PhaseOf(state: TaskState): Phase {
    match state
    case Queued => QueuedPhase
    case Running => RunningPhase
    case Failed => FailedPhase
    case Blocked => BlockedPhase
    case Completed => CompletedPhase
  }

  function AttemptStateOf(state: TaskState): AttemptState {
    match state
    case Running => AttemptRunning
    case Completed => AttemptCompleted
    case _ => AttemptFailed
  }

  /** A task's queue position is its latest one and was granted by a committed receipt. */
  predicate QueuePlaceValid(t: Tables, s: Id)
    requires s in t.tasks
  {
    var p := t.tasks[s].queueOrder;
    && p in t.queue && t.queue[p].session == s
    && (forall q | q in t.queue :: t.queue[q].session == s ==> q <= p)
    && t.queue[p].operation in t.operations
    && var receipt := t.operations[t.queue[p].operation];
    && (receipt.request.Handoff? || receipt.request.RetryFailed?)
    && (receipt.result.HandoffResult? || receipt.result.RetryResult?)
    && receipt.result.session == s && receipt.result.queueOrder == p
  }

  predicate TaskValid(t: Tables, s: Id)
    requires s in t.sessions
  {
    && (forall i | i in t.bindings :: t.bindings[i].session != Some(s))
    && s in t.tasks
    && var task := t.tasks[s];
    && task.state != Completed && t.sessions[s].phase == PhaseOf(task.state)
    && t.sessions[s].seal.Some?
    && QueuePlaceValid(t, s)
    && (task.token.Some? ==>
          && task.token.value in t.attempts
          && var attempt := t.attempts[task.token.value];
             attempt.session == s && attempt.number == task.attempt && attempt.state == AttemptStateOf(task.state))
  }

  predicate UnitValid(t: Tables, s: Id)
    requires s in t.units
  {
    && OwnershipValid(t, s)
    && RoomsValid(t, s)
    && (if t.units[s] == CaptureUnit then CaptureValid(t, s) else TaskValid(t, s))
  }

  predicate OwnersSeparate(t: Tables) {
    forall a, b | a in t.units && b in t.units && a != b ::
      a in t.sessions && b in t.sessions && !OwnershipConflict(OwnerOf(t, a), OwnerOf(t, b))
  }

  predicate Terminal(phase: Phase) { phase == CompletedPhase || phase == NoAssembly }

  predicate TaskRuns(t: Tables, s: Id, token: Id) {
    s in t.tasks && t.tasks[s].token == Some(token) && t.tasks[s].state == Running
  }

  /** Nothing outstanding is left without the unit that pays for it. */
  predicate Accounted(t: Tables) {
    && (forall i | i in t.bindings :: t.bindings[i].session.Some? ==>
          t.bindings[i].session.value in t.units && t.units[t.bindings[i].session.value] == CaptureUnit)
    && (forall s | s in t.tasks :: t.tasks[s].state != Completed ==> s in t.units && t.units[s] == TaskUnit)
    && (forall s | s in t.sessions :: !Terminal(t.sessions[s].phase) ==> s in t.units)
    && (forall k | k in t.artifacts :: k.0 in t.units)
    && (forall r | r in t.rooms :: t.rooms[r] in t.units)
    && (forall a | a in t.attempts :: t.attempts[a].state == AttemptRunning ==>
          exists s | s in t.tasks :: TaskRuns(t, s, a))
  }

  /** The whole cross-table audit that runs before and after every mutation. */
  predicate Audit(t: Tables) {
    && |t.units| <= 8 && t.bindings.Keys == {1, 2}
    && (forall s | s in t.units :: UnitValid(t, s))
    && OwnersSeparate(t)
    && Accounted(t)
  }

  /** Every session, outstanding or historical, keeps its acceptance receipt, and
      every operation receipt names an accepted session. The audit looks at
      outstanding sessions only; replaying old receipts needs this for all. */
  predicate Provenance(t: Tables) {
    && (forall s | s in t.sessions :: SessionReceiptValid(t, s))
    && (forall o | o in t.operations :: !t.operations[o].result.NothingQueued? ==>
          t.operations[o].result.session in t.sessions)
  }

  predicate Sound(t: Tables) { Schema(t) && Audit(t) && Provenance(t) }
}
