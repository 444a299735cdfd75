/** What each journal mutation does to the tables, and the transaction around it. */
module JournalSpec {
  import opened Wrappers
  import opened JournalTypes
  import opened JournalTables

  datatype Refusal = Conflict | Invalid
  datatype Action = Done(next: Tables, result: OpResult) | Refuse(why: Refusal)

  /** Where a transaction is interrupted, if anywhere. A failing COMMIT may have committed. */
  datatype Fault =
    | NoFault
    | FaultAtBegin
    | FaultBeforeCommit(rollbackFails: bool)
    | FaultInCommit(committed: bool)
    | FaultAfterCommit
    | FaultOnRollback(again: bool)
    | FaultOnClose

  datatype Outcome = Returned(result: OpResult) | Refused(why: Refusal) | Interrupted | Uncertain
  datatype Call = Call(operation: Id, request: Request, fault: Fault)

  // -------------------------------------------------------------- validation

  predicate ReasonAcceptable(reason: string) {
    1 <= |reason| <= 64 && forall i | 0 <= i < |reason| :: 'a' <= reason[i] <= 'z' || reason[i] == '_'
  }

  predicate RecoveryAcceptable(recovery: Option<string>) {
    recovery.None? || recovery.value in {"process_restart", "network_outage", "network_recovered", "room_ended",
                                         "user_stop", "identity_unavailable", "ambiguous_state"}
  }

  /** The checks an operation makes on its arguments before any transaction begins. */
  predicate ArgumentsAcceptable(request: Request) {
    match request
    case Reserve(_, slot) => slot.None? || slot.value in {1, 2}
    case CaptureIntent(_, _, _, _, _, recovery) => RecoveryAcceptable(recovery)
    case SettleReservation(sid, generation, _, release) =>
      release.sessionId == sid && release.generation == generation
    case HoldAttempt(_, _, _, _, reason) => ReasonAcceptable(reason)
    case FailTask(sid, _, _, token, exit, reason) =>
      exit.sessionId == sid && exit.token == token && ReasonAcceptable(reason)
    case RetryFailed(sid, _, _, token, exit) => exit.sessionId == sid && exit.token == token
    case BlockQueued(_, revision, reason) => 0 < revision && ReasonAcceptable(reason)
    case SettleTask(sid, _, _, token, settlement) => settlement.sessionId == sid && settlement.token == token
    case _ => true
  }

  predicate AdmissionRefused(t: Tables, intent: SessionIntent, room: Option<Room>, excluding: Option<Id>) {
    exists s | s in t.units ::
      s in t.sessions && Some(s) != excluding
      && OwnershipConflict(Owner(intent, room, CaptureUnit), OwnerOf(t, s))
  }

  /** The session, generation and revision a capture callback names are still the bound ones. */
  predicate CaptureGuard(t: Tables, s: Id, generation: int, revision: int) {
    && s in t.sessions && t.sessions[s].revision == revision
    && exists i | i in t.bindings :: BoundAt(t, i, s) && t.bindings[i].generation == generation
  }

  predicate TaskGuard(t: Tables, s: Id, revision: int, attempt: int, token: Id) {
    && s in t.tasks && t.tasks[s].revision == revision
    && t.tasks[s].attempt == attempt && t.tasks[s].token == Some(token)
  }

  function FreeSlot(t: Tables, wanted: Option<int>): Option<int> {
    if wanted != Some(2) && 1 in t.bindings && t.bindings[1].session.None? then Some(1)
    else if wanted != Some(1) && 2 in t.bindings && t.bindings[2].session.None? then Some(2)
    else None
  }

  function Unbound(bindings: map<int, BindingRow>, s: Id): map<int, BindingRow> {
    map i | i in bindings :: if bindings[i].session == Some(s) then bindings[i].(session := None) else bindings[i]
  }

  function ArtifactsWithout(artifacts: map<(Id, ArtifactKind), ArtifactIdentity>, s: Id)
    : map<(Id, ArtifactKind), ArtifactIdentity>
  {
    map k | k in artifacts && k.0 != s :: artifacts[k]
  }

  function RoomsWithout(rooms: map<Room, Id>, s: Id): map<Room, Id> {
    map r | r in rooms && rooms[r] != s :: rooms[r]
  }

  // ----------------------------------------------------------- capture side

  predicate Claims(t: Tables, s: Id, claim: Id) {
    s in t.sessions && t.sessions[s].automaticClaim == Some(claim)
  }

  /** The session that was accepted under an automatic claim. */
  ghost function Claimant(t: Tables, claim: Id): (s: Option<Id>)
    ensures s.Some? ==> Claims(t, s.value, claim)
    ensures s.None? ==> forall x :: !Claims(t, x, claim)
  {
    if exists x :: Claims(t, x, claim) then var x :| Claims(t, x, claim); Some(x) else None
  }

  ghost function AcceptedInto(t: Tables, intent: SessionIntent, slot: int): Action
    requires slot in t.bindings
  {
    var s, generation := intent.sessionId, t.bindings[slot].generation + 1;
    Done(t.(sessions := t.sessions[s := SessionRow(s, intent, intent.creator, intent.expectedRoom, None,
                                                   intent.automaticClaim, slot, generation, Phase.Reserved, 1,
                                                   false, None, None, None)],
            bindings := t.bindings[slot := BindingRow(generation, Some(s))],
            units := t.units[s := CaptureUnit],
            artifacts := t.artifacts[(s, OutputClaim) := intent.output][(s, PartsClaim) := intent.parts],
            rooms := if intent.expectedRoom.Some? then t.rooms[intent.expectedRoom.value := s] else t.rooms,
            receipts := if intent.automaticClaim.Some?
                        then t.receipts[intent.automaticClaim.value := ReceiptRow(s, intent)] else t.receipts),
         CaptureResult(s, slot, generation, 1))
  }

  ghost function ReserveNew(t: Tables, intent: SessionIntent, slot: Option<int>): Action {
    var s := intent.sessionId;
    if s in t.sessions then
      Refuse(if SessionReceiptValid(t, s) then Conflict else Invalid)
    else if AdmissionRefused(t, intent, intent.expectedRoom, None) || |t.units| >= 8 || FreeSlot(t, slot).None? then
      Refuse(Conflict)
    else
      AcceptedInto(t, intent, FreeSlot(t, slot).value)
  }

  ghost function DoReserve(t: Tables, intent: SessionIntent, slot: Option<int>): Action {
    if intent.automaticClaim.None? then ReserveNew(t, intent, slot)
    else
      var claim := intent.automaticClaim.value;
      match Claimant(t, claim)
      case None => if claim in t.receipts then Refuse(Invalid) else ReserveNew(t, intent, slot)
      case Some(s) =>
        if !SessionReceiptValid(t, s) then Refuse(Invalid)
        else if t.receipts[claim].intent != intent then Refuse(Conflict)
        else Done(t, CaptureResult(s, t.sessions[s].originSlot, t.sessions[s].generation, 1))
  }

  ghost function DoAdmit(t: Tables, s: Id, generation: int, revision: int, provenRoom: Room): Action {
    if generation <= 0 || revision <= 0 then Refuse(Invalid)
    else if !CaptureGuard(t, s, generation, revision) then Refuse(Conflict)
    else
      var row := t.sessions[s];
      if row.stop || row.phase != Phase.Reserved
         || (row.intent.expectedRoom.Some? && row.intent.expectedRoom != Some(provenRoom))
         || AdmissionRefused(t, row.intent, Some(provenRoom), Some(s))
         // The trigger that makes a recorded room immutable.
         || (row.room.Some? && row.room != Some(provenRoom))
      then Refuse(Conflict)
      else
        Done(t.(sessions := t.sessions[s := row.(room := Some(provenRoom), phase := Capturing,
                                                 revision := row.revision + 1)],
                rooms := if provenRoom in t.rooms then t.rooms else t.rooms[provenRoom := s]),
             CaptureResult(s, row.originSlot, row.generation, revision + 1))
  }

  ghost function DoCaptureIntent(t: Tables, s: Id, generation: int, revision: int, closing: bool, stop: bool,
                                 recovery: Option<string>): Action
  {
    if generation <= 0 || revision <= 0 then Refuse(Invalid)
    else if !CaptureGuard(t, s, generation, revision) then Refuse(Conflict)
    else
      var row := t.sessions[s];
      Done(t.(sessions := t.sessions[s := row.(phase := if closing then Closing else row.phase,
                                               stop := stop || row.stop,
                                               recovery := if recovery.Some? then recovery else row.recovery,
                                               revision := row.revision + 1)]),
           CaptureResult(s, row.originSlot, row.generation, revision + 1))
  }

  ghost function DoHandoff(t: Tables, operation: Id, s: Id, generation: int, revision: int, seal: ClosureSeal): Action {
    if generation <= 0 || revision <= 0 then Refuse(Invalid)
    else if !CaptureGuard(t, s, generation, revision) then Refuse(Conflict)
    else
      var row := t.sessions[s];
      if !(row.phase == Closing && row.room.Some? && SealBound(seal, s, generation, row.room, row.intent))
         || !SealInsideParts(seal, row.intent)
      then Refuse(Invalid)
      // The trigger that makes a recorded seal immutable.
      else if row.seal.Some? && (row.seal != Some(seal) || row.sealHash != Some(HashOf(seal))) then Refuse(Conflict)
      else
        var entry := t.queueSeq + 1;
        Done(t.(sessions := t.sessions[s := row.(phase := QueuedPhase, revision := row.revision + 1,
                                                 seal := Some(seal), sealHash := Some(HashOf(seal)))],
                queue := t.queue[entry := QueueEntry(s, operation)],
                queueSeq := entry,
                tasks := t.tasks[s := TaskRow(Queued, 1, 0, None, None, None, entry)],
                units := t.units[s := TaskUnit],
                bindings := Unbound(t.bindings, s)),
             HandoffResult(s, row.originSlot, row.generation, revision + 1, 1, HashOf(seal), entry))
  }

  ghost function DoSettleReservation(t: Tables, s: Id, generation: int, revision: int): Action {
    if generation <= 0 || revision <= 0 then Refuse(Invalid)
    else if !CaptureGuard(t, s, generation, revision) || t.sessions[s].phase != Phase.Reserved then Refuse(Conflict)
    else
      var row := t.sessions[s];
      Done(t.(sessions := t.sessions[s := row.(phase := NoAssembly, revision := row.revision + 1)],
              units := t.units - {s},
              artifacts := ArtifactsWithout(t.artifacts, s),
              rooms := RoomsWithout(t.rooms, s),
              bindings := Unbound(t.bindings, s)),
           CaptureResult(s, row.originSlot, row.generation, revision + 1))
  }

  // -------------------------------------------------------------- task side

  predicate OldestQueued(t: Tables, s: Id) {
    && s in t.tasks && t.tasks[s].state == Queued
    && (forall x | x in t.tasks && t.tasks[x].state == Queued :: t.tasks[s].queueOrder <= t.tasks[x].queueOrder)
  }

  predicate AnyRunning(t: Tables) { exists s | s in t.tasks :: t.tasks[s].state == Running }

  predicate TokenTaken(t: Tables, token: Id, s: Id, number: int) {
    token in t.attempts || exists a | a in t.attempts :: t.attempts[a].session == s && t.attempts[a].number == number
  }

  ghost function Claimed(t: Tables, s: Id, token: Id): Action
    requires s in t.tasks && s in t.sessions
  {
    var row := t.tasks[s];
    // The primary key on the token and the unique attempt number.
    if TokenTaken(t, token, s, row.attempt + 1) then Refuse(Conflict)
    else
      Done(t.(attempts := t.attempts[token := AttemptRow(s, row.attempt + 1, AttemptRunning, None)],
              tasks := t.tasks[s := row.(state := Running, revision := row.revision + 1, attempt := row.attempt + 1,
                                         token := Some(token), error := None)],
              sessions := t.sessions[s := t.sessions[s].(phase := RunningPhase,
                                                         revision := t.sessions[s].revision + 1)]),
           AttemptResult(s, row.revision + 1, row.attempt + 1, token))
  }

  ghost function DoClaimNext(t: Tables, token: Id): Action
    requires t.tasks.Keys <= t.sessions.Keys
  {
    if AnyRunning(t) || !exists s :: OldestQueued(t, s) then Done(t, NothingQueued)
    else var s :| OldestQueued(t, s); Claimed(t, s, token)
  }

  ghost function DoHoldAttempt(t: Tables, s: Id, revision: int, attempt: int, token: Id, reason: string): Action {
    if revision <= 0 || attempt <= 0 then Refuse(Invalid)
    else if !TaskGuard(t, s, revision, attempt, token) || t.tasks[s].state != Running then Refuse(Conflict)
    else
      Done(t.(tasks := t.tasks[s := t.tasks[s].(error := Some(reason), revision := t.tasks[s].revision + 1)]),
           AttemptResult(s, revision + 1, attempt, token))
  }

  ghost function DoFailTask(t: Tables, s: Id, revision: int, attempt: int, token: Id, exit: ExitProof,
                            reason: string): Action
    requires TaskConstraints(t)
  {
    if revision <= 0 || attempt <= 0 then Refuse(Invalid)
    else if !TaskGuard(t, s, revision, attempt, token) || t.tasks[s].state != Running then Refuse(Conflict)
    else
      Done(t.(tasks := t.tasks[s := t.tasks[s].(state := Failed, error := Some(reason), proof := Some(Exit(exit)),
                                                revision := t.tasks[s].revision + 1)],
              attempts := t.attempts[token := t.attempts[token].(state := AttemptFailed, proof := Some(Exit(exit)))],
              sessions := t.sessions[s := t.sessions[s].(phase := FailedPhase,
                                                         revision := t.sessions[s].revision + 1)]),
           AttemptResult(s, revision + 1, attempt, token))
  }

  ghost function DoRetryFailed(t: Tables, operation: Id, s: Id, revision: int, attempt: int, token: Id,
                               exit: ExitProof): Action
    requires TaskConstraints(t)
  {
    if revision <= 0 || attempt <= 0 then Refuse(Invalid)
    else if !TaskGuard(t, s, revision, attempt, token) || t.tasks[s].state != Failed
            || t.tasks[s].proof != Some(Exit(exit)) then Refuse(Conflict)
    else
      var entry := t.queueSeq + 1;
      Done(t.(queue := t.queue[entry := QueueEntry(s, operation)],
              queueSeq := entry,
              tasks := t.tasks[s := t.tasks[s].(state := Queued, revision := t.tasks[s].revision + 1,
                                                queueOrder := entry)],
              sessions := t.sessions[s := t.sessions[s].(phase := QueuedPhase,
                                                         revision := t.sessions[s].revision + 1)]),
           RetryResult(s, revision + 1, attempt, token, entry))
  }

  ghost function DoBlockQueued(t: Tables, s: Id, revision: int, reason: string): Action
    requires TaskConstraints(t)
  {
    if !(s in t.tasks && t.tasks[s].revision == revision && t.tasks[s].state == Queued) then Refuse(Conflict)
    else
      Done(t.(tasks := t.tasks[s := t.tasks[s].(state := Blocked, error := Some(reason),
                                                revision := t.tasks[s].revision + 1)],
              sessions := t.sessions[s := t.sessions[s].(phase := BlockedPhase,
                                                         revision := t.sessions[s].revision + 1)]),
           BlockResult(s, revision + 1))
  }

  ghost function DoSettleTask(t: Tables, s: Id, revision: int, attempt: int, token: Id,
                              settlement: SettlementProof): Action
    requires TaskConstraints(t)
  {
    if revision <= 0 || attempt <= 0 then Refuse(Invalid)
    else if !TaskGuard(t, s, revision, attempt, token) || t.tasks[s].state != Running then Refuse(Conflict)
    else if Some(settlement.sealHash) != t.sessions[s].sealHash
            || settlement.output != t.sessions[s].intent.output then Refuse(Invalid)
    else
      Done(t.(tasks := t.tasks[s := t.tasks[s].(state := Completed, proof := Some(Settlement(settlement)),
                                                revision := t.tasks[s].revision + 1)],
              attempts := t.attempts[token := t.attempts[token].(state := AttemptCompleted,
                                                                 proof := Some(Settlement(settlement)))],
              sessions := t.sessions[s := t.sessions[s].(phase := CompletedPhase,
                                                         revision := t.sessions[s].revision + 1)],
              units := t.units - {s},
              artifacts := ArtifactsWithout(t.artifacts, s),
              rooms := RoomsWithout(t.rooms, s)),
           SettledResult(s, revision + 1, attempt, token))
  }

  // ------------------------------------------------------------ transaction

  ghost function Act(t: Tables, operation: Id, request: Request): Action
    requires TaskConstraints(t)
  {
    match request
    case Reserve(intent, slot) => DoReserve(t, intent, slot)
    case Admit(s, g, r, room) => DoAdmit(t, s, g, r, room)
    case CaptureIntent(s, g, r, closing, stop, recovery) => DoCaptureIntent(t, s, g, r, closing, stop, recovery)
    case Handoff(s, g, r, seal) => DoHandoff(t, operation, s, g, r, seal)
    case SettleReservation(s, g, r, _) => DoSettleReservation(t, s, g, r)
    case ClaimNext(token) => DoClaimNext(t, token)
    case HoldAttempt(s, r, n, token, reason) => DoHoldAttempt(t, s, r, n, token, reason)
    case FailTask(s, r, n, token, exit, reason) => DoFailTask(t, s, r, n, token, exit, reason)
    case RetryFailed(s, r, n, token, exit) => DoRetryFailed(t, operation, s, r, n, token, exit)
    case BlockQueued(s, r, reason) => DoBlockQueued(t, s, r, reason)
    case SettleTask(s, r, n, token, settlement) => DoSettleTask(t, s, r, n, token, settlement)
  }

  function Record(t: Tables, operation: Id, request: Request, result: OpResult): Tables {
    t.(operations := t.operations[operation := OperationRow(request, result)])
  }

  /** Replaying a receipt revalidates the acceptance of the session it names. */
  predicate ReplayValid(t: Tables, result: OpResult) {
    result.NothingQueued? || (result.session in t.sessions && SessionReceiptValid(t, result.session))
  }

  /** A call that only read rolls back; a rollback that fails is tried again. */
  function ReplayEnds(fault: Fault, result: OpResult): Outcome {
    if fault.FaultOnRollback? then (if fault.again then Uncertain else Interrupted) else Returned(result)
  }

  /** A call that is turned down rolls back once. */
  function RefusalEnds(fault: Fault, why: Refusal): Outcome {
    if fault.FaultOnRollback? then Uncertain else Refused(why)
  }

  ghost function Attempted(t: Tables, call: Call): (Tables, Outcome)
    requires TaskConstraints(t)
  {
    if call.fault == FaultAtBegin then (t, Interrupted)
    else if !Audit(t) then (t, RefusalEnds(call.fault, Invalid))
    else if call.operation in t.operations then
      var prior := t.operations[call.operation];
      (t, if prior.request != call.request then RefusalEnds(call.fault, Conflict)
          else if !ReplayValid(t, prior.result) then RefusalEnds(call.fault, Invalid)
          else ReplayEnds(call.fault, prior.result))
    else if call.fault.FaultBeforeCommit? then (t, if call.fault.rollbackFails then Uncertain else Interrupted)
    else
      match Act(t, call.operation, call.request)
      case Refuse(why) => (t, RefusalEnds(call.fault, why))
      case Done(next, result) =>
        var recorded := Record(next, call.operation, call.request, result);
        if !Audit(recorded) then (t, RefusalEnds(call.fault, Invalid))
        else if call.fault.FaultInCommit? then (if call.fault.committed then recorded else t, Uncertain)
        else (recorded, if call.fault == FaultAfterCommit then Uncertain else Returned(result))
  }

  /** One call of a journal operation: the durable tables it leaves and what its caller learns. */
  ghost function Transact(t: Tables, call: Call): (Tables, Outcome)
    requires TaskConstraints(t)
  {
    if !ArgumentsAcceptable(call.request) then (t, Refused(Invalid))
    else
      var (next, outcome) := Attempted(t, call);
      (next, if call.fault == FaultOnClose then Uncertain else outcome)
  }
}
