/** The journal store itself: one transaction per mutation, whose action updates
    the tables statement by statement, proved against the specification. */
module JournalStores {
  import opened Wrappers
  import opened JournalTypes
  import opened JournalTables
  import opened JournalSpec
  import opened JournalInvariant
  import opened JournalPreserve
  import opened JournalRuns
  import opened JournalHistory

  datatype ActionResult = Performed(result: OpResult) | Raised(why: Refusal)

  /** What an action reports, and the tables it leaves, are what the specification says; after a
      refusal the tables do not matter, because the transaction is rolled back. */
  ghost predicate Performs(spec: Action, r: ActionResult, tables: Tables) {
    match spec
    case Done(next, result) => r == Performed(result) && tables == next
    case Refuse(why) => r == Raised(why)
  }

  lemma OldestIsUnique(t: Tables, a: Id, b: Id)
    requires TaskConstraints(t) && OldestQueued(t, a) && OldestQueued(t, b)
    ensures a == b
  {
  }

  lemma ClaimantIsUnique(t: Tables, claim: Id, s: Id)
    requires SessionConstraints(t) && Claims(t, s, claim)
    ensures Claimant(t, claim) == Some(s)
  {
  }

  lemma {:induction false} SomeOldest(t: Tables, queued: set<Id>) returns (s: Id)
    requires queued != {} && forall x | x in queued :: x in t.tasks
    ensures s in queued && forall x | x in queued :: t.tasks[s].queueOrder <= t.tasks[x].queueOrder
    decreases queued
  {
    var x :| x in queued;
    s := x;
    if queued != {x} {
      assert queued - {x} != {};
      var y := SomeOldest(t, queued - {x});
      s := if t.tasks[y].queueOrder < t.tasks[x].queueOrder then y else x;
    }
  }

  lemma OldestExists(t: Tables)
    requires exists s | s in t.tasks :: t.tasks[s].state == Queued
    ensures exists s | s in t.tasks :: OldestQueued(t, s)
  {
    var queued := set x | x in t.tasks && t.tasks[x].state == Queued;
    var first :| first in t.tasks && t.tasks[first].state == Queued;
    assert first in queued;
    var s := SomeOldest(t, queued);
    assert OldestQueued(t, s);
  }

  lemma TaskRowMeans(t: Tables, s: Id)
    requires TaskConstraints(t) && s in t.tasks
    ensures s in t.sessions && (t.tasks[s].token.Some? ==> t.tasks[s].token.value in t.attempts)
  {
  }

  lemma GuardedSession(t: Tables, s: Id, generation: int, revision: int)
    requires CaptureGuard(t, s, generation, revision)
    ensures s in t.sessions
  {
  }

  lemma GuardedTask(t: Tables, s: Id, revision: int, attempt: int, token: Id)
    ensures TaskGuard(t, s, revision, attempt, token) ==> s in t.tasks && t.tasks[s].revision == revision
  {
  }

  lemma FreeSlotMeans(t: Tables, wanted: Option<int>)
    ensures FreeSlot(t, wanted).Some? ==> FreeSlot(t, wanted).value in t.bindings
  {
  }

  /** The row a queue scan returns is the one the specification's claim takes. */
  lemma OldestIsClaimed(t: Tables, s: Id, token: Id)
    requires TaskConstraints(t) && OldestQueued(t, s) && !AnyRunning(t)
    ensures s in t.tasks && s in t.sessions && DoClaimNext(t, token) == Claimed(t, s, token)
  {
    forall x | OldestQueued(t, x) ensures x == s { OldestIsUnique(t, s, x); }
  }

  lemma NothingToClaim(t: Tables, token: Id)
    requires TaskConstraints(t)
    requires AnyRunning(t) || !exists s | s in t.tasks :: t.tasks[s].state == Queued
    ensures DoClaimNext(t, token) == Done(t, NothingQueued)
  {
  }

  class JournalStore {
    // What survives a crash, and the tables of the transaction in progress.
    var disk: Tables
    var sessions: map<Id, SessionRow>
    var bindings: map<int, BindingRow>
    var units: map<Id, UnitKind>
    var artifacts: map<(Id, ArtifactKind), ArtifactIdentity>
    var rooms: map<Room, Id>
    var attempts: map<Id, AttemptRow>
    var queue: map<nat, QueueEntry>
    var queueSeq: nat
    var tasks: map<Id, TaskRow>
    var receipts: map<Id, ReceiptRow>
    var operations: map<Id, OperationRow>

    ghost predicate Valid()
      reads this
    {
      Sound(disk)
    }

    function Working(): Tables
      reads this
    {
      Tables(sessions, bindings, units, artifacts, rooms, attempts, queue, queueSeq, tasks, receipts, operations)
    }

    /** Create a fresh catalog with its two free bindings. */
    constructor Initialize()
      ensures disk == Fresh() && Valid()
    {
      disk := Fresh();
      sessions, bindings, units, artifacts, rooms := map[], map[], map[], map[], map[];
      attempts, queue, queueSeq, tasks, receipts, operations := map[], map[], 0, map[], map[], map[];
      FreshIsSound();
    }

    method LoadClaims()
      modifies this`sessions, this`bindings, this`units, this`artifacts, this`rooms
      ensures sessions == disk.sessions && bindings == disk.bindings && units == disk.units
      ensures artifacts == disk.artifacts && rooms == disk.rooms
    {
      sessions, bindings, units, artifacts, rooms := disk.sessions, disk.bindings, disk.units, disk.artifacts, disk.rooms;
    }

    method LoadWork()
      modifies this`attempts, this`queue, this`queueSeq, this`tasks, this`receipts, this`operations
      ensures attempts == disk.attempts && queue == disk.queue && queueSeq == disk.queueSeq
      ensures tasks == disk.tasks && receipts == disk.receipts && operations == disk.operations
    {
      attempts, queue, queueSeq := disk.attempts, disk.queue, disk.queueSeq;
      tasks, receipts, operations := disk.tasks, disk.receipts, disk.operations;
    }

    /** Begin a transaction: the working tables are the durable ones. */
    method Load()
      modifies this
      ensures disk == old(disk) && Working() == disk
    {
      LoadClaims();
      LoadWork();
    }

    // ------------------------------------------------------- shared statements

    /** Append a queue entry; positions are never reused. */
    method AppendQueueEntry(s: Id, operation: Id) returns (position: nat)
      modifies this`queue, this`queueSeq
      ensures position == old(queueSeq) + 1 && queueSeq == position
      ensures queue == old(queue)[position := QueueEntry(s, operation)]
    {
      queueSeq := queueSeq + 1;
      position := queueSeq;
      queue := queue[position := QueueEntry(s, operation)];
    }

    /** Delete the unit, the artifact claims and the room claims of a settled session. */
    method ReleaseClaims(s: Id)
      modifies this`units, this`artifacts, this`rooms
      ensures units == old(units) - {s} && artifacts == ArtifactsWithout(old(artifacts), s)
      ensures rooms == RoomsWithout(old(rooms), s)
    {
      units := units - {s};
      artifacts := ArtifactsWithout(artifacts, s);
      rooms := RoomsWithout(rooms, s);
    }

    // -------------------------------------------------------- capture actions

    method ReserveNew(intent: SessionIntent, slot: Option<int>) returns (r: ActionResult)
      modifies this
      ensures disk == old(disk) && Performs(JournalSpec.ReserveNew(old(Working()), intent, slot), r, Working())
    {
      hide SessionReceiptValid, AdmissionRefused, OwnershipConflict, FreeSlot;
      FreeSlotMeans(Working(), slot);
      var s := intent.sessionId;
      if s in sessions {
        return Raised(if SessionReceiptValid(Working(), s) then Conflict else Invalid);
      }
      if AdmissionRefused(Working(), intent, intent.expectedRoom, None) { return Raised(Conflict); }
      if |units| >= 8 { return Raised(Conflict); }
      var free := FreeSlot(Working(), slot);
      if free.None? { return Raised(Conflict); }
      r := Accept(intent, free.value);
    }

    method Accept(intent: SessionIntent, slot: int) returns (r: ActionResult)
      requires slot in bindings
      modifies this
      ensures disk == old(disk) && Performs(AcceptedInto(old(Working()), intent, slot), r, Working())
    {
      var s, generation := intent.sessionId, bindings[slot].generation + 1;
      BindSession(intent, slot, generation);
      ClaimPaths(intent);
      if intent.automaticClaim.Some? { receipts := receipts[intent.automaticClaim.value := ReceiptRow(s, intent)]; }
      return Performed(CaptureResult(s, slot, generation, 1));
    }

    method BindSession(intent: SessionIntent, slot: int, generation: nat)
      modifies this`sessions, this`bindings, this`units
      ensures sessions == old(sessions)[intent.sessionId :=
                SessionRow(intent.sessionId, intent, intent.creator, intent.expectedRoom, None, intent.automaticClaim,
                           slot, generation, Phase.Reserved, 1, false, None, None, None)]
      ensures bindings == old(bindings)[slot := BindingRow(generation, Some(intent.sessionId))]
      ensures units == old(units)[intent.sessionId := CaptureUnit]
    {
      var s := intent.sessionId;
      sessions := sessions[s := SessionRow(s, intent, intent.creator, intent.expectedRoom, None, intent.automaticClaim,
                                           slot, generation, Phase.Reserved, 1, false, None, None, None)];
      bindings := bindings[slot := BindingRow(generation, Some(s))];
      units := units[s := CaptureUnit];
    }

    method ClaimPaths(intent: SessionIntent)
      modifies this`artifacts, this`rooms
      ensures artifacts == old(artifacts)[(intent.sessionId, OutputClaim) := intent.output]
                                         [(intent.sessionId, PartsClaim) := intent.parts]
      ensures rooms == if intent.expectedRoom.Some? then old(rooms)[intent.expectedRoom.value := intent.sessionId]
                       else old(rooms)
    {
      artifacts := artifacts[(intent.sessionId, OutputClaim) := intent.output];
      artifacts := artifacts[(intent.sessionId, PartsClaim) := intent.parts];
      if intent.expectedRoom.Some? { rooms := rooms[intent.expectedRoom.value := intent.sessionId]; }
    }

    method Reserve(intent: SessionIntent, slot: Option<int>) returns (r: ActionResult)
      requires SessionConstraints(Working())
      modifies this
      ensures disk == old(disk) && Performs(DoReserve(old(Working()), intent, slot), r, Working())
    {
      if intent.automaticClaim.Some? {
        var claim := intent.automaticClaim.value;
        if exists x | x in sessions :: Claims(Working(), x, claim) {
          var s :| s in sessions && Claims(Working(), s, claim);
          ClaimantIsUnique(Working(), claim, s);
          if !SessionReceiptValid(Working(), s) { return Raised(Invalid); }
          if receipts[claim].intent != intent { return Raised(Conflict); }
          return Performed(CaptureResult(s, sessions[s].originSlot, sessions[s].generation, 1));
        }
        if claim in receipts { return Raised(Invalid); }
      }
      r := ReserveNew(intent, slot);
    }

    method Admit(s: Id, generation: int, revision: int, provenRoom: Room) returns (r: ActionResult)
      modifies this
      ensures disk == old(disk)
      ensures Performs(DoAdmit(old(Working()), s, generation, revision, provenRoom), r, Working())
    {
      if generation <= 0 || revision <= 0 { return Raised(Invalid); }
      if !CaptureGuard(Working(), s, generation, revision) { return Raised(Conflict); }
      var row := sessions[s];
      if row.stop { return Raised(Conflict); }
      if row.phase != Phase.Reserved || (row.intent.expectedRoom.Some? && row.intent.expectedRoom != Some(provenRoom)) {
        return Raised(Conflict);
      }
      if AdmissionRefused(Working(), row.intent, Some(provenRoom), Some(s)) { return Raised(Conflict); }
      if provenRoom !in rooms { rooms := rooms[provenRoom := s]; }
      if row.room.Some? && row.room != Some(provenRoom) { return Raised(Conflict); }
      sessions := sessions[s := row.(room := Some(provenRoom), phase := Capturing, revision := row.revision + 1)];
      return Performed(CaptureResult(s, row.originSlot, row.generation, revision + 1));
    }

    method CaptureIntent(s: Id, generation: int, revision: int, closing: bool, stop: bool, recovery: Option<string>)
      returns (r: ActionResult)
      modifies this
      ensures disk == old(disk)
      ensures Performs(DoCaptureIntent(old(Working()), s, generation, revision, closing, stop, recovery), r, Working())
    {
      if generation <= 0 || revision <= 0 { return Raised(Invalid); }
      if !CaptureGuard(Working(), s, generation, revision) { return Raised(Conflict); }
      var row := sessions[s];
      var phase := if closing then Closing else row.phase;
      var reason := if recovery.Some? then recovery else row.recovery;
      sessions := sessions[s := row.(phase := phase, stop := stop || row.stop, recovery := reason,
                                     revision := row.revision + 1)];
      return Performed(CaptureResult(s, row.originSlot, row.generation, revision + 1));
    }

    method Handoff(operation: Id, s: Id, generation: int, revision: int, seal: ClosureSeal) returns (r: ActionResult)
      modifies this
      ensures disk == old(disk)
      ensures Performs(DoHandoff(old(Working()), operation, s, generation, revision, seal), r, Working())
    {
      hide SealBound, SealInsideParts, CaptureGuard, Unbound;
      if generation <= 0 || revision <= 0 { return Raised(Invalid); }
      if !CaptureGuard(Working(), s, generation, revision) { return Raised(Conflict); }
      GuardedSession(Working(), s, generation, revision);
      var row := sessions[s];
      if row.phase != Closing || row.room.None? || !SealBound(seal, s, generation, row.room, row.intent) {
        return Raised(Invalid);
      }
      if !SealInsideParts(seal, row.intent) { return Raised(Invalid); }
      if row.seal.Some? && (row.seal != Some(seal) || row.sealHash != Some(HashOf(seal))) { return Raised(Conflict); }
      var entry := QueueSealed(operation, s, seal);
      return Performed(HandoffResult(s, row.originSlot, row.generation, revision + 1, 1, HashOf(seal), entry));
    }

    method QueueSealed(operation: Id, s: Id, seal: ClosureSeal) returns (entry: nat)
      requires s in sessions
      modifies this`sessions, this`queue, this`queueSeq, this`tasks, this`units, this`bindings
      ensures entry == old(queueSeq) + 1 && queueSeq == entry && queue == old(queue)[entry := QueueEntry(s, operation)]
      ensures sessions == old(sessions)[s := old(sessions)[s].(phase := QueuedPhase, seal := Some(seal),
                                                               revision := old(sessions)[s].revision + 1,
                                                               sealHash := Some(HashOf(seal)))]
      ensures tasks == old(tasks)[s := TaskRow(Queued, 1, 0, None, None, None, entry)]
      ensures units == old(units)[s := TaskUnit] && bindings == Unbound(old(bindings), s)
    {
      hide Unbound;
      sessions := sessions[s := sessions[s].(phase := QueuedPhase, revision := sessions[s].revision + 1,
                                             seal := Some(seal), sealHash := Some(HashOf(seal)))];
      entry := AppendQueueEntry(s, operation);
      tasks := tasks[s := TaskRow(Queued, 1, 0, None, None, None, entry)];
      units := units[s := TaskUnit];
      bindings := Unbound(bindings, s);
    }

    method SettleReservation(s: Id, generation: int, revision: int) returns (r: ActionResult)
      modifies this
      ensures disk == old(disk)
      ensures Performs(DoSettleReservation(old(Working()), s, generation, revision), r, Working())
    {
      hide CaptureGuard, ArtifactsWithout, RoomsWithout, Unbound;
      if generation <= 0 || revision <= 0 { return Raised(Invalid); }
      if !CaptureGuard(Working(), s, generation, revision) { return Raised(Conflict); }
      GuardedSession(Working(), s, generation, revision);
      var row := sessions[s];
      if row.phase != Phase.Reserved { return Raised(Conflict); }
      sessions := sessions[s := row.(phase := NoAssembly, revision := row.revision + 1)];
      ReleaseClaims(s);
      bindings := Unbound(bindings, s);
      return Performed(CaptureResult(s, row.originSlot, row.generation, revision + 1));
    }

    // ------------------------------------------------------------ task actions

    method ClaimNext(token: Id) returns (r: ActionResult)
      requires TaskConstraints(Working())
      modifies this
      ensures disk == old(disk) && Performs(DoClaimNext(old(Working()), token), r, Working())
    {
      hide TaskConstraints, OldestQueued, TokenTaken, DoClaimNext, AnyRunning;
      if AnyRunning(Working()) {
        NothingToClaim(Working(), token);
        return Performed(NothingQueued);
      }
      if !exists x | x in tasks :: tasks[x].state == Queued {
        NothingToClaim(Working(), token);
        return Performed(NothingQueued);
      }
      OldestExists(Working());
      var s :| s in tasks && OldestQueued(Working(), s);
      OldestIsClaimed(Working(), s, token);
      r := TakeTask(s, token);
    }

    method TakeTask(s: Id, token: Id) returns (r: ActionResult)
      requires s in tasks && s in sessions
      modifies this
      ensures disk == old(disk) && Performs(Claimed(old(Working()), s, token), r, Working())
    {
      hide TokenTaken;
      var row := tasks[s];
      if TokenTaken(Working(), token, s, row.attempt + 1) { return Raised(Conflict); }
      attempts := attempts[token := AttemptRow(s, row.attempt + 1, AttemptRunning, None)];
      tasks := tasks[s := row.(state := Running, revision := row.revision + 1, attempt := row.attempt + 1,
                               token := Some(token), error := None)];
      sessions := sessions[s := sessions[s].(phase := RunningPhase, revision := sessions[s].revision + 1)];
      return Performed(AttemptResult(s, row.revision + 1, row.attempt + 1, token));
    }

    method HoldAttempt(s: Id, revision: int, attempt: int, token: Id, reason: string) returns (r: ActionResult)
      modifies this
      ensures disk == old(disk)
      ensures Performs(DoHoldAttempt(old(Working()), s, revision, attempt, token, reason), r, Working())
    {
      if revision <= 0 || attempt <= 0 { return Raised(Invalid); }
      if !TaskGuard(Working(), s, revision, attempt, token) { return Raised(Conflict); }
      var row := tasks[s];
      if row.state != Running { return Raised(Conflict); }
      tasks := tasks[s := row.(error := Some(reason), revision := row.revision + 1)];
      return Performed(AttemptResult(s, revision + 1, attempt, token));
    }

    method FailTask(s: Id, revision: int, attempt: int, token: Id, exit: ExitProof, reason: string)
      returns (r: ActionResult)
      requires TaskConstraints(Working())
      modifies this
      ensures disk == old(disk)
      ensures Performs(DoFailTask(old(Working()), s, revision, attempt, token, exit, reason), r, Working())
    {
      hide TaskConstraints;
      if revision <= 0 || attempt <= 0 { return Raised(Invalid); }
      if !TaskGuard(Working(), s, revision, attempt, token) { return Raised(Conflict); }
      TaskRowMeans(Working(), s);
      var row := tasks[s];
      if row.state != Running { return Raised(Conflict); }
      tasks := tasks[s := row.(state := Failed, error := Some(reason), proof := Some(Exit(exit)),
                               revision := row.revision + 1)];
      attempts := attempts[token := attempts[token].(state := AttemptFailed, proof := Some(Exit(exit)))];
      sessions := sessions[s := sessions[s].(phase := FailedPhase, revision := sessions[s].revision + 1)];
      return Performed(AttemptResult(s, revision + 1, attempt, token));
    }

    method RetryFailed(operation: Id, s: Id, revision: int, attempt: int, token: Id, exit: ExitProof)
      returns (r: ActionResult)
      requires TaskConstraints(Working())
      modifies this
      ensures disk == old(disk)
      ensures Performs(DoRetryFailed(old(Working()), operation, s, revision, attempt, token, exit), r, Working())
    {
      hide TaskConstraints, TaskGuard;
      GuardedTask(Working(), s, revision, attempt, token);
      if revision <= 0 || attempt <= 0 { return Raised(Invalid); }
      if !TaskGuard(Working(), s, revision, attempt, token) { return Raised(Conflict); }
      TaskRowMeans(Working(), s);
      var row := tasks[s];
      if row.state != Failed || row.proof != Some(Exit(exit)) { return Raised(Conflict); }
      var entry := Requeue(operation, s);
      return Performed(RetryResult(s, revision + 1, attempt, token, entry));
    }

    method Requeue(operation: Id, s: Id) returns (entry: nat)
      requires s in tasks && s in sessions
      modifies this`sessions, this`queue, this`queueSeq, this`tasks
      ensures entry == old(queueSeq) + 1 && queueSeq == entry && queue == old(queue)[entry := QueueEntry(s, operation)]
      ensures tasks == old(tasks)[s := old(tasks)[s].(state := Queued, revision := old(tasks)[s].revision + 1, queueOrder := entry)]
      ensures sessions == old(sessions)[s := old(sessions)[s].(phase := QueuedPhase,
                                                               revision := old(sessions)[s].revision + 1)]
    {
      entry := AppendQueueEntry(s, operation);
      tasks := tasks[s := tasks[s].(state := Queued, revision := tasks[s].revision + 1, queueOrder := entry)];
      sessions := sessions[s := sessions[s].(phase := QueuedPhase, revision := sessions[s].revision + 1)];
    }

    method BlockQueued(s: Id, revision: int, reason: string) returns (r: ActionResult)
      requires TaskConstraints(Working())
      modifies this
      ensures disk == old(disk) && Performs(DoBlockQueued(old(Working()), s, revision, reason), r, Working())
    {
      if s !in tasks || tasks[s].revision != revision || tasks[s].state != Queued { return Raised(Conflict); }
      tasks := tasks[s := tasks[s].(state := Blocked, error := Some(reason), revision := tasks[s].revision + 1)];
      sessions := sessions[s := sessions[s].(phase := BlockedPhase, revision := sessions[s].revision + 1)];
      return Performed(BlockResult(s, revision + 1));
    }

    method SettleTask(s: Id, revision: int, attempt: int, token: Id, settlement: SettlementProof)
      returns (r: ActionResult)
      requires TaskConstraints(Working())
      modifies this
      ensures disk == old(disk)
      ensures Performs(DoSettleTask(old(Working()), s, revision, attempt, token, settlement), r, Working())
    {
      hide TaskConstraints, ArtifactsWithout, RoomsWithout;
      if revision <= 0 || attempt <= 0 { return Raised(Invalid); }
      if !TaskGuard(Working(), s, revision, attempt, token) { return Raised(Conflict); }
      TaskRowMeans(Working(), s);
      var row := tasks[s];
      if row.state != Running { return Raised(Conflict); }
      if Some(settlement.sealHash) != sessions[s].sealHash || settlement.output != sessions[s].intent.output {
        return Raised(Invalid);
      }
      CompleteTask(s, token, settlement);
      return Performed(SettledResult(s, revision + 1, attempt, token));
    }

    method CompleteTask(s: Id, token: Id, settlement: SettlementProof)
      requires s in tasks && s in sessions && token in attempts
      modifies this`tasks, this`attempts, this`sessions, this`units, this`artifacts, this`rooms
      ensures tasks == old(tasks)[s := old(tasks)[s].(state := Completed, proof := Some(Settlement(settlement)),
                                                      revision := old(tasks)[s].revision + 1)]
      ensures attempts == old(attempts)[token := old(attempts)[token].(state := AttemptCompleted,
                                                                       proof := Some(Settlement(settlement)))]
      ensures sessions == old(sessions)[s := old(sessions)[s].(phase := CompletedPhase,
                                                               revision := old(sessions)[s].revision + 1)]
      ensures units == old(units) - {s} && artifacts == ArtifactsWithout(old(artifacts), s)
      ensures rooms == RoomsWithout(old(rooms), s)
    {
      hide ArtifactsWithout, RoomsWithout;
      tasks := tasks[s := tasks[s].(state := Completed, proof := Some(Settlement(settlement)),
                                    revision := tasks[s].revision + 1)];
      attempts := attempts[token := attempts[token].(state := AttemptCompleted, proof := Some(Settlement(settlement)))];
      sessions := sessions[s := sessions[s].(phase := CompletedPhase, revision := sessions[s].revision + 1)];
      ReleaseClaims(s);
    }

    // ------------------------------------------------------------- transaction

    method Perform(operation: Id, request: Request) returns (r: ActionResult)
      requires TaskConstraints(Working()) && SessionConstraints(Working())
      modifies this
      ensures disk == old(disk) && Performs(Act(old(Working()), operation, request), r, Working())
    {
      hide DoReserve, DoAdmit, DoCaptureIntent, DoHandoff, DoSettleReservation, DoClaimNext, DoHoldAttempt,
           DoFailTask, DoRetryFailed, DoBlockQueued, DoSettleTask, TaskConstraints, SessionConstraints, Performs;
      match request {
        case Reserve(intent, slot) => r := Reserve(intent, slot);
        case Admit(s, g, v, room) => r := Admit(s, g, v, room);
        case CaptureIntent(s, g, v, closing, stop, recovery) => r := CaptureIntent(s, g, v, closing, stop, recovery);
        case Handoff(s, g, v, seal) => r := Handoff(operation, s, g, v, seal);
        case SettleReservation(s, g, v, _) => r := SettleReservation(s, g, v);
        case ClaimNext(token) => r := ClaimNext(token);
        case HoldAttempt(s, v, n, token, reason) => r := HoldAttempt(s, v, n, token, reason);
        case FailTask(s, v, n, token, exit, reason) => r := FailTask(s, v, n, token, exit, reason);
        case RetryFailed(s, v, n, token, exit) => r := RetryFailed(operation, s, v, n, token, exit);
        case BlockQueued(s, v, reason) => r := BlockQueued(s, v, reason);
        case SettleTask(s, v, n, token, settlement) => r := SettleTask(s, v, n, token, settlement);
      }
    }

    /** Run one mutation as a short transaction that a fault may interrupt anywhere. */
    method Mutate(call: Call) returns (outcome: Outcome)
      requires Valid()
      modifies this
      ensures Valid()
      ensures TaskConstraints(old(disk)) && (disk, outcome) == Transact(old(disk), call)
    {
      hide Sound, Audit, Act, Performs, TaskConstraints, SessionConstraints, Schema, Provenance;
      SoundMeans(disk);
      SchemaMeans(disk);
      StepSound(disk, call);
      if !ArgumentsAcceptable(call.request) { return Refused(Invalid); }
      Load();
      var o := call.operation;
      outcome := Uncertain;
      if call.fault == FaultAtBegin {
        outcome := Interrupted;
      } else if !Audit(Working()) {
        outcome := RefusalEnds(call.fault, Invalid);
      } else if o in operations {
        var prior := operations[o];
        if prior.request != call.request {
          outcome := RefusalEnds(call.fault, Conflict);
        } else if !ReplayValid(Working(), prior.result) {
          outcome := RefusalEnds(call.fault, Invalid);
        } else {
          outcome := ReplayEnds(call.fault, prior.result);
        }
      } else if call.fault.FaultBeforeCommit? {
        outcome := if call.fault.rollbackFails then Uncertain else Interrupted;
      } else {
        ghost var act := Act(disk, o, call.request);
        var r := Perform(o, call.request);
        PerformsMeans(act, r, Working());
        if r.Raised? {
          outcome := RefusalEnds(call.fault, r.why);
        } else {
          operations := operations[o := OperationRow(call.request, r.result)];
          assert Working() == Record(act.next, o, call.request, r.result);
          if !Audit(Working()) {
            outcome := RefusalEnds(call.fault, Invalid);
          } else if call.fault.FaultInCommit? {
            if call.fault.committed { disk := Working(); }
          } else {
            disk := Working();
            outcome := if call.fault == FaultAfterCommit then Uncertain else Returned(r.result);
          }
        }
      }
      if call.fault == FaultOnClose { outcome := Uncertain; }
    }

    lemma PerformsMeans(spec: Action, r: ActionResult, tables: Tables)
      requires Performs(spec, r, tables)
      ensures spec.Done? ==> r == Performed(spec.result) && tables == spec.next
      ensures spec.Refuse? ==> r == Raised(spec.why)
    {
    }
  }

  /** A store that carries out any calls under any faults holds exactly the catalog those calls reach. */
  method RunCalls(calls: seq<Call>) returns (disk: Tables)
    ensures disk == Reached(calls)
  {
    hide *;
    var store := new JournalStore.Initialize();
    var k := 0;
    ReachedNone(calls);
    while k < |calls|
      invariant 0 <= k <= |calls| && fresh(store) && store.Valid() && store.disk == Reached(calls[..k])
    {
      assert calls[..k + 1] == calls[..k] + [calls[k]];
      RunUnfolds(calls[..k], calls[k]);
      var outcome := store.Mutate(calls[k]);
      k := k + 1;
    }
    assert calls[..k] == calls;
    return store.disk;
  }

  lemma ReachedNone(calls: seq<Call>)
    ensures Reached(calls[..0]) == Fresh()
  {
    hide Sound, TaskConstraints;
    FreshIsSound();
    SoundMeans(Fresh());
    assert calls[..0] == [];
  }
}
