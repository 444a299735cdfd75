/** What a committed call leaves in the rows, and exactly when a call commits: the journal as its callers see it. */
module JournalEffects {
  import opened Wrappers
  import opened JournalTypes
  import opened JournalTables
  import opened JournalSpec
  import opened JournalInvariant
  import opened JournalPreserve
  import opened JournalPreserveTasks
  import opened JournalPreserveReserve
  import opened JournalRuns
  import opened JournalHistory
  import opened JournalGuarantees

  ghost predicate Commits(calls: seq<Call>, call: Call) { Reached(calls + [call]) != Reached(calls) }

  /** A call under a new identity, with acceptable arguments, that no fault disturbs. */
  ghost predicate Quiet(calls: seq<Call>, call: Call) {
    call.operation !in Reached(calls).operations && ArgumentsAcceptable(call.request) && call.fault == NoFault
  }

  ghost predicate Acts(t: Tables, call: Call)
    requires TaskConstraints(t)
  {
    Act(t, call.operation, call.request).Done?
  }

  /** A commit is one action on the catalog; an undisturbed call commits exactly when its action is not refused,
      and its caller learns which. */
  lemma CommitIsAct(calls: seq<Call>, call: Call)
    ensures var t := Reached(calls);
            && Sound(t) && TaskConstraints(t)
            && (Commits(calls, call) ==> Acts(t, call) && Reached(calls + [call]) == After(t, call.operation, call.request))
            && (Quiet(calls, call) ==>
                  && (Commits(calls, call) <==> Acts(t, call))
                  && (Commits(calls, call) ==> Transact(t, call).1 == Returned(Act(t, call.operation, call.request).result))
                  && (!Commits(calls, call) ==> Transact(t, call).1.Refused?))
  {
    hide Reached, Sound, Act, ArgumentsAcceptable, TaskConstraints, Record, Transact, Attempted;
    var t := Reached(calls);
    RunUnfolds(calls, call);
    StepCases(t, call);
    AuditsNeverReject(t, call);
    if Acts(t, call) { RecordsNew(t, call); }
  }

  lemma RecordsNew(t: Tables, call: Call)
    requires TaskConstraints(t) && Acts(t, call)
    ensures call.operation in After(t, call.operation, call.request).operations
  {
    hide Act, TaskConstraints;
  }

  // ------------------------------------------------------------------ capture rows

  /** The session is still capturing under this generation and revision. */
  predicate Bound(t: Tables, s: Id, generation: int, revision: int) {
    && s in t.sessions && t.sessions[s].phase in {Phase.Reserved, Capturing, Closing}
    && t.sessions[s].generation == generation && t.sessions[s].revision == revision
  }

  lemma GuardIsBound(t: Tables, s: Id, generation: int, revision: int)
    requires Sound(t)
    ensures CaptureGuard(t, s, generation, revision) <==> Bound(t, s, generation, revision)
    ensures Bound(t, s, generation, revision) ==> generation > 0 && revision > 0
  {
    hide Sound, Schema, Audit, SessionConstraints, BindingConstraints, CaptureGuard, UnitValid;
    SoundMeans(t);
    SchemaMeans(t);
    if CaptureGuard(t, s, generation, revision) {
      CaptureGuardMeans(t, s, generation, revision);
      UnitMeans(t, s);
      GuardNames(t, s, generation, revision);
    }
    if Bound(t, s, generation, revision) {
      CapturingIsBound(t, s);
      GuardFrom(t, s, generation, revision);
      PositiveRow(t, s);
    }
  }

  lemma GuardNames(t: Tables, s: Id, generation: int, revision: int)
    requires CaptureGuard(t, s, generation, revision) && s in t.sessions && CaptureValid(t, s)
    ensures t.sessions[s].phase in {Phase.Reserved, Capturing, Closing} && t.sessions[s].revision == revision
  {
  }

  lemma PositiveRow(t: Tables, s: Id)
    requires SessionConstraints(t) && s in t.sessions
    ensures t.sessions[s].generation > 0 && t.sessions[s].revision > 0 && t.sessions[s].id == s
  {
  }

  lemma CapturingIsBound(t: Tables, s: Id)
    requires Schema(t) && Audit(t) && s in t.sessions && t.sessions[s].phase in {Phase.Reserved, Capturing, Closing}
    ensures CaptureValid(t, s) && s in t.units && t.units[s] == CaptureUnit
  {
    hide Schema, CaptureValid, OwnershipValid, RoomsValid, QueuePlaceValid;
    assert s in t.units && UnitValid(t, s);
  }

  lemma GuardFrom(t: Tables, s: Id, generation: int, revision: int)
    requires s in t.sessions && CaptureValid(t, s)
    requires t.sessions[s].generation == generation && t.sessions[s].revision == revision
    ensures CaptureGuard(t, s, generation, revision)
  {
    assert BoundAt(t, t.sessions[s].originSlot, s);
  }

  // --------------------------------------------------------- intent to close or stop

  /** Exactly what was asked for is written, in this session's row and nowhere else. */
  predicate IntentWritten(t: Tables, u: Tables, req: Request)
    requires req.CaptureIntent?
  {
    && req.sid in t.sessions && req.sid in u.sessions
    && var a, b := t.sessions[req.sid], u.sessions[req.sid];
    && (req.stop ==> b.stop) && (!req.stop ==> b.stop == a.stop)
    && (req.closing ==> b.phase == Closing) && (!req.closing ==> b.phase == a.phase)
    && (req.recovery.Some? ==> b.recovery == req.recovery) && (req.recovery.None? ==> b.recovery == a.recovery)
    && b == a.(stop := b.stop, phase := b.phase, recovery := b.recovery, revision := a.revision + 1)
    && u == t.(sessions := t.sessions[req.sid := b], operations := u.operations)
  }

  lemma IntentActs(t: Tables, call: Call)
    requires TaskConstraints(t) && call.request.CaptureIntent?
    ensures var req := call.request;
            && (Acts(t, call) ==> IntentWritten(t, After(t, call.operation, req), req))
            && (Acts(t, call) <==> req.generation > 0 && req.revision > 0 && CaptureGuard(t, req.sid, req.generation, req.revision))
  {
    hide CaptureGuard, TaskConstraints;
    if CaptureGuard(t, call.request.sid, call.request.generation, call.request.revision) {
      GuardedRow(t, call.request.sid, call.request.generation, call.request.revision);
    }
  }

  lemma GuardedRow(t: Tables, s: Id, generation: int, revision: int)
    requires CaptureGuard(t, s, generation, revision)
    ensures s in t.sessions && t.sessions[s].revision == revision
  {
  }

  /** A committed intent is written as asked; undisturbed, it commits exactly while the session is bound. */
  lemma IntentIsWritten(calls: seq<Call>, call: Call)
    requires call.request.CaptureIntent?
    ensures var t, u, req := Reached(calls), Reached(calls + [call]), call.request;
            && (Commits(calls, call) ==> IntentWritten(t, u, req))
            && (Quiet(calls, call) ==> (Commits(calls, call) <==> Bound(t, req.sid, req.generation, req.revision)))
  {
    hide *;
    CommitIsAct(calls, call);
    IntentActs(Reached(calls), call);
    GuardIsBound(Reached(calls), call.request.sid, call.request.generation, call.request.revision);
  }

  /** Once a stop is recorded, no admission of that session ever changes anything again. */
  lemma StoppedIsNeverAdmitted(calls: seq<Call>, more: seq<Call>, call: Call)
    requires call.request.Admit? && call.request.sid in Reached(calls).sessions && Reached(calls).sessions[call.request.sid].stop
    ensures !Commits(calls + more, call)
  {
    hide *;
    HistoryIsPermanent(calls, more);
    GrowsMeans(Reached(calls), Reached(calls + more));
    CommitIsAct(calls + more, call);
    StopStays(Reached(calls), Reached(calls + more), call.request.sid);
    AdmitActs(Reached(calls + more), call);
  }

  lemma StopStays(t: Tables, u: Tables, s: Id)
    requires s in t.sessions && s in u.sessions && RowGrows(t.sessions[s], u.sessions[s]) && t.sessions[s].stop
    ensures u.sessions[s].stop
  {
  }

  /** So a committed request to stop keeps a reservation from ever recording. */
  lemma StopIsHonoured(calls: seq<Call>, stop: Call, more: seq<Call>, admit: Call)
    requires stop.request.CaptureIntent? && stop.request.stop && Commits(calls, stop)
    requires admit.request.Admit? && admit.request.sid == stop.request.sid
    ensures !Commits(calls + [stop] + more, admit)
  {
    hide Reached, Commits;
    IntentIsWritten(calls, stop);
    StoppedIsNeverAdmitted(calls + [stop], more, admit);
  }

  // -------------------------------------------------------------------- admission

  predicate InsideEither(a: PathRecord, b: PathRecord) {
    a.volume == b.volume && (a.components <= b.components || b.components <= a.components)
  }

  /** What a capture in this room would share with an outstanding session: its room, its creator while either room
      is unknown or both are captures, or any of its paths. */
  predicate Rivals(intent: SessionIntent, room: Option<Room>, row: SessionRow, kind: UnitKind) {
    var known := if row.room.Some? then row.room else row.expectedRoom;
    || (room.Some? && room == known)
    || (intent.creator == row.intent.creator && (kind == CaptureUnit || room.None? || known.None?))
    || InsideEither(intent.output, row.intent.output) || InsideEither(intent.output, row.intent.parts)
    || InsideEither(intent.parts, row.intent.output) || InsideEither(intent.parts, row.intent.parts)
  }

  /** No owner of any other unit stands in the way of this one. */
  predicate NoRival(t: Tables, intent: SessionIntent, room: Option<Room>, self: Option<Id>) {
    forall x | x in t.units && x in t.sessions && Some(x) != self :: !Rivals(intent, room, t.sessions[x], t.units[x])
  }

  /** The proven room is recorded for this session, which is capturing now. */
  predicate Admitted(t: Tables, u: Tables, req: Request)
    requires req.Admit?
  {
    && req.sid in t.sessions && req.sid in u.sessions
    && var a, b := t.sessions[req.sid], u.sessions[req.sid];
    && b == a.(room := Some(req.provenRoom), phase := Capturing, revision := a.revision + 1)
    && req.provenRoom in u.rooms && (req.provenRoom !in t.rooms ==> u.rooms == t.rooms[req.provenRoom := req.sid])
    && (req.provenRoom in t.rooms ==> u.rooms == t.rooms)
    && u == t.(sessions := t.sessions[req.sid := b], rooms := u.rooms, operations := u.operations)
  }

  predicate MayAdmit(t: Tables, req: Request)
    requires req.Admit?
  {
    && req.sid in t.sessions
    && var a := t.sessions[req.sid];
    && a.phase == Phase.Reserved && !a.stop
    && (a.intent.expectedRoom.Some? ==> a.intent.expectedRoom == Some(req.provenRoom))
    && (a.room.Some? ==> a.room == Some(req.provenRoom))
    && NoRival(t, a.intent, Some(req.provenRoom), Some(req.sid))
  }

  lemma NoRivalIsFree(t: Tables, intent: SessionIntent, room: Option<Room>, self: Option<Id>)
    ensures NoRival(t, intent, room, self) <==> !AdmissionRefused(t, intent, room, self)
  {
    hide OwnershipConflict, Rivals;
    forall x | x in t.units && x in t.sessions
      ensures Rivals(intent, room, t.sessions[x], t.units[x]) <==>
              OwnershipConflict(Owner(intent, room, CaptureUnit), OwnerOf(t, x))
    {
      RivalsConflict(t, intent, room, x);
    }
  }

  lemma RivalsConflict(t: Tables, intent: SessionIntent, room: Option<Room>, x: Id)
    requires x in t.units && x in t.sessions
    ensures Rivals(intent, room, t.sessions[x], t.units[x]) <==>
            OwnershipConflict(Owner(intent, room, CaptureUnit), OwnerOf(t, x))
  {
    var row := t.sessions[x];
    OverlapsIsContainment(intent.output, row.intent.output);
    OverlapsIsContainment(intent.output, row.intent.parts);
    OverlapsIsContainment(intent.parts, row.intent.output);
    OverlapsIsContainment(intent.parts, row.intent.parts);
  }

  lemma AdmitActs(t: Tables, call: Call)
    requires TaskConstraints(t) && call.request.Admit?
    ensures var req := call.request;
            && (Acts(t, call) ==> Admitted(t, After(t, call.operation, req), req) && !t.sessions[req.sid].stop)
            && (Acts(t, call) <==> req.generation > 0 && req.revision > 0
                                   && CaptureGuard(t, req.sid, req.generation, req.revision) && MayAdmit(t, req))
  {
    hide CaptureGuard, TaskConstraints, AdmissionRefused, NoRival;
    var req := call.request;
    if CaptureGuard(t, req.sid, req.generation, req.revision) {
      GuardedRow(t, req.sid, req.generation, req.revision);
      NoRivalIsFree(t, t.sessions[req.sid].intent, Some(req.provenRoom), Some(req.sid));
    }
  }

  /** A committed admission records the proven room; undisturbed, a bound reservation is admitted exactly when it
      was not stopped, the room is the expected one, and no other owner conflicts. */
  lemma AdmissionIsWritten(calls: seq<Call>, call: Call)
    requires call.request.Admit?
    ensures var t, u, req := Reached(calls), Reached(calls + [call]), call.request;
            && (Commits(calls, call) ==> Admitted(t, u, req) && u.rooms[req.provenRoom] == req.sid)
            && (Quiet(calls, call) ==>
                  (Commits(calls, call) <==> Bound(t, req.sid, req.generation, req.revision) && MayAdmit(t, req)))
  {
    hide *;
    CommitIsAct(calls, call);
    AdmitActs(Reached(calls), call);
    GuardIsBound(Reached(calls), call.request.sid, call.request.generation, call.request.revision);
    if Commits(calls, call) {
      CommitIsAct(calls + [call], call);
      RoomIsOwn(Reached(calls), Reached(calls + [call]), call.request);
    }
  }

  lemma RoomIsOwn(t: Tables, u: Tables, req: Request)
    requires req.Admit? && Sound(u) && Admitted(t, u, req)
    ensures u.rooms[req.provenRoom] == req.sid
  {
    hide Sound, Schema, Audit;
    SoundMeans(u);
    CapturingIsBound(u, req.sid);
    UnitMeans(u, req.sid);
  }

  // ------------------------------------------------------------------ acceptance

  /** The rows of a new session: all from its intent, in a slot that was free. */
  ghost predicate AcceptedAs(t: Tables, u: Tables, req: Request, slot: int)
    requires req.Reserve?
  {
    var s, intent := req.intent.sessionId, req.intent;
    && s !in t.sessions && s in u.sessions && slot in {1, 2} && slot in t.bindings && t.bindings[slot].session.None?
    && (req.slot.Some? ==> req.slot == Some(slot))
    && (req.slot.None? && slot == 2 ==> !SlotIsFree(t, 1))
    && var b := u.sessions[s];
    && b.id == s && b.intent == intent && b.creator == intent.creator && b.expectedRoom == intent.expectedRoom && b.room.None?
    && b.automaticClaim == intent.automaticClaim && b.originSlot == slot && b.generation == t.bindings[slot].generation + 1
    && b.phase == Phase.Reserved && b.revision == 1 && !b.stop && b.recovery.None? && b.seal.None? && b.sealHash.None?
    && u.sessions == t.sessions[s := b] && u.bindings == t.bindings[slot := BindingRow(b.generation, Some(s))]
    && u.units == t.units[s := CaptureUnit]
    && (s, OutputClaim) in u.artifacts && u.artifacts[(s, OutputClaim)] == intent.output
    && (s, PartsClaim) in u.artifacts && u.artifacts[(s, PartsClaim)] == intent.parts
    && (forall k | k in u.artifacts && k.0 != s :: k in t.artifacts && u.artifacts[k] == t.artifacts[k])
    && (forall k | k in t.artifacts && k.0 != s :: k in u.artifacts)
    && (intent.expectedRoom.Some? ==> u.rooms == t.rooms[intent.expectedRoom.value := s]) && (intent.expectedRoom.None? ==> u.rooms == t.rooms)
    && (intent.automaticClaim.Some? ==> u.receipts == t.receipts[intent.automaticClaim.value := ReceiptRow(s, intent)])
    && (intent.automaticClaim.None? ==> u.receipts == t.receipts)
    && u == t.(sessions := u.sessions, bindings := u.bindings, units := u.units, artifacts := u.artifacts, rooms := u.rooms,
               receipts := u.receipts, operations := u.operations)
  }

  predicate SlotIsFree(t: Tables, slot: int) { slot in t.bindings && t.bindings[slot].session.None? }

  /** What stands in the way of a new session, if anything. */
  predicate MayReserve(t: Tables, req: Request)
    requires req.Reserve?
  {
    && req.intent.sessionId !in t.sessions && |t.units| < 8 && NoRival(t, req.intent, req.intent.expectedRoom, None)
    && (if req.slot.Some? then SlotIsFree(t, req.slot.value) else SlotIsFree(t, 1) || SlotIsFree(t, 2))
  }

  lemma FreeSlotIs(t: Tables, slot: Option<int>)
    requires slot.None? || slot.value in {1, 2}
    ensures var free := FreeSlot(t, slot);
            && (free.Some? <==> if slot.Some? then SlotIsFree(t, slot.value) else SlotIsFree(t, 1) || SlotIsFree(t, 2))
            && (free.Some? ==> free.value in {1, 2} && SlotIsFree(t, free.value) && (slot.Some? ==> slot == free)
                               && (slot.None? && free.value == 2 ==> !SlotIsFree(t, 1)))
  {
  }

  lemma AcceptedRowsAre(t: Tables, req: Request, slot: int, o: Id)
    requires req.Reserve? && req.intent.sessionId !in t.sessions && slot in {1, 2} && SlotIsFree(t, slot)
    requires (req.slot.Some? ==> req.slot == Some(slot)) && (req.slot.None? && slot == 2 ==> !SlotIsFree(t, 1))
    ensures var act := AcceptedInto(t, req.intent, slot);
            act.Done? && AcceptedAs(t, Record(act.next, o, req, act.result), req, slot)
            && act.result == CaptureResult(req.intent.sessionId, slot, t.bindings[slot].generation + 1, 1)
  {
  }

  lemma ReserveNewActs(t: Tables, intent: SessionIntent, slot: Option<int>, o: Id)
    requires slot.None? || slot.value in {1, 2}
    ensures var req, act := Reserve(intent, slot), ReserveNew(t, intent, slot);
            && (act.Done? <==> MayReserve(t, req))
            && (act.Done? ==> act.result.CaptureResult? && act.result.session == intent.sessionId && act.result.revision == 1)
            && (act.Done? ==> act.result.slot in t.bindings && act.result.generation == t.bindings[act.result.slot].generation + 1)
            && (act.Done? ==> AcceptedAs(t, Record(act.next, o, req, act.result), req, act.result.slot))
  {
    hide AdmissionRefused, NoRival, SessionReceiptValid, FreeSlot, AcceptedInto, AcceptedAs, Record, SlotIsFree;
    NoRivalIsFree(t, intent, intent.expectedRoom, None);
    FreeSlotIs(t, slot);
    if MayReserve(t, Reserve(intent, slot)) { AcceptedRowsAre(t, Reserve(intent, slot), FreeSlot(t, slot).value, o); }
  }

  /** An acceptance without an automatic claim, or under a claim never seen, makes a new session; one under a claim
      seen before repeats the acceptance it got then. */
  lemma ReserveActs(t: Tables, call: Call)
    requires Sound(t) && TaskConstraints(t) && call.request.Reserve? && ArgumentsAcceptable(call.request)
    ensures var req := call.request;
            var claim := req.intent.automaticClaim;
            var act, u := Act(t, call.operation, req), if Acts(t, call) then After(t, call.operation, req) else t;
            if claim.Some? && claim.value in t.receipts then
              var first := t.receipts[claim.value];
              && first.session in t.sessions && (Acts(t, call) <==> first.intent == req.intent)
              && (Acts(t, call) ==> u == t.(operations := u.operations))
              && (Acts(t, call) ==> act.result == CaptureResult(first.session, t.sessions[first.session].originSlot, t.sessions[first.session].generation, 1))
            else
              && (Acts(t, call) <==> MayReserve(t, req))
              && (Acts(t, call) ==> act.result.CaptureResult? && AcceptedAs(t, u, req, act.result.slot))
              && (Acts(t, call) ==> act.result == CaptureResult(req.intent.sessionId, act.result.slot, t.bindings[act.result.slot].generation + 1, 1))
  {
    hide Sound, MayReserve, AcceptedAs, ReserveNew, Claimant, TaskConstraints, SessionReceiptValid, Record;
    var req := call.request;
    var claim := req.intent.automaticClaim;
    if claim.Some? && claim.value in t.receipts {
      ReserveReplays(t, call.operation, req.intent, req.slot);
      ReplayedRecord(t, call);
    } else {
      if claim.Some? { UnknownClaim(t, claim.value); }
      ReserveNewActs(t, req.intent, req.slot, call.operation);
    }
  }

  lemma ReplayedRecord(t: Tables, call: Call)
    requires TaskConstraints(t) && Acts(t, call) ==> Act(t, call.operation, call.request).next == t
    requires TaskConstraints(t)
    ensures Acts(t, call) ==> After(t, call.operation, call.request) == t.(operations := After(t, call.operation, call.request).operations)
  {
    hide Act, TaskConstraints;
  }

  lemma ClaimIsReceipted(t: Tables, x: Id, claim: Id)
    requires Sound(t) && Claims(t, x, claim)
    ensures claim in t.receipts
  {
    assert SessionReceiptValid(t, x);
  }

  lemma UnknownClaim(t: Tables, claim: Id)
    requires Sound(t) && claim !in t.receipts
    ensures Claimant(t, claim).None?
  {
    hide Sound, Claims;
    forall x | Claims(t, x, claim) ensures false { ClaimIsReceipted(t, x, claim); }
  }

  lemma ReservationIsWritten(calls: seq<Call>, call: Call)
    requires call.request.Reserve?
    ensures var t, u, req := Reached(calls), Reached(calls + [call]), call.request;
            var claim := req.intent.automaticClaim;
            if claim.Some? && claim.value in t.receipts then
              && (Commits(calls, call) ==> u == t.(operations := u.operations))
              && (Quiet(calls, call) ==> (Commits(calls, call) <==> t.receipts[claim.value].intent == req.intent))
            else
              && (Commits(calls, call) ==> exists slot :: AcceptedAs(t, u, req, slot))
              && (Quiet(calls, call) ==> (Commits(calls, call) <==> MayReserve(t, req)))
  {
    hide *;
    CommitIsAct(calls, call);
    CommitIsAcceptable(calls, call);
    if Commits(calls, call) || Quiet(calls, call) {
      QuietIsAcceptable(calls, call);
      ReserveActs(Reached(calls), call);
    }
  }

  lemma QuietIsAcceptable(calls: seq<Call>, call: Call)
    ensures Quiet(calls, call) ==> ArgumentsAcceptable(call.request)
  {
    hide Reached, ArgumentsAcceptable;
  }

  lemma CommitIsAcceptable(calls: seq<Call>, call: Call)
    ensures Commits(calls, call) ==> ArgumentsAcceptable(call.request)
  {
    hide Reached, Sound, Act, ArgumentsAcceptable, TaskConstraints, Record, Transact, After;
    RunUnfolds(calls, call);
    StepCases(Reached(calls), call);
  }

  // --------------------------------------------------------------------- handoff

  /** Nothing of a session is bound to a slot any more; every other binding stays. */
  predicate SlotFreed(t: Tables, u: Tables, s: Id) {
    && u.bindings.Keys == t.bindings.Keys
    && forall i | i in t.bindings :: u.bindings[i] == if t.bindings[i].session == Some(s) then BindingRow(t.bindings[i].generation, None) else t.bindings[i]
  }

  /** Every claim of the session is released, and no other. */
  ghost predicate Released(t: Tables, u: Tables, s: Id) {
    && u.units == t.units - {s}
    && (forall k :: k in u.artifacts <==> k in t.artifacts && k.0 != s) && (forall k | k in u.artifacts :: u.artifacts[k] == t.artifacts[k])
    && (forall r :: r in u.rooms <==> r in t.rooms && t.rooms[r] != s) && (forall r | r in u.rooms :: u.rooms[r] == t.rooms[r])
  }

  /** A new queue entry of the session, behind all others. */
  predicate QueuedLast(t: Tables, u: Tables, s: Id, operation: Id) {
    && u.queueSeq == t.queueSeq + 1 && u.queueSeq in u.queue && u.queue == t.queue[u.queueSeq := QueueEntry(s, operation)]
    && s in u.tasks && u.tasks[s].state == Queued && u.tasks[s].queueOrder == u.queueSeq
  }

  /** The seal is kept, the session waits for its first finalizer attempt, and its slot is free. */
  predicate HandedOff(t: Tables, u: Tables, call: Call)
    requires call.request.Handoff?
  {
    var req := call.request;
    && req.sid in t.sessions && req.sid in u.sessions
    && var a, b := t.sessions[req.sid], u.sessions[req.sid];
    && a.phase == Closing
    && b == a.(seal := Some(req.seal), sealHash := Some(HashOf(req.seal)), phase := QueuedPhase, revision := a.revision + 1)
    && QueuedLast(t, u, req.sid, call.operation) && SlotFreed(t, u, req.sid)
    && u.tasks == t.tasks[req.sid := TaskRow(Queued, 1, 0, None, None, None, u.queueSeq)]
    && u.units == t.units[req.sid := TaskUnit]
    && u == t.(sessions := t.sessions[req.sid := b], queue := u.queue, queueSeq := u.queueSeq, tasks := u.tasks, units := u.units,
               bindings := u.bindings, operations := u.operations)
  }

  /** The seal must be of this session, generation and room, hold only artifacts inside the session's parts, and
      end no earlier than the session started. */
  predicate MayHandOff(t: Tables, req: Request)
    requires req.Handoff?
  {
    && req.sid in t.sessions
    && var a := t.sessions[req.sid];
    && a.phase == Closing && a.room == Some(req.seal.room) && req.seal.sessionId == req.sid && req.seal.generation == req.generation
    && req.seal.rawCopy == a.intent.rawCopy && a.intent.startedAt <= req.seal.endedAt
    && (forall x | x in req.seal.artifacts :: a.intent.parts.Contains(x.identity) && x.identity != a.intent.parts)
    && (a.seal.Some? ==> a.seal == Some(req.seal) && a.sealHash == Some(HashOf(req.seal)))
  }

  lemma HandoffActs(t: Tables, call: Call)
    requires TaskConstraints(t) && call.request.Handoff?
    ensures var req := call.request;
            && (Acts(t, call) ==> HandedOff(t, After(t, call.operation, req), call))
            && (Acts(t, call) <==> req.generation > 0 && req.revision > 0
                                   && CaptureGuard(t, req.sid, req.generation, req.revision) && MayHandOff(t, req))
  {
    hide CaptureGuard, TaskConstraints, HandedOff, Unbound, Record;
    var req := call.request;
    if CaptureGuard(t, req.sid, req.generation, req.revision) {
      GuardedRow(t, req.sid, req.generation, req.revision);
      if req.generation > 0 && req.revision > 0 && MayHandOff(t, req) { SealedRows(t, call); }
    }
  }

  lemma SealedRows(t: Tables, call: Call)
    requires call.request.Handoff? && call.request.generation > 0 && call.request.revision > 0
    requires CaptureGuard(t, call.request.sid, call.request.generation, call.request.revision) && MayHandOff(t, call.request)
    ensures var req := call.request;
            var act := DoHandoff(t, call.operation, req.sid, req.generation, req.revision, req.seal);
            act.Done? && HandedOff(t, Record(act.next, call.operation, req, act.result), call)
  {
    hide CaptureGuard, SlotFreed, Unbound;
    var req := call.request;
    var act := DoHandoff(t, call.operation, req.sid, req.generation, req.revision, req.seal);
    GuardedRow(t, req.sid, req.generation, req.revision);
    UnboundFrees(t, Record(act.next, call.operation, req, act.result), req.sid);
  }

  lemma UnboundFrees(t: Tables, u: Tables, s: Id)
    requires u.bindings == Unbound(t.bindings, s)
    ensures SlotFreed(t, u, s)
  {
  }

  lemma HandoffIsWritten(calls: seq<Call>, call: Call)
    requires call.request.Handoff?
    ensures var t, u, req := Reached(calls), Reached(calls + [call]), call.request;
            && (Commits(calls, call) ==> HandedOff(t, u, call))
            && (Quiet(calls, call) ==>
                  (Commits(calls, call) <==> Bound(t, req.sid, req.generation, req.revision) && MayHandOff(t, req)))
  {
    hide *;
    CommitIsAct(calls, call);
    HandoffActs(Reached(calls), call);
    GuardIsBound(Reached(calls), call.request.sid, call.request.generation, call.request.revision);
  }

  // ---------------------------------------------------------- abandoned reservations

  ghost predicate Abandoned(t: Tables, u: Tables, req: Request)
    requires req.SettleReservation?
  {
    && req.sid in t.sessions && req.sid in u.sessions
    && var a, b := t.sessions[req.sid], u.sessions[req.sid];
    && b == a.(phase := NoAssembly, revision := a.revision + 1) && Released(t, u, req.sid) && SlotFreed(t, u, req.sid)
    && u == t.(sessions := t.sessions[req.sid := b], units := u.units, artifacts := u.artifacts, rooms := u.rooms,
               bindings := u.bindings, operations := u.operations)
  }

  lemma SettleReservationActs(t: Tables, call: Call)
    requires TaskConstraints(t) && call.request.SettleReservation?
    ensures var req := call.request;
            && (Acts(t, call) ==> Abandoned(t, After(t, call.operation, req), req))
            && (Acts(t, call) <==> req.generation > 0 && req.revision > 0
                                   && CaptureGuard(t, req.sid, req.generation, req.revision) && t.sessions[req.sid].phase == Phase.Reserved)
  {
    hide CaptureGuard, TaskConstraints, SlotFreed;
    var req := call.request;
    if CaptureGuard(t, req.sid, req.generation, req.revision) {
      GuardedRow(t, req.sid, req.generation, req.revision);
      if Acts(t, call) { UnboundFrees(t, After(t, call.operation, req), req.sid); }
    }
  }

  /** A reservation is abandoned only before anything was recorded for it, and gives back all it held. */
  lemma AbandonmentIsWritten(calls: seq<Call>, call: Call)
    requires call.request.SettleReservation?
    ensures var t, u, req := Reached(calls), Reached(calls + [call]), call.request;
            && (Commits(calls, call) ==> Abandoned(t, u, req))
            && (Quiet(calls, call) ==>
                  (Commits(calls, call) <==>
                     Bound(t, req.sid, req.generation, req.revision) && t.sessions[req.sid].phase == Phase.Reserved))
  {
    hide *;
    CommitIsAct(calls, call);
    SettleReservationActs(Reached(calls), call);
    GuardIsBound(Reached(calls), call.request.sid, call.request.generation, call.request.revision);
  }

  // ------------------------------------------------------------------- task rows

  /** The task is at this revision, attempt and token. */
  predicate TaskAt(t: Tables, s: Id, revision: int, attempt: int, token: Id, state: TaskState) {
    && s in t.tasks && t.tasks[s].revision == revision && t.tasks[s].attempt == attempt && t.tasks[s].token == Some(token)
    && t.tasks[s].state == state && revision > 0 && attempt > 0
  }

  /** Only this session's row and task change; the session only by phase. */
  predicate TaskMoved(t: Tables, u: Tables, s: Id, b: TaskRow, phase: Phase) {
    && s in t.tasks && s in t.sessions
    && u.tasks == t.tasks[s := b.(revision := t.tasks[s].revision + 1)]
    && u.sessions == t.sessions[s := t.sessions[s].(phase := phase, revision := t.sessions[s].revision + 1)]
  }

  /** A finalizer takes the longest queued task under a fresh token, as that task's next attempt. */
  predicate Started(t: Tables, u: Tables, s: Id, token: Id) {
    && s in t.tasks && t.tasks[s].state == Queued && token !in t.attempts
    && (forall x | x in t.tasks && t.tasks[x].state == Queued :: t.tasks[s].queueOrder <= t.tasks[x].queueOrder)
    && (forall x | x in t.tasks :: t.tasks[x].state != Running)
    && u.attempts == t.attempts[token := AttemptRow(s, t.tasks[s].attempt + 1, AttemptRunning, None)]
    && TaskMoved(t, u, s, t.tasks[s].(state := Running, attempt := t.tasks[s].attempt + 1, token := Some(token), error := None), RunningPhase)
    && u == t.(sessions := u.sessions, tasks := u.tasks, attempts := u.attempts, operations := u.operations)
  }

  ghost predicate NothingToDo(t: Tables) {
    (exists x | x in t.tasks :: t.tasks[x].state == Running) || (forall x | x in t.tasks :: t.tasks[x].state != Queued)
  }

  lemma ClaimActs(t: Tables, call: Call)
    requires TaskConstraints(t) && call.request.ClaimNext?
    ensures var u := if Acts(t, call) then After(t, call.operation, call.request) else t;
            && (NothingToDo(t) ==> Acts(t, call) && u == t.(operations := u.operations))
            && (!NothingToDo(t) && Acts(t, call) ==> exists s :: Started(t, u, s, call.request.token))
  {
    hide NothingToDo, AnyRunning, TokenTaken, Started, TaskConstraints;
    OldestIsLongest(t);
    TaskSessions(t);
    if !NothingToDo(t) && Acts(t, call) {
      var s :| OldestQueued(t, s) && s in t.tasks && s in t.sessions && Act(t, call.operation, call.request) == Claimed(t, s, call.request.token);
      LongestStarts(t, s, call);
    }
  }

  lemma TaskSessions(t: Tables)
    requires TaskConstraints(t)
    ensures t.tasks.Keys <= t.sessions.Keys
  {
  }

  lemma LongestStarts(t: Tables, s: Id, call: Call)
    requires call.request.ClaimNext? && t.tasks.Keys <= t.sessions.Keys && OldestQueued(t, s) && !NothingToDo(t)
    requires Claimed(t, s, call.request.token).Done?
    ensures var act := Claimed(t, s, call.request.token);
            Started(t, Record(act.next, call.operation, call.request, act.result), s, call.request.token)
  {
  }

  lemma {:induction false} LongestQueued(tasks: map<Id, TaskRow>, among: set<Id>) returns (s: Id)
    requires among != {} && forall x | x in among :: x in tasks
    ensures s in among && forall x | x in among :: tasks[s].queueOrder <= tasks[x].queueOrder
    decreases |among|
  {
    var y :| y in among;
    if among == {y} {
      s := y;
    } else {
      assert among - {y} != {};
      var z := LongestQueued(tasks, among - {y});
      s := if tasks[y].queueOrder <= tasks[z].queueOrder then y else z;
    }
  }

  lemma OldestIsLongest(t: Tables)
    ensures NothingToDo(t) <==> AnyRunning(t) || !exists s :: OldestQueued(t, s)
  {
    var among := set x | x in t.tasks && t.tasks[x].state == Queued;
    assert forall x :: x in among <==> x in t.tasks && t.tasks[x].state == Queued;
    if among != {} {
      var s := LongestQueued(t.tasks, among);
      assert OldestQueued(t, s);
    }
  }

  lemma ClaimIsWritten(calls: seq<Call>, call: Call)
    requires call.request.ClaimNext?
    ensures var t, u := Reached(calls), Reached(calls + [call]);
            && (Commits(calls, call) && NothingToDo(t) ==> u == t.(operations := u.operations))
            && (Commits(calls, call) && !NothingToDo(t) ==> exists s :: Started(t, u, s, call.request.token))
            && (Quiet(calls, call) && NothingToDo(t) ==> Commits(calls, call))
  {
    hide *;
    CommitIsAct(calls, call);
    ClaimActs(Reached(calls), call);
  }

  /** Why an attempt is held is kept with its task; nothing else moves. */
  predicate HeldFor(t: Tables, u: Tables, req: Request)
    requires req.HoldAttempt?
  {
    && req.sid in t.tasks && req.sid in u.tasks
    && var a, b := t.tasks[req.sid], u.tasks[req.sid];
    && b == a.(error := Some(req.reason), revision := a.revision + 1)
    && u == t.(tasks := t.tasks[req.sid := b], operations := u.operations)
  }

  /** The attempt and its task fail with the proof that its process is gone. */
  predicate FailedWith(t: Tables, u: Tables, req: Request)
    requires req.FailTask?
  {
    && req.sid in t.tasks && req.token in t.attempts
    && u.attempts == t.attempts[req.token := t.attempts[req.token].(state := AttemptFailed, proof := Some(Exit(req.exit)))]
    && TaskMoved(t, u, req.sid, t.tasks[req.sid].(state := Failed, error := Some(req.reason), proof := Some(Exit(req.exit))), FailedPhase)
    && u == t.(sessions := u.sessions, tasks := u.tasks, attempts := u.attempts, operations := u.operations)
  }

  /** A failed task waits again, behind every other, with its attempt, its error and its proof as they are. */
  predicate Requeued(t: Tables, u: Tables, call: Call)
    requires call.request.RetryFailed?
  {
    var s := call.request.sid;
    && s in t.tasks && QueuedLast(t, u, s, call.operation)
    && TaskMoved(t, u, s, t.tasks[s].(state := Queued, queueOrder := u.queueSeq), QueuedPhase)
    && u == t.(sessions := u.sessions, tasks := u.tasks, queue := u.queue, queueSeq := u.queueSeq, operations := u.operations)
  }

  predicate BlockedFor(t: Tables, u: Tables, req: Request)
    requires req.BlockQueued?
  {
    && req.sid in t.tasks
    && TaskMoved(t, u, req.sid, t.tasks[req.sid].(state := Blocked, error := Some(req.reason)), BlockedPhase)
    && u == t.(sessions := u.sessions, tasks := u.tasks, operations := u.operations)
  }

  /** The result is recorded with attempt and task, and every claim of the session is released. */
  ghost predicate SettledWith(t: Tables, u: Tables, req: Request)
    requires req.SettleTask?
  {
    && req.sid in t.tasks && req.token in t.attempts && Released(t, u, req.sid)
    && u.attempts == t.attempts[req.token := t.attempts[req.token].(state := AttemptCompleted, proof := Some(Settlement(req.settlement)))]
    && TaskMoved(t, u, req.sid, t.tasks[req.sid].(state := Completed, proof := Some(Settlement(req.settlement))), CompletedPhase)
    && u == t.(sessions := u.sessions, tasks := u.tasks, attempts := u.attempts, units := u.units, artifacts := u.artifacts,
               rooms := u.rooms, operations := u.operations)
  }

  lemma HoldActs(t: Tables, call: Call)
    requires TaskConstraints(t) && call.request.HoldAttempt?
    ensures var req := call.request;
            && (Acts(t, call) ==> HeldFor(t, After(t, call.operation, req), req))
            && (Acts(t, call) <==> TaskAt(t, req.sid, req.revision, req.attempt, req.token, Running))
  {
  }

  lemma FailActs(t: Tables, call: Call)
    requires TaskConstraints(t) && call.request.FailTask?
    ensures var req := call.request;
            && (Acts(t, call) ==> FailedWith(t, After(t, call.operation, req), req))
            && (Acts(t, call) <==> TaskAt(t, req.sid, req.revision, req.attempt, req.token, Running))
  {
  }

  lemma RetryActs(t: Tables, call: Call)
    requires TaskConstraints(t) && call.request.RetryFailed?
    ensures var req := call.request;
            && (Acts(t, call) ==> Requeued(t, After(t, call.operation, req), call))
            && (Acts(t, call) <==> TaskAt(t, req.sid, req.revision, req.attempt, req.token, Failed)
                                   && t.tasks[req.sid].proof == Some(Exit(req.exit)))
  {
  }

  lemma BlockActs(t: Tables, call: Call)
    requires TaskConstraints(t) && call.request.BlockQueued?
    ensures var req := call.request;
            && (Acts(t, call) ==> BlockedFor(t, After(t, call.operation, req), req))
            && (Acts(t, call) <==> req.sid in t.tasks && t.tasks[req.sid].revision == req.revision && t.tasks[req.sid].state == Queued)
  {
  }

  lemma SettleActs(t: Tables, call: Call)
    requires TaskConstraints(t) && call.request.SettleTask?
    ensures var req := call.request;
            && (Acts(t, call) ==> SettledWith(t, After(t, call.operation, req), req))
            && (Acts(t, call) <==> TaskAt(t, req.sid, req.revision, req.attempt, req.token, Running) && ProvesResult(t, req))
  {
  }

  /** The result is of the sealed closure and at the place the session was accepted with. */
  predicate ProvesResult(t: Tables, req: Request)
    requires req.SettleTask?
  {
    && req.sid in t.sessions && t.sessions[req.sid].sealHash == Some(req.settlement.sealHash)
    && t.sessions[req.sid].intent.output == req.settlement.output
  }

  /** What every finalizer call leaves when it commits, and exactly when an undisturbed one does. */
  lemma TaskCallIsWritten(calls: seq<Call>, call: Call)
    requires !call.request.ClaimNext?
    ensures var t, u, req := Reached(calls), Reached(calls + [call]), call.request;
            match req
            case HoldAttempt(s, r, n, token, _) =>
              && (Commits(calls, call) ==> HeldFor(t, u, req))
              && (Quiet(calls, call) ==> (Commits(calls, call) <==> TaskAt(t, s, r, n, token, Running)))
            case FailTask(s, r, n, token, _, _) =>
              && (Commits(calls, call) ==> FailedWith(t, u, req))
              && (Quiet(calls, call) ==> (Commits(calls, call) <==> TaskAt(t, s, r, n, token, Running)))
            case RetryFailed(s, r, n, token, exit) =>
              && (Commits(calls, call) ==> Requeued(t, u, call))
              && (Quiet(calls, call) ==>
                    (Commits(calls, call) <==> TaskAt(t, s, r, n, token, Failed) && t.tasks[s].proof == Some(Exit(exit))))
            case BlockQueued(s, r, _) =>
              && (Commits(calls, call) ==> BlockedFor(t, u, req))
              && (Quiet(calls, call) ==>
                    (Commits(calls, call) <==> s in t.tasks && t.tasks[s].revision == r && t.tasks[s].state == Queued))
            case SettleTask(s, r, n, token, _) =>
              && (Commits(calls, call) ==> SettledWith(t, u, req))
              && (Quiet(calls, call) ==>
                    (Commits(calls, call) <==> TaskAt(t, s, r, n, token, Running) && ProvesResult(t, req)))
            case _ => true
  {
    hide *;
    CommitIsAct(calls, call);
    var t := Reached(calls);
    match call.request
    case HoldAttempt(_, _, _, _, _) => HoldActs(t, call);
    case FailTask(_, _, _, _, _, _) => FailActs(t, call);
    case RetryFailed(_, _, _, _, _) => RetryActs(t, call);
    case BlockQueued(_, _, _) => BlockActs(t, call);
    case SettleTask(_, _, _, _, _) => SettleActs(t, call);
    case _ =>
  }

  // ------------------------------------------------------------- attempts are numbered

  /** The attempts of a task are numbered up to the one it has reached. */
  predicate AttemptsNumbered(t: Tables) {
    forall a | a in t.attempts ::
      t.attempts[a].session in t.tasks && t.attempts[a].number <= t.tasks[t.attempts[a].session].attempt
  }

  lemma {:induction false} AttemptsStayNumbered(calls: seq<Call>)
    ensures AttemptsNumbered(Reached(calls))
    decreases |calls|
  {
    hide Reached;
    if calls == [] {
      ReachedNothing();
      NoAttempts();
    } else {
      var before, call := calls[..|calls| - 1], calls[|calls| - 1];
      assert calls == before + [call];
      AttemptsStayNumbered(before);
      if Commits(before, call) { StaysNumbered(before, call); }
    }
  }

  lemma NoAttempts()
    ensures AttemptsNumbered(Fresh())
  {
  }

  lemma StaysNumbered(calls: seq<Call>, call: Call)
    requires Commits(calls, call) && AttemptsNumbered(Reached(calls))
    ensures AttemptsNumbered(Reached(calls + [call]))
  {
    hide Reached, Commits, Quiet, NothingToDo, IntentWritten, Admitted, AcceptedAs, Abandoned, HandedOff, AttemptsNumbered,
         HeldFor, FailedWith, Requeued, BlockedFor, SettledWith, Started, Sound;
    var t, u := Reached(calls), Reached(calls + [call]);
    match call.request
    case Reserve(_, _) =>
      ReservationIsWritten(calls, call);
      if slot :| AcceptedAs(t, u, call.request, slot) { AcceptanceNumbers(t, u, call.request, slot); } else { SameNumbers(t, u); }
    case Admit(_, _, _, _) =>
      AdmissionIsWritten(calls, call);
      AdmissionNumbers(t, u, call.request);
    case CaptureIntent(_, _, _, _, _, _) =>
      IntentIsWritten(calls, call);
      IntentNumbers(t, u, call.request);
    case Handoff(_, _, _, _) =>
      HandoffIsWritten(calls, call);
      HandoffNumbers(t, u, call);
    case SettleReservation(_, _, _, _) =>
      AbandonmentIsWritten(calls, call);
      AbandonmentNumbers(t, u, call.request);
    case ClaimNext(token) =>
      ClaimIsWritten(calls, call);
      if s :| Started(t, u, s, token) { StartNumbers(t, u, s, token); } else { SameNumbers(t, u); }
    case _ =>
      TaskCallIsWritten(calls, call);
      TaskNumbers(t, u, call);
  }

  lemma SameNumbers(t: Tables, u: Tables)
    requires AttemptsNumbered(t) && u == t.(operations := u.operations)
    ensures AttemptsNumbered(u)
  {
  }

  lemma AcceptanceNumbers(t: Tables, u: Tables, req: Request, slot: int)
    requires AttemptsNumbered(t) && req.Reserve? && AcceptedAs(t, u, req, slot)
    ensures AttemptsNumbered(u)
  {
    assert u.attempts == t.attempts && u.tasks == t.tasks;
  }

  lemma AdmissionNumbers(t: Tables, u: Tables, req: Request)
    requires AttemptsNumbered(t) && req.Admit? && Admitted(t, u, req)
    ensures AttemptsNumbered(u)
  {
  }

  lemma IntentNumbers(t: Tables, u: Tables, req: Request)
    requires AttemptsNumbered(t) && req.CaptureIntent? && IntentWritten(t, u, req)
    ensures AttemptsNumbered(u)
  {
  }

  lemma AbandonmentNumbers(t: Tables, u: Tables, req: Request)
    requires AttemptsNumbered(t) && req.SettleReservation? && Abandoned(t, u, req)
    ensures AttemptsNumbered(u)
  {
    assert u.attempts == t.attempts && u.tasks == t.tasks;
  }

  lemma HandoffNumbers(t: Tables, u: Tables, call: Call)
    requires Sound(t) && AttemptsNumbered(t) && call.request.Handoff? && HandedOff(t, u, call)
    ensures AttemptsNumbered(u)
  {
    hide Sound, Schema, Audit, SlotFreed;
    SoundMeans(t);
    CapturingIsBound(t, call.request.sid);
    CaptureMeans(t, call.request.sid);
  }

  lemma StartNumbers(t: Tables, u: Tables, s: Id, token: Id)
    requires AttemptsNumbered(t) && Started(t, u, s, token)
    ensures AttemptsNumbered(u)
  {
  }

  /** A call that only moves a task it finds, and attempts it finds, leaves the numbers alone. */
  lemma MovedNumbers(t: Tables, u: Tables, s: Id)
    requires AttemptsNumbered(t) && s in t.tasks && u.tasks.Keys == t.tasks.Keys
    requires forall x | x in t.tasks :: u.tasks[x].attempt == t.tasks[x].attempt
    requires forall a | a in u.attempts :: a in t.attempts && u.attempts[a].session == t.attempts[a].session
                                           && u.attempts[a].number == t.attempts[a].number
    ensures AttemptsNumbered(u)
  {
  }

  lemma TaskNumbers(t: Tables, u: Tables, call: Call)
    requires AttemptsNumbered(t)
    requires match call.request
             case HoldAttempt(_, _, _, _, _) => HeldFor(t, u, call.request)
             case FailTask(_, _, _, _, _, _) => FailedWith(t, u, call.request)
             case RetryFailed(_, _, _, _, _) => Requeued(t, u, call)
             case BlockQueued(_, _, _) => BlockedFor(t, u, call.request)
             case SettleTask(_, _, _, _, _) => SettledWith(t, u, call.request)
             case _ => false
    ensures AttemptsNumbered(u)
  {
    hide Released, QueuedLast, AttemptsNumbered;
    match call.request
    case HoldAttempt(s, _, _, _, _) => MovedNumbers(t, u, s);
    case FailTask(s, _, _, _, _, _) => MovedNumbers(t, u, s);
    case RetryFailed(s, _, _, _, _) => MovedNumbers(t, u, s);
    case BlockQueued(s, _, _) => MovedNumbers(t, u, s);
    case SettleTask(s, _, _, _, _) => MovedNumbers(t, u, s);
  }

  /** With work waiting and none running, a fresh token always gets the next attempt. */
  lemma FreshTokenStarts(calls: seq<Call>, call: Call)
    requires call.request.ClaimNext? && Quiet(calls, call) && !NothingToDo(Reached(calls))
    ensures Commits(calls, call) <==> call.request.token !in Reached(calls).attempts
  {
    hide *;
    CommitIsAct(calls, call);
    AttemptsStayNumbered(calls);
    FreshActs(Reached(calls), call);
  }

  lemma FreshActs(t: Tables, call: Call)
    requires TaskConstraints(t) && AttemptsNumbered(t) && call.request.ClaimNext? && !NothingToDo(t)
    ensures Acts(t, call) <==> call.request.token !in t.attempts
  {
    OldestIsLongest(t);
  }

  // ------------------------------------------------------------------- replies

  /** What a reply says is what the rows say. */
  predicate Tells(u: Tables, r: OpResult) {
    match r
    case NothingQueued => true
    case CaptureResult(s, slot, generation, revision) => RowIs(u, s, slot, generation, revision)
    case HandoffResult(s, slot, generation, revision, taskRevision, sealHash, queueOrder) =>
      && RowIs(u, s, slot, generation, revision) && u.sessions[s].sealHash == Some(sealHash)
      && s in u.tasks && u.tasks[s].revision == taskRevision && u.tasks[s].queueOrder == queueOrder
    case AttemptResult(s, revision, attempt, token) => TaskIs(u, s, revision, attempt, Some(token))
    case RetryResult(s, revision, attempt, token, queueOrder) =>
      TaskIs(u, s, revision, attempt, Some(token)) && u.tasks[s].queueOrder == queueOrder
    case BlockResult(s, revision) => s in u.tasks && u.tasks[s].revision == revision
    case SettledResult(s, revision, attempt, token) => TaskIs(u, s, revision, attempt, Some(token))
  }

  predicate RowIs(u: Tables, s: Id, slot: int, generation: int, revision: int) {
    && s in u.sessions && u.sessions[s].originSlot == slot && u.sessions[s].generation == generation
    && u.sessions[s].revision == revision
  }

  predicate TaskIs(u: Tables, s: Id, revision: int, attempt: int, token: Option<Id>) {
    s in u.tasks && u.tasks[s].revision == revision && u.tasks[s].attempt == attempt && u.tasks[s].token == token
  }

  lemma CaptureTells(t: Tables, call: Call)
    requires TaskConstraints(t) && Acts(t, call)
    requires call.request.Admit? || call.request.CaptureIntent? || call.request.Handoff? || call.request.SettleReservation?
    ensures Tells(After(t, call.operation, call.request), Act(t, call.operation, call.request).result)
  {
    hide CaptureGuard, TaskConstraints, AdmissionRefused, SealBound, SealInsideParts, Unbound, ArtifactsWithout, RoomsWithout;
    var req := call.request;
    if CaptureGuard(t, req.sid, req.generation, req.revision) { GuardedRow(t, req.sid, req.generation, req.revision); }
  }

  lemma ClaimTells(t: Tables, call: Call)
    requires TaskConstraints(t) && Acts(t, call) && call.request.ClaimNext?
    ensures Tells(After(t, call.operation, call.request), Act(t, call.operation, call.request).result)
  {
    hide TokenTaken;
  }

  lemma HoldTells(t: Tables, call: Call)
    requires TaskConstraints(t) && Acts(t, call) && call.request.HoldAttempt?
    ensures Tells(After(t, call.operation, call.request), Act(t, call.operation, call.request).result)
  {
  }

  lemma FailTells(t: Tables, call: Call)
    requires TaskConstraints(t) && Acts(t, call) && call.request.FailTask?
    ensures Tells(After(t, call.operation, call.request), Act(t, call.operation, call.request).result)
  {
  }

  lemma RetryTells(t: Tables, call: Call)
    requires TaskConstraints(t) && Acts(t, call) && call.request.RetryFailed?
    ensures Tells(After(t, call.operation, call.request), Act(t, call.operation, call.request).result)
  {
  }

  lemma BlockTells(t: Tables, call: Call)
    requires TaskConstraints(t) && Acts(t, call) && call.request.BlockQueued?
    ensures Tells(After(t, call.operation, call.request), Act(t, call.operation, call.request).result)
  {
  }

  lemma SettleTells(t: Tables, call: Call)
    requires TaskConstraints(t) && Acts(t, call) && call.request.SettleTask?
    ensures Tells(After(t, call.operation, call.request), Act(t, call.operation, call.request).result)
  {
    hide ArtifactsWithout, RoomsWithout;
  }

  /** An undisturbed call that commits is told what its rows now say, and its receipt keeps that for ever. A repeated
      automatic claim is told the acceptance it got first. */
  lemma ReplyIsTrue(calls: seq<Call>, call: Call)
    requires Quiet(calls, call) && Commits(calls, call)
    ensures var t, u := Reached(calls), Reached(calls + [call]);
            var r := Transact(t, call).1;
            && r.Returned? && call.operation in u.operations && u.operations[call.operation] == OperationRow(call.request, r.result)
            && (if call.request.Reserve? && u.sessions == t.sessions then
                  && r.result.CaptureResult? && r.result.session in u.sessions && r.result.revision == 1
                  && RowIs(u, r.result.session, r.result.slot, r.result.generation, u.sessions[r.result.session].revision)
                else Tells(u, r.result))
  {
    hide *;
    CommitIsAct(calls, call);
    RecordKeeps(Reached(calls), call);
    QuietIsAcceptable(calls, call);
    match call.request
    case Reserve(_, _) => ReserveTells(Reached(calls), call);
    case Admit(_, _, _, _) => CaptureTells(Reached(calls), call);
    case CaptureIntent(_, _, _, _, _, _) => CaptureTells(Reached(calls), call);
    case Handoff(_, _, _, _) => CaptureTells(Reached(calls), call);
    case SettleReservation(_, _, _, _) => CaptureTells(Reached(calls), call);
    case ClaimNext(_) => ClaimTells(Reached(calls), call);
    case HoldAttempt(_, _, _, _, _) => HoldTells(Reached(calls), call);
    case FailTask(_, _, _, _, _, _) => FailTells(Reached(calls), call);
    case RetryFailed(_, _, _, _, _) => RetryTells(Reached(calls), call);
    case BlockQueued(_, _, _) => BlockTells(Reached(calls), call);
    case SettleTask(_, _, _, _, _) => SettleTells(Reached(calls), call);
  }

  lemma RecordKeeps(t: Tables, call: Call)
    requires TaskConstraints(t) && Acts(t, call)
    ensures var u := After(t, call.operation, call.request);
            call.operation in u.operations
            && u.operations[call.operation] == OperationRow(call.request, Act(t, call.operation, call.request).result)
  {
    hide Act, TaskConstraints;
  }

  lemma ReserveTells(t: Tables, call: Call)
    requires Sound(t) && TaskConstraints(t) && call.request.Reserve? && ArgumentsAcceptable(call.request) && Acts(t, call)
    ensures var u, r := After(t, call.operation, call.request), Act(t, call.operation, call.request).result;
            if u.sessions == t.sessions then
              && r.CaptureResult? && r.session in u.sessions && r.revision == 1
              && RowIs(u, r.session, r.slot, r.generation, u.sessions[r.session].revision)
            else Tells(u, r)
  {
    hide Sound, TaskConstraints, Act, ArgumentsAcceptable, After, NoRival, SlotIsFree;
    ReserveActs(t, call);
  }
}
