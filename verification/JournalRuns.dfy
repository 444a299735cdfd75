/** The induction: every transaction of a sound catalog leaves it sound, so the
    audits inside a transaction never reject what a guarded action produced. */
module JournalRuns {
  import opened JournalTypes
  import opened JournalTables
  import opened JournalSpec
  import opened JournalInvariant
  import opened JournalPreserve
  import opened JournalPreserveTasks
  import opened JournalPreserveReserve

  lemma SoundMeans(t: Tables)
    requires Sound(t)
    ensures Schema(t) && Audit(t) && Provenance(t) && TaskConstraints(t)
  {
  }

  lemma SoundFrom(t: Tables)
    requires Schema(t) && Audit(t) && Provenance(t)
    ensures Sound(t)
  {
  }

  lemma FreshIsSound()
    ensures Sound(Fresh())
  {
  }

  lemma ActCases(t: Tables, o: Id, req: Request)
    requires TaskConstraints(t)
    ensures req.Reserve? ==> Act(t, o, req) == DoReserve(t, req.intent, req.slot)
    ensures req.Admit? ==> Act(t, o, req) == DoAdmit(t, req.sid, req.generation, req.revision, req.provenRoom)
    ensures req.CaptureIntent? ==>
              Act(t, o, req) == DoCaptureIntent(t, req.sid, req.generation, req.revision, req.closing, req.stop, req.recovery)
    ensures req.Handoff? ==> Act(t, o, req) == DoHandoff(t, o, req.sid, req.generation, req.revision, req.seal)
    ensures req.SettleReservation? ==> Act(t, o, req) == DoSettleReservation(t, req.sid, req.generation, req.revision)
    ensures req.ClaimNext? ==> Act(t, o, req) == DoClaimNext(t, req.token)
    ensures req.HoldAttempt? ==>
              Act(t, o, req) == DoHoldAttempt(t, req.sid, req.revision, req.attempt, req.token, req.reason)
    ensures req.FailTask? ==>
              Act(t, o, req) == DoFailTask(t, req.sid, req.revision, req.attempt, req.token, req.exit, req.reason)
    ensures req.RetryFailed? ==>
              Act(t, o, req) == DoRetryFailed(t, o, req.sid, req.revision, req.attempt, req.token, req.exit)
    ensures req.BlockQueued? ==> Act(t, o, req) == DoBlockQueued(t, req.sid, req.revision, req.reason)
    ensures req.SettleTask? ==>
              Act(t, o, req) == DoSettleTask(t, req.sid, req.revision, req.attempt, req.token, req.settlement)
  {
  }

  /** An action that names a session in its result changes rows of that session only;
      one that finds nothing to do leaves only its receipt. */
  ghost predicate ActTouchesOne(t: Tables, o: Id, req: Request)
    requires TaskConstraints(t) && Act(t, o, req).Done?
  {
    var act := Act(t, o, req);
    var u := Record(act.next, o, req, act.result);
    if act.result.NothingQueued? then u == t.(operations := t.operations[o := OperationRow(req, act.result)])
    else Elsewhere(t, u, act.result.session)
  }

  /** Inductiveness of the audit, the constraints and the receipts under all eleven mutations. */
  lemma ActKeepsSound(t: Tables, o: Id, req: Request)
    requires Sound(t) && o !in t.operations && TaskConstraints(t) && Act(t, o, req).Done?
    ensures Sound(Record(Act(t, o, req).next, o, req, Act(t, o, req).result))
    ensures ActTouchesOne(t, o, req)
  {
    hide Sound, Schema, Audit, Provenance, Elsewhere, Act, TaskConstraints, Record, DoReserve, DoAdmit, DoCaptureIntent,
         DoHandoff, DoSettleReservation, DoClaimNext, DoHoldAttempt, DoFailTask, DoRetryFailed, DoBlockQueued, DoSettleTask;
    SoundMeans(t);
    ActCases(t, o, req);
    var act := Act(t, o, req);
    var u, r := Record(act.next, o, req, act.result), OperationRow(req, act.result);
    match req {
      case Reserve(_, _) => ReserveKeeps(t, o, req, u, r);
      case Admit(_, _, _, _) => AdmitKeeps(t, o, req, u, r);
      case CaptureIntent(_, _, _, _, _, _) => CaptureIntentKeeps(t, o, req, u, r);
      case Handoff(_, _, _, _) => HandoffKeeps(t, o, req, u, r);
      case SettleReservation(_, _, _, _) => SettleReservationKeeps(t, o, req, u, r);
      case ClaimNext(_) => ClaimNextKeeps(t, o, req, u, r);
      case HoldAttempt(_, _, _, _, _) => HoldAttemptKeeps(t, o, req, u, r);
      case FailTask(_, _, _, _, _, _) => FailTaskKeeps(t, o, req, u, r);
      case RetryFailed(_, _, _, _, _) => RetryFailedKeeps(t, o, req, u, r);
      case BlockQueued(_, _, _) => BlockQueuedKeeps(t, o, req, u, r);
      case SettleTask(_, _, _, _, _) => SettleTaskKeeps(t, o, req, u, r);
    }
    SoundFrom(u);
  }

  lemma SoundAudits(t: Tables)
    requires Sound(t)
    ensures Audit(t)
  {
  }

  lemma ReplayIsValid(t: Tables, o: Id)
    requires Sound(t) && o in t.operations
    ensures ReplayValid(t, t.operations[o].result)
  {
  }

  /** What a call does to a sound catalog, with neither audit left in sight. */
  ghost function Decided(t: Tables, call: Call): (Tables, Outcome)
    requires TaskConstraints(t)
  {
    if !ArgumentsAcceptable(call.request) then (t, Refused(Invalid))
    else if call.fault == FaultAtBegin then (t, Interrupted)
    else if call.operation in t.operations then
      var prior := t.operations[call.operation];
      (t, if prior.request == call.request then ReplayEnds(call.fault, prior.result) else RefusalEnds(call.fault, Conflict))
    else if call.fault.FaultBeforeCommit? then (t, if call.fault.rollbackFails then Uncertain else Interrupted)
    else
      match Act(t, call.operation, call.request)
      case Refuse(why) => (t, RefusalEnds(call.fault, why))
      case Done(next, result) =>
        var recorded := Record(next, call.operation, call.request, result);
        if call.fault.FaultInCommit? then (if call.fault.committed then recorded else t, Uncertain)
        else (recorded, if call.fault == FaultAfterCommit then Uncertain else Returned(result))
  }

  /** Neither audit of a transaction and no replay validation ever rejects: a sound
      catalog refuses only what the guards of the action itself refuse. */
  lemma AuditsNeverReject(t: Tables, call: Call)
    requires Sound(t) && TaskConstraints(t)
    ensures Transact(t, call).0 == Decided(t, call).0
    ensures call.fault != FaultOnClose ==> Transact(t, call).1 == Decided(t, call).1
    ensures call.fault == FaultOnClose && ArgumentsAcceptable(call.request) ==> Transact(t, call).1 == Uncertain
  {
    hide Sound, Audit, Act, ReplayValid, ArgumentsAcceptable, TaskConstraints, Record;
    SoundAudits(t);
    if call.operation in t.operations {
      ReplayIsValid(t, call.operation);
    } else if Act(t, call.operation, call.request).Done? {
      ActKeepsSound(t, call.operation, call.request);
      var act := Act(t, call.operation, call.request);
      SoundAudits(Record(act.next, call.operation, call.request, act.result));
    }
  }

  lemma StepSound(t: Tables, call: Call)
    requires Sound(t) && TaskConstraints(t)
    ensures Sound(Transact(t, call).0) && TaskConstraints(Transact(t, call).0)
  {
    hide Sound, TaskConstraints, Transact, Decided;
    AuditsNeverReject(t, call);
    DecidedSound(t, call);
    SoundMeans(Transact(t, call).0);
  }

  lemma DecidedSound(t: Tables, call: Call)
    requires Sound(t) && TaskConstraints(t)
    ensures Sound(Decided(t, call).0)
  {
    hide Sound, Act, ArgumentsAcceptable, TaskConstraints, Record;
    if call.operation !in t.operations && Act(t, call.operation, call.request).Done? {
      ActKeepsSound(t, call.operation, call.request);
    }
  }

  // -------------------------------------------------------------------- runs

  /** The durable tables after a run of calls, whatever faults interrupt them. */
  ghost function Run(t: Tables, calls: seq<Call>): (u: Tables)
    requires Sound(t) && TaskConstraints(t)
    ensures Sound(u) && TaskConstraints(u)
    decreases |calls|
  {
    if calls == [] then t
    else
      var last := |calls| - 1;
      var before := Run(t, calls[..last]);
      StepSound(before, calls[last]);
      Transact(before, calls[last]).0
  }

  /** Every catalog any run of calls and faults can reach from a fresh one. */
  ghost function Reached(calls: seq<Call>): (t: Tables)
    ensures Sound(t) && TaskConstraints(t)
  {
    hide *;
    FreshIsSound();
    SoundMeans(Fresh());
    Run(Fresh(), calls)
  }
}
