/** What every run keeps: permanent receipts, immutable history, terminal sessions. */
module JournalHistory {
  import opened Wrappers
  import opened JournalTypes
  import opened JournalTables
  import opened JournalSpec
  import opened JournalInvariant
  import opened JournalPreserve
  import opened JournalPreserveTasks
  import opened JournalPreserveReserve
  import opened JournalRuns

  /** A session row only moves forward: identity, room and seal are fixed once known,
      stop is never cleared, every change raises the revision, a terminal row never changes. */
  ghost predicate RowGrows(a: SessionRow, b: SessionRow) {
    && b.id == a.id && b.intent == a.intent && b.creator == a.creator && b.expectedRoom == a.expectedRoom
    && b.automaticClaim == a.automaticClaim && b.originSlot == a.originSlot && b.generation == a.generation
    && (a.room.Some? ==> b.room == a.room) && (a.seal.Some? ==> b.seal == a.seal && b.sealHash == a.sealHash)
    && (a.stop ==> b.stop)
    && (b != a ==> a.revision < b.revision)
    && (Terminal(a.phase) ==> b == a)
  }

  ghost predicate BindingsGrow(t: Tables, u: Tables) {
    && u.bindings.Keys == t.bindings.Keys
    && forall i | i in t.bindings :: t.bindings[i].generation <= u.bindings[i].generation
  }

  /** One later state of the same catalog. */
  ghost predicate Grows(t: Tables, u: Tables) {
    && BindingsGrow(t, u) && t.queueSeq <= u.queueSeq
    && (forall s | s in t.sessions :: s in u.sessions && RowGrows(t.sessions[s], u.sessions[s]))
    && (forall o | o in t.operations :: o in u.operations && u.operations[o] == t.operations[o])
    && (forall c | c in t.receipts :: c in u.receipts && u.receipts[c] == t.receipts[c])
    && (forall p | p in t.queue :: p in u.queue && u.queue[p] == t.queue[p])
    && AttemptsGrow(t, u)
  }

  /** An attempt row stays, with its token, session and number. */
  ghost predicate AttemptsGrow(t: Tables, u: Tables) {
    forall a | a in t.attempts :: a in u.attempts && u.attempts[a].session == t.attempts[a].session
                                  && u.attempts[a].number == t.attempts[a].number
  }

  lemma GrowsReflexive(t: Tables)
    ensures Grows(t, t)
  {
  }

  lemma GrowsTransitive(t: Tables, u: Tables, v: Tables)
    requires Grows(t, u) && Grows(u, v)
    ensures Grows(t, v)
  {
    forall s | s in t.sessions ensures s in v.sessions && RowGrows(t.sessions[s], v.sessions[s]) {
      assert s in u.sessions && RowGrows(t.sessions[s], u.sessions[s]) && RowGrows(u.sessions[s], v.sessions[s]);
    }
  }

  /** The row an action touches, and the counters beside it. */
  ghost predicate ForwardHere(t: Tables, u: Tables, s: Id) {
    && BindingsGrow(t, u) && t.queueSeq <= u.queueSeq && AttemptsGrow(t, u)
    && (s in t.sessions ==> s in u.sessions && RowGrows(t.sessions[s], u.sessions[s]))
  }

  lemma GrowsFrom(t: Tables, u: Tables, s: Id)
    requires Elsewhere(t, u, s) && ForwardHere(t, u, s)
    ensures Grows(t, u)
  {
  }

  lemma AdmitForward(t: Tables, o: Id, req: Request, u: Tables)
    requires req.Admit?
    requires req.sid in t.sessions && t.sessions[req.sid].phase in {Phase.Reserved, Capturing, Closing}
    requires var act := DoAdmit(t, req.sid, req.generation, req.revision, req.provenRoom);
             act.Done? && u == Record(act.next, o, req, act.result)
    ensures ForwardHere(t, u, req.sid)
  {
  }

  lemma AdmitAdvances(t: Tables, o: Id, req: Request, u: Tables)
    requires Sound(t) && o !in t.operations && req.Admit? && TaskConstraints(t)
    requires var act := DoAdmit(t, req.sid, req.generation, req.revision, req.provenRoom);
             act.Done? && u == Record(act.next, o, req, act.result)
    ensures ForwardHere(t, u, req.sid)
  {
    hide *;
    SoundMeans(t);
    SchemaMeans(t);
    AdmitNotRefused(t, req);
    CaptureGuardMeans(t, req.sid, req.generation, req.revision);
    UnitMeans(t, req.sid);
    CaptureMeans(t, req.sid);
    AdmitForward(t, o, req, u);
  }

  lemma CaptureIntentForward(t: Tables, o: Id, req: Request, u: Tables)
    requires req.CaptureIntent?
    requires req.sid in t.sessions && t.sessions[req.sid].phase in {Phase.Reserved, Capturing, Closing}
    requires var act := DoCaptureIntent(t, req.sid, req.generation, req.revision, req.closing, req.stop, req.recovery);
             act.Done? && u == Record(act.next, o, req, act.result)
    ensures ForwardHere(t, u, req.sid)
  {
  }

  lemma CaptureIntentAdvances(t: Tables, o: Id, req: Request, u: Tables)
    requires Sound(t) && o !in t.operations && req.CaptureIntent? && TaskConstraints(t)
    requires var act := DoCaptureIntent(t, req.sid, req.generation, req.revision, req.closing, req.stop, req.recovery);
             act.Done? && u == Record(act.next, o, req, act.result)
    ensures ForwardHere(t, u, req.sid)
  {
    hide *;
    SoundMeans(t);
    SchemaMeans(t);
    CaptureIntentGuarded(t, req);
    CaptureGuardMeans(t, req.sid, req.generation, req.revision);
    UnitMeans(t, req.sid);
    CaptureMeans(t, req.sid);
    CaptureIntentForward(t, o, req, u);
  }

  lemma HandoffForward(t: Tables, o: Id, req: Request, u: Tables)
    requires req.Handoff?
    requires req.sid in t.sessions && t.sessions[req.sid].phase in {Phase.Reserved, Capturing, Closing}
    requires var act := DoHandoff(t, o, req.sid, req.generation, req.revision, req.seal);
             act.Done? && u == Record(act.next, o, req, act.result)
    ensures ForwardHere(t, u, req.sid)
  {
  }

  lemma HandoffAdvances(t: Tables, o: Id, req: Request, u: Tables)
    requires Sound(t) && o !in t.operations && req.Handoff? && TaskConstraints(t)
    requires var act := DoHandoff(t, o, req.sid, req.generation, req.revision, req.seal);
             act.Done? && u == Record(act.next, o, req, act.result)
    ensures ForwardHere(t, u, req.sid)
  {
    hide *;
    SoundMeans(t);
    SchemaMeans(t);
    HandoffGuarded(t, o, req);
    CaptureGuardMeans(t, req.sid, req.generation, req.revision);
    UnitMeans(t, req.sid);
    CaptureMeans(t, req.sid);
    HandoffForward(t, o, req, u);
  }

  lemma SettleReservationForward(t: Tables, o: Id, req: Request, u: Tables)
    requires req.SettleReservation?
    requires req.sid in t.sessions && t.sessions[req.sid].phase in {Phase.Reserved, Capturing, Closing}
    requires var act := DoSettleReservation(t, req.sid, req.generation, req.revision);
             act.Done? && u == Record(act.next, o, req, act.result)
    ensures ForwardHere(t, u, req.sid)
  {
  }

  lemma SettleReservationAdvances(t: Tables, o: Id, req: Request, u: Tables)
    requires Sound(t) && o !in t.operations && req.SettleReservation? && TaskConstraints(t)
    requires var act := DoSettleReservation(t, req.sid, req.generation, req.revision);
             act.Done? && u == Record(act.next, o, req, act.result)
    ensures ForwardHere(t, u, req.sid)
  {
    hide *;
    SoundMeans(t);
    SchemaMeans(t);
    SettleReservationGuarded(t, req);
    CaptureGuardMeans(t, req.sid, req.generation, req.revision);
    UnitMeans(t, req.sid);
    CaptureMeans(t, req.sid);
    SettleReservationForward(t, o, req, u);
  }

  lemma HoldAttemptForward(t: Tables, o: Id, req: Request, u: Tables)
    requires req.HoldAttempt?
    requires TaskConstraints(t) && TaskHeld(t, req.sid)
    requires var act := DoHoldAttempt(t, req.sid, req.revision, req.attempt, req.token, req.reason);
             act.Done? && u == Record(act.next, o, req, act.result)
    ensures ForwardHere(t, u, req.sid)
  {
  }

  lemma HoldAttemptAdvances(t: Tables, o: Id, req: Request, u: Tables)
    requires Sound(t) && o !in t.operations && req.HoldAttempt? && TaskConstraints(t)
    requires var act := DoHoldAttempt(t, req.sid, req.revision, req.attempt, req.token, req.reason);
             act.Done? && u == Record(act.next, o, req, act.result)
    ensures ForwardHere(t, u, req.sid)
  {
    hide *;
    SoundMeans(t);
    HoldAttemptGuarded(t, o, req);
    OutstandingTask(t, req.sid);
    HoldAttemptForward(t, o, req, u);
  }

  lemma FailTaskForward(t: Tables, o: Id, req: Request, u: Tables)
    requires req.FailTask?
    requires TaskConstraints(t) && TaskHeld(t, req.sid)
    requires var act := DoFailTask(t, req.sid, req.revision, req.attempt, req.token, req.exit, req.reason);
             act.Done? && u == Record(act.next, o, req, act.result)
    ensures ForwardHere(t, u, req.sid)
  {
  }

  lemma FailTaskAdvances(t: Tables, o: Id, req: Request, u: Tables)
    requires Sound(t) && o !in t.operations && req.FailTask? && TaskConstraints(t)
    requires var act := DoFailTask(t, req.sid, req.revision, req.attempt, req.token, req.exit, req.reason);
             act.Done? && u == Record(act.next, o, req, act.result)
    ensures ForwardHere(t, u, req.sid)
  {
    hide *;
    SoundMeans(t);
    FailTaskGuarded(t, o, req);
    OutstandingTask(t, req.sid);
    FailTaskForward(t, o, req, u);
  }

  lemma RetryFailedForward(t: Tables, o: Id, req: Request, u: Tables)
    requires req.RetryFailed?
    requires TaskConstraints(t) && TaskHeld(t, req.sid)
    requires var act := DoRetryFailed(t, o, req.sid, req.revision, req.attempt, req.token, req.exit);
             act.Done? && u == Record(act.next, o, req, act.result)
    ensures ForwardHere(t, u, req.sid)
  {
  }

  lemma RetryFailedAdvances(t: Tables, o: Id, req: Request, u: Tables)
    requires Sound(t) && o !in t.operations && req.RetryFailed? && TaskConstraints(t)
    requires var act := DoRetryFailed(t, o, req.sid, req.revision, req.attempt, req.token, req.exit);
             act.Done? && u == Record(act.next, o, req, act.result)
    ensures ForwardHere(t, u, req.sid)
  {
    hide *;
    SoundMeans(t);
    RetryFailedGuarded(t, o, req);
    OutstandingTask(t, req.sid);
    RetryFailedForward(t, o, req, u);
  }

  lemma BlockQueuedForward(t: Tables, o: Id, req: Request, u: Tables)
    requires req.BlockQueued?
    requires TaskConstraints(t) && TaskHeld(t, req.sid)
    requires var act := DoBlockQueued(t, req.sid, req.revision, req.reason);
             act.Done? && u == Record(act.next, o, req, act.result)
    ensures ForwardHere(t, u, req.sid)
  {
  }

  lemma BlockQueuedAdvances(t: Tables, o: Id, req: Request, u: Tables)
    requires Sound(t) && o !in t.operations && req.BlockQueued? && TaskConstraints(t)
    requires var act := DoBlockQueued(t, req.sid, req.revision, req.reason);
             act.Done? && u == Record(act.next, o, req, act.result)
    ensures ForwardHere(t, u, req.sid)
  {
    hide *;
    SoundMeans(t);
    BlockQueuedGuarded(t, o, req);
    OutstandingTask(t, req.sid);
    BlockQueuedForward(t, o, req, u);
  }

  lemma SettleTaskForward(t: Tables, o: Id, req: Request, u: Tables)
    requires req.SettleTask?
    requires TaskConstraints(t) && TaskHeld(t, req.sid)
    requires var act := DoSettleTask(t, req.sid, req.revision, req.attempt, req.token, req.settlement);
             act.Done? && u == Record(act.next, o, req, act.result)
    ensures ForwardHere(t, u, req.sid)
  {
  }

  lemma SettleTaskAdvances(t: Tables, o: Id, req: Request, u: Tables)
    requires Sound(t) && o !in t.operations && req.SettleTask? && TaskConstraints(t)
    requires var act := DoSettleTask(t, req.sid, req.revision, req.attempt, req.token, req.settlement);
             act.Done? && u == Record(act.next, o, req, act.result)
    ensures ForwardHere(t, u, req.sid)
  {
    hide *;
    SoundMeans(t);
    SettleTaskGuarded(t, req);
    OutstandingTask(t, req.sid);
    SettleTaskForward(t, o, req, u);
  }

  lemma AcceptForward(t: Tables, intent: SessionIntent, slot: int, o: Id, req: Request, u: Tables, r: OperationRow)
    requires Accepts(t, intent, slot, o, req, u, r)
    ensures ForwardHere(t, u, intent.sessionId)
  {
  }

  lemma RecordForward(t: Tables, u: Tables, o: Id, r: OperationRow, s: Id)
    requires u == t.(operations := t.operations[o := r])
    ensures ForwardHere(t, u, s)
  {
  }

  lemma ReserveAdvances(t: Tables, o: Id, req: Request, u: Tables, r: OperationRow)
    requires Sound(t) && o !in t.operations && req.Reserve?
    requires var act := DoReserve(t, req.intent, req.slot);
             act.Done? && r == OperationRow(req, act.result) && u == Record(act.next, o, req, act.result)
    ensures !r.result.NothingQueued? && ForwardHere(t, u, r.result.session)
  {
    hide *;
    SoundMeans(t);
    SchemaMeans(t);
    ReserveCases(t, o, req, u, r);
    if slot :| Accepts(t, req.intent, slot, o, req, u, r) && Admissible(t, req.intent, slot) {
      AcceptMeans(t, req.intent, slot, o, req, u, r);
      AcceptForward(t, req.intent, slot, o, req, u, r);
    } else {
      RecordForward(t, u, o, r, r.result.session);
    }
  }

  lemma ClaimForward(t: Tables, o: Id, s: Id, token: Id, req: Request, u: Tables)
    requires s in t.tasks && s in t.sessions && !Terminal(t.sessions[s].phase)
    requires var act := Claimed(t, s, token); act.Done? && u == Record(act.next, o, req, act.result)
    ensures ForwardHere(t, u, s)
  {
  }

  lemma HeldIsNotTerminal(t: Tables, s: Id)
    requires TaskHeld(t, s)
    ensures s in t.sessions && !Terminal(t.sessions[s].phase)
  {
  }

  lemma ClaimNextAdvances(t: Tables, o: Id, req: Request, u: Tables, r: OperationRow)
    requires Sound(t) && o !in t.operations && req.ClaimNext? && TaskConstraints(t)
    requires var act := DoClaimNext(t, req.token);
             act.Done? && r == OperationRow(req, act.result) && u == Record(act.next, o, req, act.result)
    ensures !r.result.NothingQueued? ==> ForwardHere(t, u, r.result.session)
  {
    hide *;
    SoundMeans(t);
    ClaimNextCases(t, o, req, u, r);
    if s :| ClaimsTask(t, s, o, req, u, r) {
      ClaimsTaskMeans(t, s, o, req, u, r);
      OutstandingTask(t, s);
      HeldIsNotTerminal(t, s);
      ClaimForward(t, o, s, req.token, req, u);
      ClaimResult(t, s, req.token);
    }
  }

  lemma ClaimResult(t: Tables, s: Id, token: Id)
    requires s in t.tasks && s in t.sessions && Claimed(t, s, token).Done?
    ensures Claimed(t, s, token).result.AttemptResult? && Claimed(t, s, token).result.session == s
  {
  }

  /** The tables one committed mutation leaves. */
  ghost function After(t: Tables, o: Id, req: Request): Tables
    requires TaskConstraints(t) && Act(t, o, req).Done?
  {
    Record(Act(t, o, req).next, o, req, Act(t, o, req).result)
  }

  /** The session named in a result is the one the request addresses. */
  lemma ResultNames(t: Tables, o: Id, req: Request)
    requires TaskConstraints(t) && Act(t, o, req).Done?
    ensures var r := Act(t, o, req).result;
            (req.ClaimNext? || !r.NothingQueued?)
            && (!req.ClaimNext? && !req.Reserve? ==> r.session == req.sid)
  {
    ActCases(t, o, req);
  }

  lemma ActAdvances(t: Tables, o: Id, req: Request)
    requires Sound(t) && o !in t.operations && TaskConstraints(t) && Act(t, o, req).Done?
    ensures !Act(t, o, req).result.NothingQueued? ==> ForwardHere(t, After(t, o, req), Act(t, o, req).result.session)
  {
    hide Sound, Schema, Audit, Provenance, ForwardHere, Act, TaskConstraints, Record, DoReserve, DoAdmit, DoCaptureIntent,
         DoHandoff, DoSettleReservation, DoClaimNext, DoHoldAttempt, DoFailTask, DoRetryFailed, DoBlockQueued, DoSettleTask;
    ActCases(t, o, req);
    ResultNames(t, o, req);
    var act := Act(t, o, req);
    var u, r := After(t, o, req), OperationRow(req, act.result);
    match req {
      case Reserve(_, _) => ReserveAdvances(t, o, req, u, r);
      case Admit(_, _, _, _) => AdmitAdvances(t, o, req, u);
      case CaptureIntent(_, _, _, _, _, _) => CaptureIntentAdvances(t, o, req, u);
      case Handoff(_, _, _, _) => HandoffAdvances(t, o, req, u);
      case SettleReservation(_, _, _, _) => SettleReservationAdvances(t, o, req, u);
      case ClaimNext(_) => ClaimNextAdvances(t, o, req, u, r);
      case HoldAttempt(_, _, _, _, _) => HoldAttemptAdvances(t, o, req, u);
      case FailTask(_, _, _, _, _, _) => FailTaskAdvances(t, o, req, u);
      case RetryFailed(_, _, _, _, _) => RetryFailedAdvances(t, o, req, u);
      case BlockQueued(_, _, _) => BlockQueuedAdvances(t, o, req, u);
      case SettleTask(_, _, _, _, _) => SettleTaskAdvances(t, o, req, u);
    }
  }

  lemma RecordGrows(t: Tables, u: Tables, o: Id, r: OperationRow)
    requires o !in t.operations && u == t.(operations := t.operations[o := r])
    ensures Grows(t, u)
  {
  }

  lemma TouchesOneMeans(t: Tables, o: Id, req: Request)
    requires TaskConstraints(t) && Act(t, o, req).Done? && ActTouchesOne(t, o, req)
    ensures var act := Act(t, o, req);
            if act.result.NothingQueued?
            then After(t, o, req) == t.(operations := t.operations[o := OperationRow(req, act.result)])
            else Elsewhere(t, After(t, o, req), act.result.session)
  {
  }

  lemma ActGrows(t: Tables, o: Id, req: Request)
    requires Sound(t) && o !in t.operations && TaskConstraints(t) && Act(t, o, req).Done?
    ensures Grows(t, After(t, o, req))
  {
    hide *;
    ActKeepsSound(t, o, req);
    TouchesOneMeans(t, o, req);
    ActAdvances(t, o, req);
    var act := Act(t, o, req);
    if act.result.NothingQueued? {
      RecordGrows(t, After(t, o, req), o, OperationRow(req, act.result));
    } else {
      GrowsFrom(t, After(t, o, req), act.result.session);
    }
  }

  // ------------------------------------------------------------- steps and runs

  /** A call either leaves the durable tables alone or commits its action once, under its own identity. */
  lemma StepCases(t: Tables, call: Call)
    requires Sound(t) && TaskConstraints(t)
    ensures Transact(t, call).0 == t
            || (call.operation !in t.operations && ArgumentsAcceptable(call.request)
                && Act(t, call.operation, call.request).Done?
                && Transact(t, call).0 == After(t, call.operation, call.request))
  {
    hide Sound, Act, ArgumentsAcceptable, TaskConstraints, Record, Transact, Attempted;
    AuditsNeverReject(t, call);
  }

  lemma StepGrows(t: Tables, call: Call)
    requires Sound(t) && TaskConstraints(t)
    ensures Grows(t, Transact(t, call).0)
  {
    hide *;
    StepCases(t, call);
    if Transact(t, call).0 == t {
      GrowsReflexive(t);
    } else {
      ActGrows(t, call.operation, call.request);
    }
  }

  lemma RunUnfolds(calls: seq<Call>, call: Call)
    ensures Reached(calls + [call]) == Transact(Reached(calls), call).0
  {
    hide Transact, Sound, TaskConstraints;
    FreshIsSound();
    SoundMeans(Fresh());
    assert (calls + [call])[..|calls|] == calls;
  }

  /** Later in a run, everything earlier is still there, and every session row only moved forward. */
  lemma {:induction false} HistoryIsPermanent(calls: seq<Call>, more: seq<Call>)
    ensures Grows(Reached(calls), Reached(calls + more))
    decreases |more|
  {
    hide Grows, Reached, Transact;
    if more == [] {
      assert calls + more == calls;
      GrowsReflexive(Reached(calls));
    } else {
      var last := |more| - 1;
      var before := calls + more[..last];
      assert calls + more == before + [more[last]];
      HistoryIsPermanent(calls, more[..last]);
      RunUnfolds(before, more[last]);
      StepGrows(Reached(before), more[last]);
      GrowsTransitive(Reached(calls), Reached(before), Reached(calls + more));
    }
  }
}
