/** First-in, first-out finalization: what can overtake a queued task, and how often. */
module JournalQueue {
  import opened Wrappers
  import opened JournalTypes
  import opened JournalTables
  import opened JournalSpec
  import opened JournalInvariant
  import opened JournalPreserve
  import opened JournalPreserveTasks
  import opened JournalRuns
  import opened JournalHistory
  import opened JournalGuarantees

  predicate QueuedAt(t: Tables, s: Id, p: nat) {
    s in t.tasks && t.tasks[s].state == Queued && t.tasks[s].queueOrder == p
  }

  /** The queued tasks that come before position `p`. */
  ghost function Ahead(t: Tables, p: nat): set<Id> {
    set s | s in t.tasks && t.tasks[s].state == Queued && t.tasks[s].queueOrder < p
  }

  /** A claim takes a task that no other queued task precedes, and only when nothing runs. */
  lemma ClaimTakesOldest(t: Tables, o: Id, token: Id)
    requires TaskConstraints(t) && Act(t, o, ClaimNext(token)).Done?
    ensures var act := Act(t, o, ClaimNext(token));
            if act.result.NothingQueued? then AnyRunning(t) || !exists s :: OldestQueued(t, s)
            else OldestQueued(t, act.result.session) && !AnyRunning(t)
                 && act.result.session in act.next.tasks
                 && act.next.tasks[act.result.session].state == Running
                 && act.next.tasks[act.result.session].token == Some(token)
  {
  }

  lemma RetryAppends(t: Tables, o: Id, req: Request)
    requires QueueConstraints(t) && TaskConstraints(t) && req.RetryFailed?
    requires DoRetryFailed(t, o, req.sid, req.revision, req.attempt, req.token, req.exit).Done?
    ensures var next := DoRetryFailed(t, o, req.sid, req.revision, req.attempt, req.token, req.exit).next;
            && QueuedAt(next, req.sid, next.queueSeq)
            && (forall p | p in t.queue :: p < next.queueSeq)
            && (forall x | x in t.tasks :: t.tasks[x].queueOrder < next.queueSeq)
  {
  }

  /** A retry is queued behind every position ever granted. */
  lemma RetryGoesToTail(t: Tables, o: Id, req: Request)
    requires Sound(t) && TaskConstraints(t) && req.RetryFailed? && Act(t, o, req).Done?
    ensures var next := Act(t, o, req).next;
            && QueuedAt(next, req.sid, next.queueSeq)
            && (forall p | p in t.queue :: p < next.queueSeq)
            && (forall x | x in t.tasks :: t.tasks[x].queueOrder < next.queueSeq)
  {
    hide *;
    SoundMeans(t);
    SchemaMeans(t);
    ActCases(t, o, req);
    RetryAppends(t, o, req);
  }

  /** The touched session can only be newly queued at the tail. */
  lemma QueuedHere(t: Tables, o: Id, req: Request)
    requires TaskConstraints(t) && Act(t, o, req).Done? && !Act(t, o, req).result.NothingQueued?
    requires req.Reserve? ==> Act(t, o, req).next.tasks == t.tasks
    ensures var s, u := Act(t, o, req).result.session, Act(t, o, req).next;
            s in u.tasks && u.tasks[s].state == Queued ==>
              (s in t.tasks && u.tasks[s] == t.tasks[s]) || u.tasks[s].queueOrder == t.queueSeq + 1
  {
  }

  lemma ReserveKeepsTasks(t: Tables, o: Id, req: Request)
    requires TaskConstraints(t) && req.Reserve? && Act(t, o, req).Done?
    ensures Act(t, o, req).next.tasks == t.tasks
  {
  }

  lemma AfterTasks(t: Tables, o: Id, req: Request)
    requires TaskConstraints(t) && Act(t, o, req).Done?
    ensures After(t, o, req).tasks == Act(t, o, req).next.tasks
  {
    hide Act;
  }

  lemma ElsewhereTasks(t: Tables, u: Tables, s: Id)
    requires Elsewhere(t, u, s)
    ensures forall x | x != s :: (x in u.tasks <==> x in t.tasks) && (x in t.tasks ==> u.tasks[x] == t.tasks[x])
  {
  }

  /** No mutation puts anything in front of a position already granted. */
  lemma NothingCutsIn(t: Tables, o: Id, req: Request, p: nat)
    requires Sound(t) && o !in t.operations && TaskConstraints(t) && Act(t, o, req).Done? && p <= t.queueSeq
    ensures Ahead(After(t, o, req), p) <= Ahead(t, p)
  {
    hide Sound, TaskConstraints, Act, After, Elsewhere;
    ActKeepsSound(t, o, req);
    TouchesOneMeans(t, o, req);
    AfterTasks(t, o, req);
    if !Act(t, o, req).result.NothingQueued? {
      if req.Reserve? { ReserveKeepsTasks(t, o, req); }
      QueuedHere(t, o, req);
      ElsewhereTasks(t, After(t, o, req), Act(t, o, req).result.session);
    }
  }

  /** A committed claim of some other task while `s` waits at `p`. */
  ghost predicate OvertakesAt(t: Tables, call: Call, s: Id, p: nat)
    requires Sound(t) && TaskConstraints(t)
  {
    && QueuedAt(t, s, p) && call.request.ClaimNext? && Transact(t, call).0 != t
    && var u := Transact(t, call).0;
    && call.operation in u.operations && u.operations[call.operation].result.AttemptResult?
    && u.operations[call.operation].result.session != s
  }

  ghost function Overtakes(calls: seq<Call>, more: seq<Call>, s: Id, p: nat): nat
    decreases |more|
  {
    if more == [] then 0
    else
      var last := |more| - 1;
      Overtakes(calls, more[..last], s, p)
      + if OvertakesAt(Reached(calls + more[..last]), more[last], s, p) then 1 else 0
  }

  lemma AttemptIsNotNothing(t: Tables, o: Id, req: Request)
    requires TaskConstraints(t) && Act(t, o, req).Done?
    ensures After(t, o, req).operations[o].result == Act(t, o, req).result
  {
    hide Act;
  }

  lemma OldestIsAhead(t: Tables, x: Id, s: Id, p: nat)
    requires TaskConstraints(t) && OldestQueued(t, x) && QueuedAt(t, s, p) && x != s
    ensures x in Ahead(t, p)
  {
  }

  /** Each overtaking claim permanently uses up one task from ahead of the waiting one. */
  lemma OvertakingUsesUpAhead(t: Tables, call: Call, s: Id, p: nat)
    requires Sound(t) && TaskConstraints(t) && p <= t.queueSeq && OvertakesAt(t, call, s, p)
    ensures |Ahead(Transact(t, call).0, p)| + 1 <= |Ahead(t, p)|
  {
    hide Sound, TaskConstraints, Act, After, Transact, Ahead, OldestQueued;
    StepCases(t, call);
    var o, req := call.operation, call.request;
    var u := After(t, o, req);
    AttemptIsNotNothing(t, o, req);
    ClaimTakesOldest(t, o, req.token);
    var x := Act(t, o, req).result.session;
    OldestIsAhead(t, x, s, p);
    NothingCutsIn(t, o, req, p);
    AfterTasks(t, o, req);
    RunningIsNotAhead(u, x, p);
    Smaller(Ahead(u, p), Ahead(t, p), x);
  }

  lemma RunningIsNotAhead(u: Tables, x: Id, p: nat)
    requires x in u.tasks && u.tasks[x].state == Running
    ensures x !in Ahead(u, p)
  {
  }

  lemma Smaller(a: set<Id>, b: set<Id>, x: Id)
    requires a <= b && x in b && x !in a
    ensures |a| + 1 <= |b|
  {
    assert a <= b - {x};
    SubsetSize(a, b - {x});
  }

  lemma SubsetSize(a: set<Id>, b: set<Id>)
    requires a <= b
    ensures |a| <= |b|
  {
    assert b == a + (b - a);
  }

  lemma StepAhead(t: Tables, call: Call, p: nat)
    requires Sound(t) && TaskConstraints(t) && p <= t.queueSeq
    ensures |Ahead(Transact(t, call).0, p)| <= |Ahead(t, p)|
  {
    hide Sound, TaskConstraints, Act, After, Transact, Ahead;
    StepCases(t, call);
    if Transact(t, call).0 != t {
      NothingCutsIn(t, call.operation, call.request, p);
      SubsetSize(Ahead(Transact(t, call).0, p), Ahead(t, p));
    }
  }

  lemma PositionsStayGranted(t: Tables, u: Tables)
    requires Grows(t, u)
    ensures t.queueSeq <= u.queueSeq
  {
  }

  /** Bounded overtaking: however a run goes on, the claims that pass over a task queued at `p`
      are at most the tasks that were queued ahead of `p`. */
  lemma {:induction false} OvertakingIsBounded(calls: seq<Call>, more: seq<Call>, s: Id, p: nat)
    requires p <= Reached(calls).queueSeq
    ensures Overtakes(calls, more, s, p) + |Ahead(Reached(calls + more), p)| <= |Ahead(Reached(calls), p)|
    ensures p <= Reached(calls + more).queueSeq
    decreases |more|
  {
    hide Reached, Ahead, Transact, OvertakesAt, Grows, Sound, TaskConstraints;
    if more == [] {
      assert calls + more == calls;
    } else {
      var last := |more| - 1;
      var before := calls + more[..last];
      OvertakingIsBounded(calls, more[..last], s, p);
      assert calls + more == before + [more[last]];
      RunUnfolds(before, more[last]);
      HistoryIsPermanent(calls, more);
      PositionsStayGranted(Reached(calls), Reached(calls + more));
      if OvertakesAt(Reached(before), more[last], s, p) {
        OvertakingUsesUpAhead(Reached(before), more[last], s, p);
      } else {
        StepAhead(Reached(before), more[last], p);
      }
    }
  }

  lemma FirstIsOldest(t: Tables, s: Id, p: nat)
    requires TaskConstraints(t) && QueuedAt(t, s, p) && Ahead(t, p) == {}
    ensures OldestQueued(t, s) && forall x | OldestQueued(t, x) :: x == s
  {
    assert forall x | x in t.tasks && t.tasks[x].state == Queued :: x !in Ahead(t, p);
  }

  lemma ClaimIsOfOldest(t: Tables, token: Id, s: Id)
    requires TaskConstraints(t) && OldestQueued(t, s) && (forall x | OldestQueued(t, x) :: x == s) && !AnyRunning(t)
    ensures s in t.tasks && s in t.sessions && DoClaimNext(t, token) == Claimed(t, s, token)
  {
  }

  /** With nothing ahead of it and nothing running, a queued task is the one a fresh attempt token claims. */
  lemma NextInLineIsClaimed(t: Tables, o: Id, token: Id, s: Id, p: nat)
    requires Sound(t) && TaskConstraints(t) && QueuedAt(t, s, p) && Ahead(t, p) == {} && !AnyRunning(t)
    requires !TokenTaken(t, token, s, t.tasks[s].attempt + 1)
    ensures var act := Act(t, o, ClaimNext(token));
            act.Done? && act.result == AttemptResult(s, t.tasks[s].revision + 1, t.tasks[s].attempt + 1, token)
  {
    hide Sound, TaskConstraints, OldestQueued, AnyRunning, Ahead, Act, DoClaimNext;
    FirstIsOldest(t, s, p);
    ClaimIsOfOldest(t, token, s);
    ActCases(t, o, ClaimNext(token));
  }
}
