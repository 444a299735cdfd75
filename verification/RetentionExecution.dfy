/** One destructive retention operation, with a fault or a crash possible at every step. */
module RetentionExecution {
  import opened Wrappers
  import opened RetentionHistory
  import opened RetentionSteps

  /** Everything removed had its attempt, behind the operation's intent, durably recorded first. */
  ghost predicate BackedBy(operation: Operation, order: seq<Artifact>, start: nat, journal: seq<Event>,
                           durable: nat, removed: seq<Path>, backed: seq<nat>)
  {
    && |removed| == |backed| <= |order| && start < durable <= |journal|
    && journal[start] == Intent(operation, order)
    && forall i | 0 <= i < |removed| ::
         && removed[i] == order[i].path && start < backed[i] - 1 < durable
         && journal[backed[i] - 1] == Attempt(operation, order[i].path)
  }

  /** The journal only grew, and only by this operation's lines. */
  predicate Extends(operation: Operation, journal: seq<Event>, longer: seq<Event>) {
    journal <= longer && forall k | |journal| <= k < |longer| :: longer[k].operation == operation
  }

  lemma ExtendsItself(operation: Operation, journal: seq<Event>)
    ensures Extends(operation, journal, journal)
  {
  }

  lemma ExtendsOn(operation: Operation, a: seq<Event>, b: seq<Event>, c: seq<Event>)
    requires Extends(operation, a, b) && Extends(operation, b, c)
    ensures Extends(operation, a, c)
  {
  }

  function Gone(removed: seq<Path>): set<Path> { set p | p in removed }

  lemma GoneSnoc(before: set<Path>, removed: seq<Path>, path: Path)
    ensures before - Gone(removed + [path]) == before - Gone(removed) - {path}
  {
  }

  class RetentionExecutor {
    var journal: seq<Event>
    var durable: nat
    var disk: set<Path>

    var intentAttempted: bool
    var intentSyncStarted: bool
    var intentDurable: bool
    var completedDurable: bool
    var deletedCount: nat
    var removalUncertain: bool
    var auditUncertain: bool
    var operationError: Option<nat>

    /** The removals of this operation, each with how much of the journal was durable before it. */
    ghost var removed: seq<Path>
    ghost var backed: seq<nat>

    constructor (journal: seq<Event>, disk: set<Path>)
      ensures this.journal == journal && this.disk == disk && durable == |journal|
      ensures removed == [] && backed == [] && !completedDurable && !intentSyncStarted && !intentDurable && deletedCount == 0
      ensures !removalUncertain && operationError.None?
    {
      this.journal, this.disk, this.durable := journal, disk, |journal|;
      intentAttempted, intentSyncStarted, intentDurable, completedDurable := false, false, false, false;
      deletedCount, removalUncertain, auditUncertain, operationError := 0, false, false, None;
      removed, backed := [], [];
    }

    ghost function Stored(): Storage
      reads `journal, `durable, `disk
    {
      Storage(journal, durable, disk)
    }

    /** The acceptor has seen exactly the operation's intent and `k` whole deletions. */
    ghost predicate At(operation: Operation, order: seq<Artifact>, k: nat, pending: bool)
      requires k <= |order| && (pending ==> k < |order|)
      reads `journal
    {
      var h := AcceptAll(journal);
      && h.Some? && h.value.latest == Some(operation) && operation in h.value.operations
      && h.value.operations[operation] ==
         Progress(order, k, if pending then Some(order[k].path) else None,
                  if pending || k == 0 then None else Some(order[k - 1].path), false)
    }

    /** A failure of the artifact at `k` can still be reported. */
    ghost predicate CanFail(operation: Operation, path: Path)
      reads `journal
    {
      Accepted(journal) && Next(AcceptAll(journal).value, Failed(operation, path)).Some?
    }

    ghost predicate Backed(operation: Operation, order: seq<Artifact>, start: nat)
      reads `journal, `durable, `removed, `backed
    {
      BackedBy(operation, order, start, journal, durable, removed, backed)
    }

    method Append(e: Event, fate: Fate)
      modifies `journal, `durable
      ensures Stored() == WithLine(old(Stored()), e, fate)
    {
      if fate.done { journal := journal + [e]; }
      if fate.synced { durable := |journal|; }
    }

    method Remove(path: Path, fate: Fate)
      modifies `disk, `removed, `backed
      ensures if fate.done
              then disk == old(disk) - {path} && removed == old(removed) + [path] && backed == old(backed) + [durable]
              else disk == old(disk) && removed == old(removed) && backed == old(backed)
    {
      if fate.done {
        disk := disk - {path};
        removed, backed := removed + [path], backed + [durable];
      }
    }

    /** Check, record the attempt durably, and check again. */
    method Attempting(operation: Operation, order: seq<Artifact>, k: nat, fate: nat -> Fate) returns (stop: Option<nat>)
      requires k < |order| && At(operation, order, k, false) && durable == |journal|
      modifies `journal, `durable, `auditUncertain
      ensures stop == FirstStop(fate, 5 * k + 1, 5 * k + 3)
      ensures Stored() == Steps(operation, order, fate, old(Stored()), 5 * k + 1, Through(stop, 5 * k + 4))
      ensures Extends(operation, old(journal), journal) && old(durable) <= durable <= |journal| && CanFail(operation, order[k].path)
      ensures stop.None? ==> At(operation, order, k, true) && durable == |journal| == |old(journal)| + 1
                             && journal[|old(journal)|] == Attempt(operation, order[k].path)
    {
      hide AcceptAll, FirstStop, Steps, Step, Line, Destructive;
      var path, base := order[k].path, 5 * k;
      StopsIn(fate, base + 1, 2);
      ArtifactSteps(operation, order, fate, Stored(), k);
      if fate(base + 1).ending != Returns { return Some(base + 1); }
      AcceptSnoc(journal, Attempt(operation, path));
      Append(Attempt(operation, path), fate(base + 2));
      if fate(base + 2).ending != Returns {
        auditUncertain := true;
        return Some(base + 2);
      }
      if fate(base + 3).ending != Returns { return Some(base + 3); }
      return None;
    }

    /** Remove the artifact and record that it is gone. */
    method Removing(operation: Operation, order: seq<Artifact>, k: nat, fate: nat -> Fate) returns (stop: Option<nat>)
      requires k < |order| && At(operation, order, k, true) && durable == |journal| && |removed| == deletedCount == k
      modifies `journal, `durable, `auditUncertain, `removalUncertain, `deletedCount, `disk, `removed, `backed
      ensures stop == FirstStop(fate, 5 * k + 4, 5 * k + 5)
      ensures Stored() == Steps(operation, order, fate, old(Stored()), 5 * k + 4, Through(stop, 5 * k + 6))
      ensures Extends(operation, old(journal), journal) && old(durable) <= durable <= |journal|
      ensures stop.Some? ==> CanFail(operation, order[k].path)
      ensures stop.None? ==> At(operation, order, k + 1, false) && durable == |journal| && |removed| == deletedCount == k + 1
                             && !removalUncertain
      ensures deletedCount <= |removed| <= deletedCount + if removalUncertain then 1 else 0
      ensures if fate(5 * k + 4).done
              then disk == old(disk) - {order[k].path} && removed == old(removed) + [order[k].path]
                   && backed == old(backed) + [|old(journal)|]
              else disk == old(disk) && removed == old(removed) && backed == old(backed)
    {
      hide AcceptAll, FirstStop, Steps, Step, Line, Destructive;
      var path, base := order[k].path, 5 * k;
      StopsIn(fate, base + 4, 1);
      RemovalSteps(operation, order, fate, Stored(), k);
      removalUncertain := true;
      Remove(path, fate(base + 4));
      if fate(base + 4).ending != Returns { return Some(base + 4); }
      removalUncertain := false;
      deletedCount := deletedCount + 1;
      AcceptSnoc(journal, Deleted(operation, path));
      Append(Deleted(operation, path), fate(base + 5));
      if fate(base + 5).ending != Returns {
        auditUncertain := true;
        return Some(base + 5);
      }
      return None;
    }

    /** Everything about one operation that holds between its steps. */
    ghost predicate Sane(operation: Operation, order: seq<Artifact>, start: nat, before: set<Path>)
      reads this
    {
      && Accepted(journal) && Backed(operation, order, start)
      && disk == before - Gone(removed)
      && deletedCount <= |removed| <= deletedCount + if removalUncertain then 1 else 0
    }

    method ReportFailure(operation: Operation, path: Path, fate: Fate)
      requires CanFail(operation, path) && durable <= |journal|
      modifies `journal, `durable, `auditUncertain
      ensures Stored() == WithLine(old(Stored()), Failed(operation, path), fate)
      ensures Accepted(journal) && Extends(operation, old(journal), journal) && old(durable) <= durable <= |journal|
    {
      hide AcceptAll, Next;
      AcceptSnoc(journal, Failed(operation, path));
      Append(Failed(operation, path), fate);
      if fate.ending != Returns { auditUncertain := true; }
    }

    /** One artifact of the order; a failure is reported once, by a line that may itself fail. */
    method RemoveArtifact(operation: Operation, order: seq<Artifact>, k: nat, fate: nat -> Fate, onFailure: Fate,
                          ghost start: nat, ghost before: set<Path>)
      returns (stop: Option<nat>)
      requires k < |order| && Sane(operation, order, start, before) && At(operation, order, k, false)
      requires durable == |journal| && |removed| == deletedCount == k
      modifies `journal, `durable, `auditUncertain, `removalUncertain, `deletedCount, `disk, `removed, `backed
      ensures stop == FirstStop(fate, 5 * k + 1, 5 * k + 5)
      ensures Stored() == Reported(operation, order, fate, onFailure, stop,
                                   Steps(operation, order, fate, old(Stored()), 5 * k + 1, Through(stop, 5 * k + 6)))
      ensures Sane(operation, order, start, before) && Extends(operation, old(journal), journal)
      ensures old(durable) <= durable <= |journal|
      ensures stop.None? ==> At(operation, order, k + 1, false) && durable == |journal| && |removed| == deletedCount == k + 1
                             && !removalUncertain
    {
      hide *;
      var path := order[k].path;
      SplitStops(fate, 5 * k + 1, 5 * k + 3, 5 * k + 5);
      ghost var first, d1, r, b := journal, durable, removed, backed;
      ghost var s := Stored();
      StepsThrough(operation, order, fate, s, 5 * k + 1, 5 * k + 3, 5 * k + 5);
      SaneMeans(operation, order, start, before);
      stop := Attempting(operation, order, k, fate);
      BackedLonger(operation, order, start, first, d1, journal, durable, r, b);
      if stop.None? {
        BackedNext(operation, order, start, journal, r, b);
        GoneSnoc(before, r, path);
        ghost var second, d2 := journal, durable;
        stop := Removing(operation, order, k, fate);
        ExtendsOn(operation, first, second, journal);
        BackedLonger(operation, order, start, second, d2, journal, durable, removed, backed);
      }
      ReportedIs(operation, order, fate, onFailure, stop, Stored(), k);
      if stop.Some? {
        if fate(stop.value).ending == Raises {
          ghost var third, d3 := journal, durable;
          ReportFailure(operation, path, onFailure);
          ExtendsOn(operation, first, third, journal);
          BackedLonger(operation, order, start, third, d3, journal, durable, removed, backed);
        } else {
          CanFailIsAccepted(operation, path);
        }
      } else {
        AtIsAccepted(operation, order, k + 1);
      }
      IsSane(operation, order, start, before);
    }

    ghost predicate Idle()
      reads this
    {
      durable == |journal| && removed == [] && backed == [] && deletedCount == 0 && operationError.None?
      && !intentSyncStarted && !intentDurable && !completedDurable && !removalUncertain
    }

    /** The intent is durable before any artifact is even attempted. */
    method Intend(operation: Operation, order: seq<Artifact>, fate: Fate) returns (ok: bool)
      requires Idle() && Accepted(journal) && Destructive(order) && operation !in AcceptAll(journal).value.operations
      modifies `journal, `durable, `intentAttempted, `intentSyncStarted, `intentDurable, `auditUncertain
      ensures Stored() == WithLine(old(Stored()), Intent(operation, order), fate)
      ensures ok == (fate.ending == Returns) && intentSyncStarted == fate.syncStarted && intentDurable == fate.told
      ensures Accepted(journal) && Extends(operation, old(journal), journal) && old(durable) <= durable <= |journal|
      ensures ok ==> At(operation, order, 0, false) && durable == |journal| && intentDurable && intentSyncStarted
                     && BackedBy(operation, order, |old(journal)|, journal, durable, removed, backed)
    {
      hide AcceptAll;
      intentAttempted := true;
      AcceptSnoc(journal, Intent(operation, order));
      Append(Intent(operation, order), fate);
      intentSyncStarted, intentDurable := fate.syncStarted, fate.told;
      if fate.ending != Returns { auditUncertain := true; }
      return fate.ending == Returns;
    }

    /** Completion is published only once it is durable. */
    method Complete(operation: Operation, order: seq<Artifact>, fate: Fate) returns (ok: bool)
      requires At(operation, order, |order|, false) && durable == |journal| && deletedCount == |order|
      modifies `journal, `durable, `completedDurable, `auditUncertain
      ensures Stored() == WithLine(old(Stored()), Completed(operation, |order|), fate)
      ensures ok == (fate.ending == Returns) && (ok ==> fate.told) && Accepted(journal)
      ensures Extends(operation, old(journal), journal) && old(durable) <= durable <= |journal|
      ensures completedDurable == (old(completedDurable) || fate.told)
      ensures fate.told ==> journal == old(journal) + [Completed(operation, |order|)] && durable == |journal|
    {
      hide AcceptAll;
      AcceptSnoc(journal, Completed(operation, deletedCount));
      Append(Completed(operation, deletedCount), fate);
      if fate.told { completedDurable := true; }
      if fate.ending != Returns { auditUncertain := true; }
      return fate.ending == Returns;
    }

    /** The artifacts in their authorized order, up to the first one that does not go through. */
    method RemoveAll(operation: Operation, order: seq<Artifact>, fate: nat -> Fate, onFailure: Fate,
                     ghost start: nat, ghost before: set<Path>)
      returns (stop: Option<nat>)
      requires Sane(operation, order, start, before) && At(operation, order, 0, false)
      requires durable == |journal| && |removed| == deletedCount == 0 && !removalUncertain
      modifies `journal, `durable, `auditUncertain, `removalUncertain, `deletedCount, `disk, `removed, `backed
      ensures stop == FirstStop(fate, 1, 5 * |order|)
      ensures Stored() == Reported(operation, order, fate, onFailure, stop,
                                   Steps(operation, order, fate, old(Stored()), 1, Through(stop, 5 * |order| + 1)))
      ensures Sane(operation, order, start, before) && Extends(operation, old(journal), journal)
      ensures old(durable) <= durable <= |journal|
      ensures stop.None? ==> At(operation, order, |order|, false) && durable == |journal|
                             && |removed| == deletedCount == |order|
    {
      hide *;
      var k := 0;
      NoStops(fate, 1);
      ExtendsItself(operation, journal);
      StepsNone(operation, order, fate, Stored(), 1);
      while k < |order|
        invariant 0 <= k <= |order| && FirstStop(fate, 1, 5 * k).None?
        invariant Sane(operation, order, start, before) && Extends(operation, old(journal), journal) && old(durable) <= durable
        invariant At(operation, order, k, false) && durable == |journal| && |removed| == deletedCount == k
        invariant Stored() == Steps(operation, order, fate, old(Stored()), 1, 5 * k + 1)
      {
        ghost var earlier := journal;
        StepsThrough(operation, order, fate, old(Stored()), 1, 5 * k, 5 * k + 5);
        StepsThrough(operation, order, fate, old(Stored()), 1, 5 * k + 5, 5 * |order|);
        ThroughIs(None, 5 * k + 1);
        stop := RemoveArtifact(operation, order, k, fate, onFailure, start, before);
        ExtendsOn(operation, old(journal), earlier, journal);
        SplitStops(fate, 1, 5 * k, 5 * k + 5);
        if stop.Some? {
          SplitStops(fate, 1, 5 * k + 5, 5 * |order|);
          ThroughIs(stop, 5 * k + 6);
          ThroughIs(stop, 5 * |order| + 1);
          return;
        }
        ThroughIs(None, 5 * k + 6);
        NotReported(operation, order, fate, onFailure, None, Steps(operation, order, fate, old(Stored()), 1, 5 * k + 6));
        k := k + 1;
      }
      ThroughIs(None, 5 * |order| + 1);
      NotReported(operation, order, fate, onFailure, None, Stored());
      return None;
    }

    /** Everything is removed: publish the completion. */
    method Conclude(operation: Operation, order: seq<Artifact>, fate: Fate, ghost journal0: seq<Event>, ghost disk0: set<Path>)
      returns (ok: bool)
      requires At(operation, order, |order|, false) && Extends(operation, journal0, journal)
      requires BackedBy(operation, order, |journal0|, journal, durable, removed, backed) && disk == disk0 - Gone(removed)
      requires |journal0| <= durable == |journal| && |removed| == deletedCount == |order|
      requires !completedDurable && intentDurable && intentSyncStarted
      modifies `journal, `durable, `completedDurable, `auditUncertain
      ensures Stored() == WithLine(old(Stored()), Completed(operation, |order|), fate)
      ensures ok == (fate.ending == Returns) && (ok ==> completedDurable) && Leaves(operation, order, journal0, disk0)
    {
      hide *;
      ghost var second, d := journal, durable;
      ok := Complete(operation, order, fate);
      ExtendsOn(operation, journal0, second, journal);
      BackedLonger(operation, order, |journal0|, second, d, journal, durable, removed, backed);
      LeftBegun(operation, order, journal0, disk0);
    }

    /** Behind a durable intent: the removals, then the completion. */
    method CarryOut(operation: Operation, order: seq<Artifact>, fate: nat -> Fate, onFailure: Fate,
                    ghost journal0: seq<Event>, ghost disk0: set<Path>)
      returns (stop: Option<nat>)
      requires At(operation, order, 0, false) && Sane(operation, order, |journal0|, disk0)
      requires Extends(operation, journal0, journal) && |journal0| <= durable == |journal| && |removed| == deletedCount == 0
      requires !removalUncertain && !completedDurable && intentDurable && intentSyncStarted
      modifies `journal, `durable, `auditUncertain, `removalUncertain, `deletedCount, `disk, `removed, `backed,
               `completedDurable
      ensures stop == FirstStop(fate, 1, 5 * |order| + 1)
      ensures Stored() == Reported(operation, order, fate, onFailure, stop,
                                   Steps(operation, order, fate, old(Stored()), 1, Through(stop, 5 * |order| + 2)))
      ensures Leaves(operation, order, journal0, disk0)
      ensures stop.None? ==> completedDurable
    {
      hide *;
      var n := |order|;
      SplitStops(fate, 1, 5 * n, 5 * n + 1);
      StopsIn(fate, 5 * n + 1, 0);
      ghost var first := journal;
      StepsThrough(operation, order, fate, Stored(), 1, 5 * n, 5 * n + 1);
      stop := RemoveAll(operation, order, fate, onFailure, |journal0|, disk0);
      ExtendsOn(operation, journal0, first, journal);
      SaneMeans(operation, order, |journal0|, disk0);
      if stop.Some? {
        LeftBegun(operation, order, journal0, disk0);
        ThroughIs(stop, 5 * n + 1);
        ThroughIs(stop, 5 * n + 2);
        return;
      }
      ThroughIs(None, 5 * n + 1);
      NotReported(operation, order, fate, onFailure, None, Steps(operation, order, fate, old(Stored()), 1, 5 * n + 1));
      OuterSteps(operation, order, fate, Stored());
      var ok := Conclude(operation, order, fate(5 * n + 1), journal0, disk0);
      stop := if ok then None else Some(5 * n + 1);
      ThroughIs(stop, 5 * n + 2);
      NotReported(operation, order, fate, onFailure, stop, Stored());
    }

    /** Intent, removals, completion, up to the first step that does not go through. */
    method Perform(operation: Operation, order: seq<Artifact>, fate: nat -> Fate, onFailure: Fate) returns (stop: Option<nat>)
      requires Idle() && Accepted(journal) && Destructive(order) && operation !in AcceptAll(journal).value.operations
      modifies this
      ensures stop == FirstStop(fate, 0, 5 * |order| + 1) && operationError.None?
      ensures Stored() == Performed(operation, order, fate, onFailure, old(Stored()))
      ensures Leaves(operation, order, old(journal), old(disk))
      ensures stop.None? ==> completedDurable
    {
      hide *;
      PerformedIs(operation, order, fate, onFailure, Stored());
      ghost var journal0, disk0 := journal, disk;
      SplitStops(fate, 0, 0, 5 * |order| + 1);
      StopsIn(fate, 0, 0);
      NothingRemoved(disk0);
      OuterSteps(operation, order, fate, Stored());
      StepsThrough(operation, order, fate, Stored(), 0, 0, 5 * |order| + 1);
      var ok := Intend(operation, order, fate(0));
      if !ok {
        LeftUnbegun(operation, order, journal0, disk0);
        ThroughIs(Some(0), 1);
        ThroughIs(Some(0), 5 * |order| + 2);
        NotReported(operation, order, fate, onFailure, Some(0), Stored());
        return Some(0);
      }
      ThroughIs(None, 1);
      IsSane(operation, order, |journal0|, disk0);
      stop := CarryOut(operation, order, fate, onFailure, journal0, disk0);
    }

    /** What an operation leaves, however it ended: a coherent journal that only grew; removals that
        are a prefix of the authorized order, each behind its durable intent and attempt; progress
        that never claims too much. */
    ghost predicate Leaves(operation: Operation, order: seq<Artifact>, journal0: seq<Event>, disk0: set<Path>)
      reads `journal, `durable, `disk, `removed, `backed, `intentSyncStarted, `intentDurable, `completedDurable,
            `deletedCount, `removalUncertain
    {
      && Accepted(journal) && Extends(operation, journal0, journal) && |journal0| <= durable <= |journal|
      && |removed| <= |order| && removed == PathsOf(order)[..|removed|] && disk == disk0 - Gone(removed)
      && (removed != [] ==> intentDurable && BackedBy(operation, order, |journal0|, journal, durable, removed, backed))
      && deletedCount <= |removed| <= deletedCount + (if removalUncertain then 1 else 0)
      && (intentDurable ==> intentSyncStarted)
      && (completedDurable ==> |removed| == |order| && durable == |journal| > 0
                               && journal[|journal| - 1] == Completed(operation, |order|))
    }

    lemma NothingRemoved(before: set<Path>)
      requires Idle() && disk == before
      ensures durable == |journal| && removed == [] && backed == [] && deletedCount == 0 && operationError.None?
      ensures !intentSyncStarted && !intentDurable && !completedDurable && !removalUncertain
      ensures disk == before - Gone(removed)
    {
    }

    lemma LeftUnbegun(operation: Operation, order: seq<Artifact>, journal0: seq<Event>, disk0: set<Path>)
      requires Accepted(journal) && Extends(operation, journal0, journal) && |journal0| <= durable <= |journal|
      requires removed == [] && deletedCount == 0 && !completedDurable && disk == disk0 - Gone(removed)
      requires intentDurable ==> intentSyncStarted
      ensures Leaves(operation, order, journal0, disk0)
    {
    }

    lemma LeftBegun(operation: Operation, order: seq<Artifact>, journal0: seq<Event>, disk0: set<Path>)
      requires Accepted(journal) && Extends(operation, journal0, journal) && |journal0| <= durable <= |journal|
      requires BackedBy(operation, order, |journal0|, journal, durable, removed, backed) && disk == disk0 - Gone(removed)
      requires deletedCount <= |removed| <= deletedCount + (if removalUncertain then 1 else 0)
      requires intentDurable && intentSyncStarted
      requires completedDurable ==> |removed| == |order| && durable == |journal| > 0
                                    && journal[|journal| - 1] == Completed(operation, |order|)
      ensures Leaves(operation, order, journal0, disk0)
    {
      hide AcceptAll;
    }

    /** One operation: read the history, perform, keep the first fault, close the journal. */
    method Execute(operation: Operation, order: seq<Artifact>, fate: nat -> Fate, onFailure: Fate) returns (outcome: Outcome)
      requires Idle() && Destructive(order)
      requires Accepted(journal) ==> operation !in AcceptAll(journal).value.operations
      modifies this
      ensures outcome == Refused <==> !Accepted(old(journal))
      ensures outcome == Refused ==> journal == old(journal) && disk == old(disk) && removed == []
      ensures outcome != Refused ==>
                outcome == Ends(order, fate, onFailure) && Stored() == Performed(operation, order, fate, onFailure, old(Stored()))
      ensures outcome != Refused ==> Leaves(operation, order, old(journal), old(disk))
      ensures outcome == Done ==> completedDurable
      ensures outcome == Done <==> Accepted(old(journal)) && forall s | 0 <= s <= LastStep(|order|) :: fate(s).ending == Returns
      ensures outcome == Raised ==>
                && operationError.Some? && operationError.value <= LastStep(|order|)
                && fate(operationError.value).ending == Raises
                && forall s | 0 <= s < operationError.value :: fate(s).ending == Returns
      ensures outcome == Died ==> onFailure.ending == Dies || exists s | 0 <= s <= LastStep(|order|) :: fate(s).ending == Dies
    {
      hide AcceptAll, Accepted, Idle, Leaves, BackedBy, FirstStop, Destructive, Next, Performed;
      var ok := ValidateHistory(journal);
      if !ok {
        NothingRemoved(disk);
        return Refused;
      }
      var stop := Perform(operation, order, fate, onFailure);
      var n := |order|;
      if stop.Some? {
        if fate(stop.value).ending == Dies || (1 <= stop.value <= 5 * n && onFailure.ending == Dies) { return Died; }
        operationError := stop;
      }
      match fate(5 * n + 2).ending {
        case Dies => return Died;
        case Raises =>
          if operationError.None? { operationError := Some(5 * n + 2); }
          return Raised;
        case Returns =>
          return if operationError.None? then Done else Raised;
      }
    }

    lemma Survives(operation: Operation, order: seq<Artifact>, journal0: seq<Event>, disk0: set<Path>, kept: nat,
                   outcome: Outcome)
      requires outcome == Refused ==> !Accepted(journal0) && journal == journal0 && disk == disk0 && removed == []
                                      && kept == |journal|
      requires outcome != Refused ==> Accepted(journal0) && Leaves(operation, order, journal0, disk0) && durable <= kept <= |journal|
      requires outcome == Done ==> completedDurable
      ensures Accepted(journal0) ==> Accepted(journal[..kept]) && Extends(operation, journal0, journal[..kept])
      ensures !Accepted(journal0) ==> journal[..kept] == journal0
      ensures |removed| <= |order| && disk == disk0 - Gone(PathsOf(order)[..|removed|])
      ensures forall p | p in disk0 && p !in disk :: Explained(journal[..kept], p)
      ensures outcome == Done ==> disk == disk0 - Gone(PathsOf(order))
    {
      hide AcceptAll, BackedBy, Explained;
      if outcome == Refused { return; }
      AcceptedPrefix(journal, kept);
      forall p | p in disk0 && p !in disk ensures Explained(journal[..kept], p) {
        assert p in removed;
        RemovedAreExplained(operation, order, |journal0|, journal, durable, removed, backed, kept, p);
      }
      if outcome == Done { assert PathsOf(order)[..|order|] == PathsOf(order); }
    }

    lemma SaneMeans(operation: Operation, order: seq<Artifact>, start: nat, before: set<Path>)
      requires Sane(operation, order, start, before)
      ensures Accepted(journal) && BackedBy(operation, order, start, journal, durable, removed, backed)
      ensures disk == before - Gone(removed)
      ensures deletedCount <= |removed| <= deletedCount + if removalUncertain then 1 else 0
    {
    }

    lemma IsSane(operation: Operation, order: seq<Artifact>, start: nat, before: set<Path>)
      requires Accepted(journal) && BackedBy(operation, order, start, journal, durable, removed, backed)
      requires disk == before - Gone(removed)
      requires deletedCount <= |removed| <= deletedCount + if removalUncertain then 1 else 0
      ensures Sane(operation, order, start, before)
    {
    }

    lemma CanFailIsAccepted(operation: Operation, path: Path)
      requires CanFail(operation, path)
      ensures Accepted(journal)
    {
    }

    lemma AtIsAccepted(operation: Operation, order: seq<Artifact>, k: nat)
      requires k <= |order| && At(operation, order, k, false)
      ensures Accepted(journal)
    {
    }
  }

  lemma BackedLonger(operation: Operation, order: seq<Artifact>, start: nat, journal: seq<Event>, durable: nat,
                     longer: seq<Event>, later: nat, removed: seq<Path>, backed: seq<nat>)
    requires BackedBy(operation, order, start, journal, durable, removed, backed)
    requires Extends(operation, journal, longer) && durable <= later <= |longer|
    ensures BackedBy(operation, order, start, longer, later, removed, backed)
  {
  }

  /** A durable attempt at the end of the journal backs the next removal. */
  lemma BackedNext(operation: Operation, order: seq<Artifact>, start: nat, journal: seq<Event>,
                   removed: seq<Path>, backed: seq<nat>)
    requires BackedBy(operation, order, start, journal, |journal|, removed, backed)
    requires |removed| < |order| && start < |journal| - 1
    requires journal[|journal| - 1] == Attempt(operation, order[|removed|].path)
    ensures BackedBy(operation, order, start, journal, |journal|, removed + [order[|removed|].path], backed + [|journal|])
  {
  }

  /** The steps of one artifact, each by itself. */
  lemma ArtifactStep(operation: Operation, order: seq<Artifact>, fate: nat -> Fate, s: Storage, k: nat)
    requires k < |order|
    ensures Step(operation, order, fate, s, 5 * k + 1) == s
    ensures Step(operation, order, fate, s, 5 * k + 2) == WithLine(s, Attempt(operation, order[k].path), fate(5 * k + 2))
    ensures Step(operation, order, fate, s, 5 * k + 3) == s
  {
    assert (5 * k + 1) / 5 == k;
    hide WithLine;
  }

  lemma RemovalStep(operation: Operation, order: seq<Artifact>, fate: nat -> Fate, s: Storage, k: nat)
    requires k < |order|
    ensures Step(operation, order, fate, s, 5 * k + 4) == if fate(5 * k + 4).done then s.(disk := s.disk - {order[k].path}) else s
    ensures Step(operation, order, fate, s, 5 * k + 5) == WithLine(s, Deleted(operation, order[k].path), fate(5 * k + 5))
  {
    assert (5 * k + 3) / 5 == k == (5 * k + 4) / 5;
    hide WithLine;
  }

  /** The checks, the attempt and the checks again of one artifact. */
  lemma ArtifactSteps(operation: Operation, order: seq<Artifact>, fate: nat -> Fate, s: Storage, k: nat)
    requires k < |order|
    ensures Steps(operation, order, fate, s, 5 * k + 1, 5 * k + 2) == s
    ensures var t := WithLine(s, Attempt(operation, order[k].path), fate(5 * k + 2));
            Steps(operation, order, fate, s, 5 * k + 1, 5 * k + 3) == t && Steps(operation, order, fate, s, 5 * k + 1, 5 * k + 4) == t
  {
    hide Steps, Step, WithLine;
    var t := WithLine(s, Attempt(operation, order[k].path), fate(5 * k + 2));
    StepsNone(operation, order, fate, s, 5 * k + 1);
    StepsOn(operation, order, fate, s, 5 * k + 1, 5 * k + 1);
    StepsOn(operation, order, fate, s, 5 * k + 1, 5 * k + 2);
    StepsOn(operation, order, fate, s, 5 * k + 1, 5 * k + 3);
    ArtifactStep(operation, order, fate, s, k);
    ArtifactStep(operation, order, fate, t, k);
  }

  /** The removal and its record. */
  lemma RemovalSteps(operation: Operation, order: seq<Artifact>, fate: nat -> Fate, s: Storage, k: nat)
    requires k < |order|
    ensures var t := if fate(5 * k + 4).done then s.(disk := s.disk - {order[k].path}) else s;
            && Steps(operation, order, fate, s, 5 * k + 4, 5 * k + 5) == t
            && Steps(operation, order, fate, s, 5 * k + 4, 5 * k + 6) ==
               WithLine(t, Deleted(operation, order[k].path), fate(5 * k + 5))
  {
    hide Steps, Step, WithLine;
    var t := if fate(5 * k + 4).done then s.(disk := s.disk - {order[k].path}) else s;
    StepsNone(operation, order, fate, s, 5 * k + 4);
    StepsOn(operation, order, fate, s, 5 * k + 4, 5 * k + 4);
    StepsOn(operation, order, fate, s, 5 * k + 4, 5 * k + 5);
    RemovalStep(operation, order, fate, s, k);
    RemovalStep(operation, order, fate, t, k);
  }

  /** The intent and the completion, each a step by itself. */
  lemma OuterSteps(operation: Operation, order: seq<Artifact>, fate: nat -> Fate, s: Storage)
    ensures Steps(operation, order, fate, s, 0, 1) == WithLine(s, Intent(operation, order), fate(0))
    ensures Steps(operation, order, fate, s, 5 * |order| + 1, 5 * |order| + 2) ==
            WithLine(s, Completed(operation, |order|), fate(5 * |order| + 1))
  {
    hide Steps, WithLine;
    StepsNone(operation, order, fate, s, 0);
    StepsOn(operation, order, fate, s, 0, 0);
    StepsNone(operation, order, fate, s, 5 * |order| + 1);
    StepsOn(operation, order, fate, s, 5 * |order| + 1, 5 * |order| + 1);
  }

  /** Steps up to a middle, and on from there if nothing stopped before it. */
  lemma StepsThrough(operation: Operation, order: seq<Artifact>, fate: nat -> Fate, s: Storage, from: nat, middle: nat, last: nat)
    requires from <= middle + 1 && middle <= last
    ensures var a, b := FirstStop(fate, from, middle), FirstStop(fate, middle + 1, last);
            var t := Steps(operation, order, fate, s, from, Through(a, middle + 1));
            Steps(operation, order, fate, s, from, Through(FirstStop(fate, from, last), last + 1)) ==
            if a.Some? then t else Steps(operation, order, fate, t, middle + 1, Through(b, last + 1))
  {
    hide Steps;
    SplitStops(fate, from, middle, last);
    var a, b := FirstStop(fate, from, middle), FirstStop(fate, middle + 1, last);
    if a.None? { StepsJoin(operation, order, fate, s, from, middle + 1, Through(b, last + 1)); }
  }

  lemma ThroughIs(stop: Option<nat>, all: nat)
    ensures Through(stop, all) == if stop.None? then all else stop.value + 1
  {
  }

  lemma ReportedIs(operation: Operation, order: seq<Artifact>, fate: nat -> Fate, onFailure: Fate, stop: Option<nat>, s: Storage, k: nat)
    requires k < |order| && (stop.Some? ==> 5 * k + 1 <= stop.value <= 5 * k + 5)
    ensures Reported(operation, order, fate, onFailure, stop, s) ==
            if stop.Some? && fate(stop.value).ending == Raises then WithLine(s, Failed(operation, order[k].path), onFailure) else s
  {
  }

  lemma PerformedIs(operation: Operation, order: seq<Artifact>, fate: nat -> Fate, onFailure: Fate, s: Storage)
    ensures var stop := FirstStop(fate, 0, 5 * |order| + 1);
            Performed(operation, order, fate, onFailure, s) ==
            Reported(operation, order, fate, onFailure, stop,
                     Steps(operation, order, fate, s, 0, Through(stop, 5 * |order| + 2)))
  {
  }

  lemma NotReported(operation: Operation, order: seq<Artifact>, fate: nat -> Fate, onFailure: Fate, stop: Option<nat>, s: Storage)
    requires stop.Some? ==> stop.value == 0 || stop.value > 5 * |order|
    ensures Reported(operation, order, fate, onFailure, stop, s) == s
  {
  }

  lemma StepsNone(operation: Operation, order: seq<Artifact>, fate: nat -> Fate, s: Storage, from: nat)
    ensures Steps(operation, order, fate, s, from, from) == s
  {
  }

  lemma StepsOn(operation: Operation, order: seq<Artifact>, fate: nat -> Fate, s: Storage, from: nat, to: nat)
    requires from <= to
    ensures Steps(operation, order, fate, s, from, to + 1) == Step(operation, order, fate, Steps(operation, order, fate, s, from, to), to)
  {
  }

  lemma NoStops(fate: nat -> Fate, from: nat)
    requires from >= 1
    ensures FirstStop(fate, from, from - 1).None?
  {
  }

  lemma {:induction false} SplitStops(fate: nat -> Fate, from: nat, middle: nat, last: nat)
    requires from <= middle + 1 && middle <= last
    ensures FirstStop(fate, from, last) ==
            if FirstStop(fate, from, middle).Some? then FirstStop(fate, from, middle) else FirstStop(fate, middle + 1, last)
    decreases middle + 1 - from
  {
    if from <= middle && fate(from).ending == Returns { SplitStops(fate, from + 1, middle, last); }
  }

  lemma StopsIn(fate: nat -> Fate, from: nat, more: nat)
    requires more <= 2
    ensures FirstStop(fate, from, from + more) ==
            if fate(from).ending != Returns then Some(from)
            else if more == 0 then None
            else if fate(from + 1).ending != Returns then Some(from + 1)
            else if more == 1 then None
            else if fate(from + 2).ending != Returns then Some(from + 2)
            else None
  {
  }

  // -------------------------------------------------------------------- whole runs

  /** The final file is the last thing to go. */
  lemma FinalFileGoesLast(order: seq<Artifact>, n: nat)
    requires Destructive(order) && n <= |order|
    ensures order[|order| - 1].path in Gone(PathsOf(order)[..n]) ==> n == |order|
  {
    var gone := PathsOf(order)[..n];
    if order[|order| - 1].path in gone {
      var i :| 0 <= i < n && gone[i] == order[|order| - 1].path;
      assert order[i].path == order[|order| - 1].path;
    }
  }

  /** The journal accounts for a missing artifact: an intent that authorized it, then its attempt. */
  predicate Explained(journal: seq<Event>, path: Path) {
    exists i, j | 0 <= i < j < |journal| ::
      && journal[i].Intent? && journal[j] == Attempt(journal[i].operation, path)
      && path in PathsOf(journal[i].order)
  }

  lemma ExplainedLonger(journal: seq<Event>, longer: seq<Event>, path: Path)
    requires Explained(journal, path) && journal <= longer
    ensures Explained(longer, path)
  {
    var i, j :| 0 <= i < j < |journal| && journal[i].Intent? && journal[j] == Attempt(journal[i].operation, path)
                && path in PathsOf(journal[i].order);
    assert longer[i] == journal[i] && longer[j] == journal[j];
  }

  /** Whatever an operation removed stays explained by any journal that keeps its durable part. */
  lemma RemovedAreExplained(operation: Operation, order: seq<Artifact>, start: nat, journal: seq<Event>, durable: nat,
                            removed: seq<Path>, backed: seq<nat>, kept: nat, path: Path)
    requires BackedBy(operation, order, start, journal, durable, removed, backed)
    requires durable <= kept <= |journal| && path in removed
    ensures Explained(journal[..kept], path)
  {
    var i :| 0 <= i < |removed| && removed[i] == path;
    var k := journal[..kept];
    assert k[start] == Intent(operation, order) && k[backed[i] - 1] == Attempt(operation, path);
    assert PathsOf(order)[i] == path;
  }

  /** One call from a journal and a disk, and the tail a crash may cost afterwards. */
  method ExecuteRetention(journal: seq<Event>, disk: set<Path>, call: Call)
    returns (journalAfter: seq<Event>, diskAfter: set<Path>, outcome: Outcome)
    requires Destructive(call.order)
    requires Accepted(journal) ==> call.operation !in AcceptAll(journal).value.operations
    ensures Result(journalAfter, diskAfter, outcome) == Executed(journal, disk, call)
    ensures Accepted(journal) ==> Accepted(journalAfter) && Extends(call.operation, journal, journalAfter)
    ensures !Accepted(journal) ==> outcome == Refused && journalAfter == journal && diskAfter == disk
    ensures exists n | 0 <= n <= |call.order| :: diskAfter == disk - Gone(PathsOf(call.order)[..n])
    ensures forall p | p in disk && p !in diskAfter :: Explained(journalAfter, p)
    ensures outcome == Done <==>
              Accepted(journal) && forall s | 0 <= s <= LastStep(|call.order|) :: call.fate(s).ending == Returns
    ensures outcome == Done ==> diskAfter == disk - Gone(PathsOf(call.order))
  {
    hide AcceptAll, Accepted, Destructive, Next, FirstStop, LastStep, BackedBy, Explained, Performed, Ends;
    var executor := new RetentionExecutor(journal, disk);
    outcome := executor.Execute(call.operation, call.order, call.fate, call.onFailure);
    var kept := if executor.durable <= call.survives < |executor.journal| then call.survives else |executor.journal|;
    if outcome == Refused {
      kept := |executor.journal|;
      assert PathsOf(call.order)[..0] == [];
    }
    journalAfter, diskAfter := executor.journal[..kept], executor.disk;
    executor.Survives(call.operation, call.order, journal, disk, kept, outcome);
  }

  lemma {:induction false} OperationsAreNamed(journal: seq<Event>, operation: Operation)
    requires Accepted(journal) && operation in AcceptAll(journal).value.operations
    ensures exists j :: 0 <= j < |journal| && journal[j].operation == operation
  {
    var n := |journal| - 1;
    if journal[n].operation != operation {
      OperationsAreNamed(journal[..n], operation);
      var j :| 0 <= j < n && journal[..n][j].operation == operation;
      assert journal[j].operation == operation;
    }
  }

  /** Any number of calls: the journal always stays coherent, and every artifact that is gone is
      explained by it, whatever was interrupted and whatever unsynced tails were lost. */
  method ExecuteMany(disk: set<Path>, calls: seq<Call>) returns (journal: seq<Event>, left: set<Path>, outcome: Outcome)
    requires forall c | c in calls :: Destructive(c.order)
    requires forall i, j | 0 <= i < j < |calls| :: calls[i].operation != calls[j].operation
    ensures Result(journal, left, outcome) == AfterCalls(disk, calls)
    ensures Accepted(journal) && left <= disk
    ensures forall p | p in disk && p !in left :: Explained(journal, p)
  {
    hide Destructive, Next, FirstStop, LastStep, BackedBy, Explained, Executed;
    journal, left, outcome := [], disk, Done;
    var k := 0;
    while k < |calls|
      invariant 0 <= k <= |calls| && Accepted(journal) && left <= disk
      invariant Result(journal, left, outcome) == AfterCalls(disk, calls[..k])
      invariant forall p | p in disk && p !in left :: Explained(journal, p)
      invariant forall j | 0 <= j < |journal| :: exists i | 0 <= i < k :: calls[i].operation == journal[j].operation
    {
      ghost var before := journal;
      ghost var leftBefore := left;
      assert calls[..k + 1][..k] == calls[..k];
      if calls[k].operation in AcceptAll(journal).value.operations { OperationsAreNamed(journal, calls[k].operation); }
      journal, left, outcome := ExecuteRetention(journal, left, calls[k]);
      forall p | p in disk && p !in left ensures Explained(journal, p) {
        if p !in leftBefore { ExplainedLonger(before, journal, p); }
      }
      k := k + 1;
    }
    assert calls[..k] == calls;
  }
}
