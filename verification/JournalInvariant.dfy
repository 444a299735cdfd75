/** The audit is inductive: no guarded mutation of a sound catalog can produce
    tables that the schema or the second audit would reject. */
module JournalInvariant {
  import opened Wrappers
  import opened JournalTypes
  import opened JournalTables
  import opened JournalSpec

  lemma ConflictSymmetric(a: Owner, b: Owner)
    ensures OwnershipConflict(a, b) == OwnershipConflict(b, a)
  {
    OverlapsIsContainment(a.intent.output, b.intent.output);
    OverlapsIsContainment(b.intent.output, a.intent.output);
    OverlapsIsContainment(a.intent.output, b.intent.parts);
    OverlapsIsContainment(b.intent.parts, a.intent.output);
    OverlapsIsContainment(a.intent.parts, b.intent.output);
    OverlapsIsContainment(b.intent.output, a.intent.parts);
    OverlapsIsContainment(a.intent.parts, b.intent.parts);
    OverlapsIsContainment(b.intent.parts, a.intent.parts);
  }

  // ---------------------------------------------------- one session changes

  ghost predicate KeyedElsewhere(t: Tables, u: Tables, s: Id) {
    && (forall x | x != s :: (x in u.sessions <==> x in t.sessions) && (x in t.sessions ==> u.sessions[x] == t.sessions[x]))
    && (forall x | x != s :: (x in u.units <==> x in t.units) && (x in t.units ==> u.units[x] == t.units[x]))
    && (forall x | x != s :: (x in u.tasks <==> x in t.tasks) && (x in t.tasks ==> u.tasks[x] == t.tasks[x]))
    && (forall k | k in u.artifacts && k.0 != s :: k in t.artifacts)
    && (forall k | k in t.artifacts && k.0 != s :: k in u.artifacts && u.artifacts[k] == t.artifacts[k])
  }

  ghost predicate OwnedElsewhere(t: Tables, u: Tables, s: Id) {
    && u.bindings.Keys == t.bindings.Keys
    && (forall i | i in t.bindings :: u.bindings[i] == t.bindings[i]
                                      || (u.bindings[i].session in {None, Some(s)} && t.bindings[i].session in {None, Some(s)}))
    && (forall r | r in u.rooms && u.rooms[r] != s :: r in t.rooms && t.rooms[r] == u.rooms[r])
    && (forall r | r in t.rooms && t.rooms[r] != s :: r in u.rooms && u.rooms[r] == t.rooms[r])
    && (forall a | a in u.attempts && u.attempts[a].session != s :: a in t.attempts && t.attempts[a] == u.attempts[a])
    && (forall a | a in t.attempts && t.attempts[a].session != s :: a in u.attempts && u.attempts[a] == t.attempts[a])
  }

  ghost predicate HistoryKept(t: Tables, u: Tables, s: Id) {
    && (forall p | p in t.queue :: p in u.queue && u.queue[p] == t.queue[p])
    && (forall p | p in u.queue :: p in t.queue || u.queue[p].session == s)
    && (forall c | c in t.receipts :: c in u.receipts && u.receipts[c] == t.receipts[c])
    && (forall c | c in u.receipts :: c in t.receipts || u.receipts[c].session == s)
    && (forall o | o in t.operations :: o in u.operations && u.operations[o] == t.operations[o])
  }

  /** Between `t` and `u` only rows of session `s`, and new history, differ. */
  ghost predicate Elsewhere(t: Tables, u: Tables, s: Id) {
    KeyedElsewhere(t, u, s) && OwnedElsewhere(t, u, s) && HistoryKept(t, u, s)
  }

  lemma ReceiptFrame(t: Tables, u: Tables, s: Id, x: Id)
    requires KeyedElsewhere(t, u, s) && HistoryKept(t, u, s) && SessionConstraints(t) && x != s
    requires x in t.sessions && SessionReceiptValid(t, x)
    ensures SessionReceiptValid(u, x)
  {
  }

  lemma OwnershipFrame(t: Tables, u: Tables, s: Id, x: Id)
    requires KeyedElsewhere(t, u, s) && HistoryKept(t, u, s) && SessionConstraints(t) && x != s
    requires OwnershipValid(t, x)
    ensures OwnershipValid(u, x)
  {
    ReceiptFrame(t, u, s, x);
  }

  lemma RoomsFrame(t: Tables, u: Tables, s: Id, x: Id)
    requires KeyedElsewhere(t, u, s) && OwnedElsewhere(t, u, s) && x != s
    requires x in t.sessions && RoomsValid(t, x)
    ensures RoomsValid(u, x)
  {
  }

  lemma CaptureFrame(t: Tables, u: Tables, s: Id, x: Id)
    requires KeyedElsewhere(t, u, s) && OwnedElsewhere(t, u, s) && x != s
    requires x in t.sessions && CaptureValid(t, x)
    ensures CaptureValid(u, x)
  {
  }

  lemma QueuePlaceFrame(t: Tables, u: Tables, s: Id, x: Id)
    requires KeyedElsewhere(t, u, s) && HistoryKept(t, u, s) && x != s
    requires x in t.tasks && QueuePlaceValid(t, x)
    ensures x in u.tasks && QueuePlaceValid(u, x)
  {
  }

  lemma TaskFrame(t: Tables, u: Tables, s: Id, x: Id)
    requires KeyedElsewhere(t, u, s) && OwnedElsewhere(t, u, s) && HistoryKept(t, u, s) && x != s
    requires x in t.sessions && TaskValid(t, x)
    ensures TaskValid(u, x)
  {
    QueuePlaceFrame(t, u, s, x);
    assert forall i | i in u.bindings :: u.bindings[i].session != Some(x);
  }

  lemma UnitFrame(t: Tables, u: Tables, s: Id, x: Id)
    requires Elsewhere(t, u, s) && SessionConstraints(t) && x != s
    requires x in t.units && UnitValid(t, x)
    ensures x in u.units && UnitValid(u, x)
    ensures OwnerOf(u, x) == OwnerOf(t, x)
  {
    OwnershipFrame(t, u, s, x);
    RoomsFrame(t, u, s, x);
    if t.units[x] == CaptureUnit { CaptureFrame(t, u, s, x); } else { TaskFrame(t, u, s, x); }
  }

  /** The changed session owes nothing: whatever it holds is paid for by its unit. */
  ghost predicate AccountedHere(u: Tables, s: Id) {
    && (forall i | i in u.bindings && u.bindings[i].session == Some(s) :: s in u.units && u.units[s] == CaptureUnit)
    && (s in u.tasks && u.tasks[s].state != Completed ==> s in u.units && u.units[s] == TaskUnit)
    && (s in u.sessions && !Terminal(u.sessions[s].phase) ==> s in u.units)
    && (forall k | k in u.artifacts && k.0 == s :: s in u.units)
    && (forall r | r in u.rooms && u.rooms[r] == s :: s in u.units)
    && (forall a | a in u.attempts && u.attempts[a].session == s && u.attempts[a].state == AttemptRunning ::
          TaskRuns(u, s, a))
  }

  ghost predicate SeparateHere(t: Tables, u: Tables, s: Id) {
    s in u.units ==>
      && s in u.sessions
      && forall x | x in t.units && x in t.sessions && x != s :: !OwnershipConflict(OwnerOf(u, s), OwnerOf(t, x))
  }

  lemma RunningCarries(t: Tables, u: Tables, s: Id, a: Id)
    requires KeyedElsewhere(t, u, s) && OwnedElsewhere(t, u, s) && Accounted(t)
    requires forall x | x in t.units :: UnitValid(t, x)
    requires a in u.attempts && u.attempts[a].session != s && u.attempts[a].state == AttemptRunning
    ensures exists x | x in u.tasks :: TaskRuns(u, x, a)
  {
    var x :| x in t.tasks && TaskRuns(t, x, a);
    assert UnitValid(t, x) && TaskValid(t, x);
    assert TaskRuns(u, x, a);
  }

  lemma RunningHere(u: Tables, s: Id, a: Id)
    requires AccountedHere(u, s)
    requires a in u.attempts && u.attempts[a].session == s && u.attempts[a].state == AttemptRunning
    ensures exists x | x in u.tasks :: TaskRuns(u, x, a)
  {
    assert TaskRuns(u, s, a);
  }

  lemma RunningAllCarries(t: Tables, u: Tables, s: Id)
    requires KeyedElsewhere(t, u, s) && OwnedElsewhere(t, u, s) && Accounted(t) && AccountedHere(u, s)
    requires forall x | x in t.units :: UnitValid(t, x)
    ensures forall a | a in u.attempts :: u.attempts[a].state == AttemptRunning ==>
              exists x | x in u.tasks :: TaskRuns(u, x, a)
  {
    hide *;
    forall a | a in u.attempts && u.attempts[a].state == AttemptRunning
      ensures exists x | x in u.tasks :: TaskRuns(u, x, a)
    {
      if u.attempts[a].session == s { RunningHere(u, s, a); } else { RunningCarries(t, u, s, a); }
    }
  }

  lemma PinsAccounted(t: Tables, u: Tables, s: Id)
    requires KeyedElsewhere(t, u, s) && OwnedElsewhere(t, u, s) && Accounted(t) && AccountedHere(u, s)
    ensures forall k | k in u.artifacts :: k.0 in u.units
    ensures forall r | r in u.rooms :: u.rooms[r] in u.units
    ensures forall x | x in u.sessions :: !Terminal(u.sessions[x].phase) ==> x in u.units
  {
  }

  lemma WorkAccounted(t: Tables, u: Tables, s: Id)
    requires KeyedElsewhere(t, u, s) && OwnedElsewhere(t, u, s) && Accounted(t) && AccountedHere(u, s)
    ensures forall i | i in u.bindings :: u.bindings[i].session.Some? ==>
              u.bindings[i].session.value in u.units && u.units[u.bindings[i].session.value] == CaptureUnit
    ensures forall x | x in u.tasks :: u.tasks[x].state != Completed ==> x in u.units && u.units[x] == TaskUnit
  {
  }

  lemma AccountedCarries(t: Tables, u: Tables, s: Id)
    requires KeyedElsewhere(t, u, s) && OwnedElsewhere(t, u, s) && Accounted(t) && AccountedHere(u, s)
    requires forall x | x in t.units :: UnitValid(t, x)
    ensures Accounted(u)
  {
    hide KeyedElsewhere, OwnedElsewhere, AccountedHere, UnitValid, TaskRuns;
    PinsAccounted(t, u, s);
    WorkAccounted(t, u, s);
    RunningAllCarries(t, u, s);
  }

  lemma SeparateCarries(t: Tables, u: Tables, s: Id)
    requires OwnersSeparate(t) && SeparateHere(t, u, s)
    requires forall x | x in u.units && x != s ::
      x in u.sessions && x in t.units && x in t.sessions && OwnerOf(u, x) == OwnerOf(t, x)
    ensures OwnersSeparate(u)
  {
    forall a, b | a in u.units && b in u.units && a != b
      ensures a in u.sessions && b in u.sessions && !OwnershipConflict(OwnerOf(u, a), OwnerOf(u, b))
    {
      if b == s { ConflictSymmetric(OwnerOf(u, a), OwnerOf(u, b)); }
    }
  }

  lemma AuditCarries(t: Tables, u: Tables, s: Id)
    requires SessionConstraints(t) && Audit(t) && Elsewhere(t, u, s)
    requires |u.units| <= 8 && (s in u.units ==> UnitValid(u, s)) && SeparateHere(t, u, s) && AccountedHere(u, s)
    ensures Audit(u)
  {
    forall x | x in u.units
      ensures UnitValid(u, x)
      ensures x != s ==> x in t.units && x in t.sessions && x in u.sessions && OwnerOf(u, x) == OwnerOf(t, x)
    {
      if x != s { UnitFrame(t, u, s, x); }
    }
    SeparateCarries(t, u, s);
    AccountedCarries(t, u, s);
  }

  lemma ProvenanceCarries(t: Tables, u: Tables, s: Id, o: Id)
    requires SessionConstraints(t) && Provenance(t) && KeyedElsewhere(t, u, s) && HistoryKept(t, u, s)
    requires s in u.sessions && SessionReceiptValid(u, s)
    requires o !in t.operations && u.operations.Keys == t.operations.Keys + {o}
    requires u.operations[o].result.NothingQueued? || u.operations[o].result.session == s
    ensures Provenance(u)
  {
    forall x | x in u.sessions ensures SessionReceiptValid(u, x) {
      if x != s { ReceiptFrame(t, u, s, x); }
    }
  }
}
