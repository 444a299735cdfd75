/** When a lease is granted, said of the leases that are live: over any run of acquisitions, releases and deaths. */
module LeaseAnswers {
  import opened Wrappers
  import opened LifecycleLeases

  ghost predicate TableLocks(windows: bool, t: Table) { Locks(windows, t.open, t.leases, t.nextHandle) }

  lemma LockForFits(windows: bool, t: Table, k: Key, mode: Mode)
    requires LockFor(windows, t.open, k.root, mode).Some?
    ensures var l := Lease(k, mode, LockFor(windows, t.open, k.root, mode).value);
            SlotFits(windows, l) && Free(t.open, k.root, HoldOf(windows, l)) && (HoldOf(windows, l).Bytes? <==> windows)
  {
    hide Conflict;
  }

  lemma AcquiredLocks(windows: bool, t: Table, k: Key, mode: Mode, fault: Fault, leaks: bool)
    requires TableLocks(windows, t)
    ensures TableLocks(windows, Acquired(windows, t, k, mode, fault, leaks))
  {
    hide Locks, Free, HoldOf, LockFor, SlotFits;
    var got := LockFor(windows, t.open, k.root, mode);
    if got.Some? {
      LockForFits(windows, t, k, mode);
      LockIsNew(windows, t.open, t.leases, t.nextHandle, Lease(k, mode, got.value));
    }
  }

  lemma {:induction false} AfterLocks(windows: bool, events: seq<Event>)
    ensures TableLocks(windows, After(windows, events))
  {
    hide Locks, Acquired, LockFor;
    if events == [] {
      NothingLocked(windows);
    } else {
      var t, e := After(windows, events[..|events| - 1]), events[|events| - 1];
      AfterLocks(windows, events[..|events| - 1]);
      match e
      case Acquires(k, mode, fault, leaks) => AcquiredLocks(windows, t, k, mode, fault, leaks);
      case Closes(h, unlockFails, closeFails) =>
        LocksShrink(windows, t.open, t.leases, t.nextHandle, {h}, if unlockFails && closeFails then {} else {h});
        assert t.open - {} == t.open;
      case Crashes(p) => LocksCrash(windows, t.open, t.leases, t.nextHandle, p);
    }
  }

  lemma NothingLocked(windows: bool)
    ensures TableLocks(windows, NoLeases)
  {
  }

  /** Nothing that this step leaves locked outlives its lease. */
  predicate Clean(e: Event) {
    match e
    case Acquires(_, _, fault, leaks) => !leaks
    case Closes(_, unlockFails, closeFails) => !(unlockFails && closeFails)
    case Crashes(_) => true
  }

  lemma {:induction false} CleanLocksAreLeases(windows: bool, events: seq<Event>)
    requires forall e | e in events :: Clean(e)
    ensures After(windows, events).open.Keys == After(windows, events).leases.Keys
  {
    hide LockFor, HoldOf, Locks;
    if events != [] {
      var before, e := events[..|events| - 1], events[|events| - 1];
      assert e in events && forall f | f in before :: f in events;
      CleanLocksAreLeases(windows, before);
      AfterLocks(windows, before);
      var t := After(windows, before);
      if e.Crashes? { OwnersAgree(windows, t, e.process); }
    }
  }

  lemma OwnersAgree(windows: bool, t: Table, p: Process)
    requires TableLocks(windows, t) && t.open.Keys == t.leases.Keys
    ensures forall h | h in t.open :: t.open[h].process == t.leases[h].key.process
    ensures Crashed(t, p).open.Keys == Crashed(t, p).leases.Keys
  {
    hide HoldOf, SlotFits;
  }

  predicate OnRoot(t: Table, root: Root, h: nat) { h in t.leases && t.leases[h].key.root == root }

  /** The live leases leave room for one more of the mode: for a retention no lease at all, for a writer no retention
      and, where locks are byte ranges, a writer slot. */
  ghost predicate Room(windows: bool, t: Table, root: Root, mode: Mode) {
    if mode == Retention then forall h :: !OnRoot(t, root, h)
    else
      && (forall h | OnRoot(t, root, h) :: t.leases[h].mode == Writer)
      && (windows ==> exists s: nat :: s < WRITER_SLOTS && SlotUnused(t, root, s))
  }

  predicate SlotUnused(t: Table, root: Root, s: nat) {
    forall h | h in t.leases && t.leases[h].key.root == root :: t.leases[h].slot != Some(s)
  }

  lemma HoldsConflict(windows: bool, l: Lease, mode: Mode, s: nat)
    requires SlotFits(windows, l)
    ensures !windows ==> (Conflict(HoldOf(windows, l), if mode == Writer then Shared else Exclusive) <==> l.mode == Retention || mode == Retention)
    ensures windows && mode == Retention ==> Conflict(HoldOf(windows, l), Bytes(0, WRITER_SLOTS))
    ensures windows && s < WRITER_SLOTS ==> (Conflict(HoldOf(windows, l), Bytes(s, 1)) <==> l.mode == Retention || l.slot == Some(s))
  {
  }

  lemma FreeIs(windows: bool, t: Table, root: Root, hold: Hold)
    requires TableLocks(windows, t) && t.open.Keys == t.leases.Keys
    ensures Free(t.open, root, hold) <==>
              forall h | OnRoot(t, root, h) :: SlotFits(windows, t.leases[h]) && !Conflict(HoldOf(windows, t.leases[h]), hold)
  {
    hide Conflict, HoldOf, SlotFits;
  }

  lemma GrantableIsRoom(windows: bool, t: Table, root: Root, mode: Mode)
    requires TableLocks(windows, t) && t.open.Keys == t.leases.Keys
    ensures Grantable(windows, t.open, root, mode) <==> Room(windows, t, root, mode)
  {
    hide Conflict, HoldOf, Free, Locks;
    LeasesFit(windows, t);
    if !windows {
      FreeIs(windows, t, root, if mode == Writer then Shared else Exclusive);
      forall h | OnRoot(t, root, h) { HoldsConflict(windows, t.leases[h], mode, 0); }
    } else if mode == Retention {
      FreeIs(windows, t, root, Bytes(0, WRITER_SLOTS));
      forall h | OnRoot(t, root, h) { HoldsConflict(windows, t.leases[h], mode, 0); }
    } else {
      forall s: nat | s < WRITER_SLOTS
        ensures Free(t.open, root, Bytes(s, 1)) <==>
                SlotUnused(t, root, s) && forall h | OnRoot(t, root, h) :: t.leases[h].mode == Writer
      {
        SlotFreeIs(windows, t, root, s);
      }
    }
  }

  lemma LeasesFit(windows: bool, t: Table)
    requires TableLocks(windows, t)
    ensures forall h | h in t.leases :: SlotFits(windows, t.leases[h])
  {
    hide HoldOf, Conflict, SlotFits;
  }

  lemma SlotFreeIs(windows: bool, t: Table, root: Root, s: nat)
    requires windows && TableLocks(windows, t) && t.open.Keys == t.leases.Keys && s < WRITER_SLOTS
    ensures Free(t.open, root, Bytes(s, 1)) <==>
              SlotUnused(t, root, s) && forall h | OnRoot(t, root, h) :: t.leases[h].mode == Writer
  {
    hide Conflict, HoldOf, Free, Locks;
    LeasesFit(windows, t);
    FreeIs(windows, t, root, Bytes(s, 1));
    forall h | OnRoot(t, root, h) { HoldsConflict(windows, t.leases[h], Writer, s); }
  }

  /** After any run that leaks no lock, an acquisition without a fault is granted exactly when the live leases leave
      room for it, and a writer gets the first slot that none of them uses. */
  lemma GrantedExactly(windows: bool, events: seq<Event>, k: Key, mode: Mode, leaks: bool)
    requires forall e | e in events :: Clean(e)
    ensures var t, u := After(windows, events), After(windows, events + [Acquires(k, mode, NoFault, leaks)]);
            var h := t.nextHandle;
            && h !in t.leases
            && (if Room(windows, t, k.root, mode) then
                  && h in u.leases && u.leases == t.leases[h := u.leases[h]] && u.leases[h].key == k && u.leases[h].mode == mode
                  && (windows && mode == Writer ==>
                        && u.leases[h].slot.Some? && u.leases[h].slot.value < WRITER_SLOTS && SlotUnused(t, k.root, u.leases[h].slot.value)
                        && forall s: nat | s < u.leases[h].slot.value :: !SlotUnused(t, k.root, s))
                else u == t)
  {
    hide Locks, Free, Grantable, Room, HoldOf;
    var t := After(windows, events);
    assert (events + [Acquires(k, mode, NoFault, leaks)])[..|events|] == events;
    AfterLocks(windows, events);
    CleanLocksAreLeases(windows, events);
    GrantableIsRoom(windows, t, k.root, mode);
    FreshHandle(windows, t);
    if windows && mode == Writer && Room(windows, t, k.root, mode) {
      RoomIsWriters(windows, t, k.root);
      forall s: nat | s < WRITER_SLOTS ensures Free(t.open, k.root, Bytes(s, 1)) <==> SlotUnused(t, k.root, s) {
        SlotFreeIs(windows, t, k.root, s);
      }
      SomeSlot(t, k.root);
    }
  }

  lemma RoomIsWriters(windows: bool, t: Table, root: Root)
    requires Room(windows, t, root, Writer)
    ensures forall h | OnRoot(t, root, h) :: t.leases[h].mode == Writer
    ensures windows ==> exists s: nat :: s < WRITER_SLOTS && SlotUnused(t, root, s)
  {
  }

  lemma SomeSlot(t: Table, root: Root)
    ensures (exists s: nat :: s < WRITER_SLOTS && Free(t.open, root, Bytes(s, 1))) ==> FirstFree(t.open, root, 0).Some?
  {
    hide Free;
  }

  lemma FreshHandle(windows: bool, t: Table)
    requires TableLocks(windows, t)
    ensures t.nextHandle !in t.leases
  {
  }

  /** A closed or dead process's leases are gone, and so are their locks; others keep theirs. */
  lemma ReleasedExactly(windows: bool, events: seq<Event>, e: Event)
    requires Clean(e) && !e.Acquires?
    ensures var t, u := After(windows, events), After(windows, events + [e]);
            var gone := if e.Closes? then {e.handle} else set h | h in t.leases && t.leases[h].key.process == e.process;
            && u.leases == t.leases - gone && (forall h | h in gone && h in t.leases :: h !in u.open)
            && forall h | h in t.leases && h !in gone :: h in u.open && u.open[h] == t.open[h]
  {
    hide HoldOf, SlotFits;
    assert (events + [e])[..|events|] == events;
    AfterLocks(windows, events);
  }

  /** Over any run, leaks or not, live leases exclude each other. */
  lemma LeasesAlwaysExclude(windows: bool, events: seq<Event>, g: nat, h: nat)
    requires g in After(windows, events).leases && h in After(windows, events).leases && g != h
    ensures Exclude(windows, After(windows, events).leases[g], After(windows, events).leases[h])
  {
    AfterLocks(windows, events);
    var t := After(windows, events);
    if t.leases[g].key.root == t.leases[h].key.root { assert !Conflict(t.open[g].hold, t.open[h].hold); }
  }
}
