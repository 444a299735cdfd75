/** Root leases across processes: writers share a root, retention excludes everyone. */
module LifecycleLeases {
  import opened Wrappers

  type Process(==,!new)
  type Root(==,!new)

  const WRITER_SLOTS := 64

  datatype Mode = Writer | Retention

  /** What the operating system holds for one open handle: a byte range, or a whole-file lock. */
  datatype Hold = Bytes(from: nat, count: nat) | Shared | Exclusive

  datatype Key = Key(process: Process, root: Root)
  datatype Held = Held(process: Process, root: Root, hold: Hold)
  datatype Lease = Lease(key: Key, mode: Mode, slot: Option<nat>)
  datatype Counts = Counts(writers: nat, retentions: nat)

  predicate Conflict(a: Hold, b: Hold) {
    match (a, b)
    case (Bytes(f, c), Bytes(g, d)) => f < g + d && g < f + c
    case (Shared, Shared) => false
    case _ => true
  }

  /** The lock that a lease keeps: one byte or all of them on Windows, shared or exclusive elsewhere. */
  function HoldOf(windows: bool, l: Lease): Hold {
    if windows then (if l.mode == Retention then Bytes(0, WRITER_SLOTS) else Bytes(if l.slot.Some? then l.slot.value else 0, 1))
    else if l.mode == Retention then Exclusive else Shared
  }

  function LeasesOf(leases: map<nat, Lease>, k: Key, mode: Mode): set<nat> {
    set h | h in leases && leases[h].key == k && leases[h].mode == mode
  }

  function SlotsOf(leases: map<nat, Lease>, k: Key): set<Option<nat>> {
    set h | h in leases && leases[h].key == k && leases[h].mode == Writer :: leases[h].slot
  }

  function CountsOf(leases: map<nat, Lease>, k: Key): Counts {
    Counts(|LeasesOf(leases, k, Writer)|, |LeasesOf(leases, k, Retention)|)
  }

  predicate Free(open: map<nat, Held>, root: Root, hold: Hold) {
    forall h | h in open && open[h].root == root :: !Conflict(open[h].hold, hold)
  }

  /** Some lock for the mode is free on the root. */
  predicate Grantable(windows: bool, open: map<nat, Held>, root: Root, mode: Mode) {
    if !windows then Free(open, root, if mode == Writer then Shared else Exclusive)
    else if mode == Retention then Free(open, root, Bytes(0, WRITER_SLOTS))
    else exists s | 0 <= s < WRITER_SLOTS :: Free(open, root, Bytes(s, 1))
  }

  /** The first writer slot from `slot` on whose byte nobody holds. */
  function FirstFree(open: map<nat, Held>, root: Root, slot: nat): (s: Option<nat>)
    ensures s.Some? ==> slot <= s.value < WRITER_SLOTS && Free(open, root, Bytes(s.value, 1))
    ensures forall t | slot <= t < WRITER_SLOTS && (s.None? || t < s.value) :: !Free(open, root, Bytes(t, 1))
    decreases WRITER_SLOTS - slot
  {
    if slot >= WRITER_SLOTS then None
    else if Free(open, root, Bytes(slot, 1)) then Some(slot)
    else FirstFree(open, root, slot + 1)
  }

  /** The lock that an acquisition takes, by its slot, if any is free. */
  function LockFor(windows: bool, open: map<nat, Held>, root: Root, mode: Mode): Option<Option<nat>> {
    if !Grantable(windows, open, root, mode) then None
    else if !windows then Some(None)
    else Some(if mode == Retention then Some(0) else FirstFree(open, root, 0))
  }

  predicate SlotFits(windows: bool, l: Lease) {
    if windows then l.slot.Some? && (if l.mode == Writer then l.slot.value < WRITER_SLOTS else l.slot.value == 0)
    else l.slot.None?
  }

  /** Held locks never conflict, and every live lease has its own. */
  ghost predicate Locks(windows: bool, open: map<nat, Held>, leases: map<nat, Lease>, nextHandle: nat) {
    && (forall h | h in open :: h < nextHandle && (open[h].hold.Bytes? <==> windows))
    && (forall g, h | g in open && h in open && g != h && open[g].root == open[h].root :: !Conflict(open[g].hold, open[h].hold))
    && (forall h | h in leases ::
          h in open && SlotFits(windows, leases[h])
          && open[h] == Held(leases[h].key.process, leases[h].key.root, HoldOf(windows, leases[h])))
  }

  /** The registry counts and occupied slots of one process and root are those of its live leases. */
  ghost predicate Booked(windows: bool, registry: map<Key, Counts>, occupied: map<Key, set<nat>>, leases: map<nat, Lease>,
                         k: Key)
  {
    && (k in registry <==> CountsOf(leases, k) != Counts(0, 0))
    && (k in registry ==> registry[k] == CountsOf(leases, k))
    && (k in occupied <==> windows && LeasesOf(leases, k, Writer) != {})
    && (k in occupied ==> forall s: nat :: s in occupied[k] <==> Some(s) in SlotsOf(leases, k))
  }

  ghost predicate Books(windows: bool, registry: map<Key, Counts>, occupied: map<Key, set<nat>>, leases: map<nat, Lease>) {
    forall k :: Booked(windows, registry, occupied, leases, k)
  }

  /** A new lock that conflicts with none. */
  lemma LocksGrow(windows: bool, open: map<nat, Held>, leases: map<nat, Lease>, h: nat, held: Held)
    requires Locks(windows, open, leases, h) && Free(open, held.root, held.hold) && (held.hold.Bytes? <==> windows)
    ensures Locks(windows, open[h := held], leases, h + 1)
  {
    hide HoldOf;
    forall a, b ensures Conflict(a, b) <==> Conflict(b, a) {}
  }

  /** Without its lease, a lock may go or stay. */
  lemma LocksShrink(windows: bool, open: map<nat, Held>, leases: map<nat, Lease>, nextHandle: nat, gone: set<nat>, freed: set<nat>)
    requires Locks(windows, open, leases, nextHandle) && freed <= gone
    ensures Locks(windows, open - freed, leases - gone, nextHandle)
  {
    hide HoldOf, Conflict;
  }

  lemma LeasesOfAdded(leases: map<nat, Lease>, h: nat, l: Lease, k: Key, mode: Mode)
    requires h !in leases
    ensures LeasesOf(leases[h := l], k, mode) == LeasesOf(leases, k, mode) + if l.key == k && l.mode == mode then {h} else {}
    ensures h !in LeasesOf(leases, k, mode)
  {
  }

  lemma CountsAdded(leases: map<nat, Lease>, h: nat, l: Lease, k: Key)
    requires h !in leases
    ensures var c, d := CountsOf(leases, k), CountsOf(leases[h := l], k);
            if l.key != k then d == c
            else if l.mode == Writer then d == c.(writers := c.writers + 1) else d == c.(retentions := c.retentions + 1)
  {
    LeasesOfAdded(leases, h, l, k, Writer);
    LeasesOfAdded(leases, h, l, k, Retention);
  }

  lemma SlotsAdded(leases: map<nat, Lease>, h: nat, l: Lease, k: Key)
    requires h !in leases
    ensures SlotsOf(leases[h := l], k) == SlotsOf(leases, k) + if l.key == k && l.mode == Writer then {l.slot} else {}
  {
    forall o | o in SlotsOf(leases, k) ensures o in SlotsOf(leases[h := l], k) {
      var g :| g in leases && leases[g].key == k && leases[g].mode == Writer && leases[g].slot == o;
      assert leases[h := l][g] == leases[g];
    }
    if l.key == k && l.mode == Writer { assert leases[h := l][h].slot == l.slot; }
  }

  /** The books after one more lease. */
  lemma BooksGrow(windows: bool, registry: map<Key, Counts>, occupied: map<Key, set<nat>>, leases: map<nat, Lease>, h: nat, l: Lease)
    requires Books(windows, registry, occupied, leases) && h !in leases && SlotFits(windows, l)
    ensures var before := if l.key in registry then registry[l.key] else Counts(0, 0);
            var more := if l.mode == Writer then before.(writers := before.writers + 1)
                        else before.(retentions := before.retentions + 1);
            var mine := if l.key in occupied then occupied[l.key] else {};
            Books(windows, registry[l.key := more],
                  if l.slot.Some? && l.mode == Writer then occupied[l.key := mine + {l.slot.value}] else occupied, leases[h := l])
  {
    hide CountsOf, SlotsOf, LeasesOf;
    var before := if l.key in registry then registry[l.key] else Counts(0, 0);
    var more := if l.mode == Writer then before.(writers := before.writers + 1) else before.(retentions := before.retentions + 1);
    var mine := if l.key in occupied then occupied[l.key] else {};
    var occupied2 := if l.slot.Some? && l.mode == Writer then occupied[l.key := mine + {l.slot.value}] else occupied;
    var registry2, leases2 := registry[l.key := more], leases[h := l];
    forall k ensures Booked(windows, registry2, occupied2, leases2, k) {
      assert Booked(windows, registry, occupied, leases, k);
      CountsAdded(leases, h, l, k);
      SlotsAdded(leases, h, l, k);
      LeasesOfAdded(leases, h, l, k, Writer);
      NoSlots(leases, k);
    }
  }

  /** The books after one lease less: `leases` is what remains plus that lease. */
  lemma BooksShrink(windows: bool, registry: map<Key, Counts>, occupied: map<Key, set<nat>>, leases: map<nat, Lease>, h: nat)
    requires Books(windows, registry, occupied, leases) && h in leases && SlotFits(windows, leases[h])
    requires leases[h].mode == Writer ==> LeasesOf(leases, leases[h].key, Retention) == {}
    requires leases[h].mode == Writer && windows ==> leases[h].slot !in SlotsOf(leases - {h}, leases[h].key)
    ensures var l := leases[h];
            && l.key in registry && (if l.mode == Writer then registry[l.key].writers > 0 else registry[l.key].retentions > 0)
            && (l.slot.Some? && l.mode == Writer ==> l.key in occupied)
            && var less := if l.mode == Writer then registry[l.key].(writers := registry[l.key].writers - 1)
                           else registry[l.key].(retentions := registry[l.key].retentions - 1);
               var freed := if l.slot.Some? && l.mode == Writer
                            then occupied[l.key := occupied[l.key] - {l.slot.value}] else occupied;
               if less == Counts(0, 0) then Books(windows, registry - {l.key}, freed - {l.key}, leases - {h})
               else Books(windows, registry[l.key := less], freed, leases - {h})
  {
    hide CountsOf, SlotsOf, LeasesOf;
    var l, rest := leases[h], leases - {h};
    assert rest[h := l] == leases;
    assert Booked(windows, registry, occupied, leases, l.key);
    CountsAdded(rest, h, l, l.key);
    LeasesOfAdded(rest, h, l, l.key, Writer);
    CountsMean(leases, l.key);
    var less := if l.mode == Writer then registry[l.key].(writers := registry[l.key].writers - 1)
                else registry[l.key].(retentions := registry[l.key].retentions - 1);
    var freed := if l.slot.Some? && l.mode == Writer then occupied[l.key := occupied[l.key] - {l.slot.value}] else occupied;
    var registry2 := if less == Counts(0, 0) then registry - {l.key} else registry[l.key := less];
    var occupied2 := if less == Counts(0, 0) then freed - {l.key} else freed;
    forall k ensures Booked(windows, registry2, occupied2, rest, k) {
      assert Booked(windows, registry, occupied, leases, k);
      CountsAdded(rest, h, l, k);
      SlotsAdded(rest, h, l, k);
      LeasesOfAdded(rest, h, l, k, Writer);
      CountsMean(rest, k);
    }
  }

  lemma CountsMean(leases: map<nat, Lease>, k: Key)
    ensures CountsOf(leases, k).writers == 0 <==> LeasesOf(leases, k, Writer) == {}
    ensures CountsOf(leases, k).retentions == 0 <==> LeasesOf(leases, k, Retention) == {}
  {
  }

  lemma NoSlots(leases: map<nat, Lease>, k: Key)
    ensures LeasesOf(leases, k, Writer) == {} ==> SlotsOf(leases, k) == {}
  {
    if SlotsOf(leases, k) != {} {
      var o :| o in SlotsOf(leases, k);
      var h :| h in leases && leases[h].key == k && leases[h].mode == Writer && leases[h].slot == o;
      assert h in LeasesOf(leases, k, Writer);
    }
  }

  /** Where an acquisition can raise, and whether closing its handle then really releases the lock. */
  datatype Fault = NoFault | AtOpen | AtIdentity | AtRegistry | AtSlot(added: bool)
  datatype Grant = Granted(handle: nat) | Busy | Faulted

  lemma LockIsNew(windows: bool, open: map<nat, Held>, leases: map<nat, Lease>, h: nat, l: Lease)
    requires Locks(windows, open, leases, h) && SlotFits(windows, l) && Free(open, l.key.root, HoldOf(windows, l))
    ensures h !in leases && h !in open
    ensures var held := Held(l.key.process, l.key.root, HoldOf(windows, l));
            && Locks(windows, open[h := held], leases, h + 1)
            && Locks(windows, open[h := held], leases[h := l], h + 1)
            && Locks(windows, open, leases, h + 1)
  {
    var held := Held(l.key.process, l.key.root, HoldOf(windows, l));
    LocksGrow(windows, open, leases, h, held);
  }

  // ----------------------------------------------------------- what each step does

  /** Every lock that is held and every lease that is live, over all processes. */
  datatype Table = Table(open: map<nat, Held>, leases: map<nat, Lease>, nextHandle: nat)

  const NoLeases := Table(map[], map[], 0)

  function Acquired(windows: bool, t: Table, k: Key, mode: Mode, fault: Fault, leaks: bool): Table {
    var got := LockFor(windows, t.open, k.root, mode);
    if got.None? || fault == AtOpen then t
    else
      var l := Lease(k, mode, got.value);
      var locked := t.open[t.nextHandle := Held(k.process, k.root, HoldOf(windows, l))];
      if fault == NoFault then Table(locked, t.leases[t.nextHandle := l], t.nextHandle + 1)
      else Table(if leaks then locked else t.open, t.leases, t.nextHandle + 1)
  }

  function Closed(t: Table, h: nat, leaks: bool): Table {
    if h !in t.leases then t
    else Table(if leaks then t.open else t.open - {h}, t.leases - {h}, t.nextHandle)
  }

  function Crashed(t: Table, p: Process): Table {
    Table(map h | h in t.open && t.open[h].process != p :: t.open[h], Alive(t.leases, p), t.nextHandle)
  }

  datatype Event =
    | Acquires(key: Key, mode: Mode, fault: Fault, leaks: bool)
    | Closes(handle: nat, unlockFails: bool, closeFails: bool)
    | Crashes(process: Process)

  function Happens(windows: bool, t: Table, e: Event): Table {
    match e
    case Acquires(k, mode, fault, leaks) => Acquired(windows, t, k, mode, fault, leaks)
    case Closes(h, unlockFails, closeFails) => Closed(t, h, unlockFails && closeFails)
    case Crashes(p) => Crashed(t, p)
  }

  /** The leases after any processes acquired, closed and died, in order. */
  function After(windows: bool, events: seq<Event>): Table {
    if events == [] then NoLeases else Happens(windows, After(windows, events[..|events| - 1]), events[|events| - 1])
  }

  /** Two live leases of one root are both writers', and on Windows in different slots. */
  predicate Exclude(windows: bool, a: Lease, b: Lease) {
    a.key.root == b.key.root ==>
      a.mode == b.mode == Writer && (windows ==> a.slot.Some? && b.slot.Some? && a.slot != b.slot)
  }

  class Machine {
    const windows: bool
    var open: map<nat, Held>
    var registry: map<Key, Counts>
    var occupied: map<Key, set<nat>>
    var leases: map<nat, Lease>
    var nextHandle: nat

    ghost function Now(): Table
      reads this
    {
      Table(open, leases, nextHandle)
    }

    ghost predicate Valid()
      reads this
    {
      Locks(windows, open, leases, nextHandle) && Books(windows, registry, occupied, leases)
    }

    constructor (windows: bool)
      ensures Valid() && Now() == NoLeases && this.windows == windows
    {
      this.windows := windows;
      open, registry, occupied, leases, nextHandle := map[], map[], map[], map[], 0;
      new;
      forall k ensures Booked(windows, registry, occupied, leases, k) {
        assert LeasesOf(map[], k, Writer) == {} && LeasesOf(map[], k, Retention) == {};
      }
    }

    /** A retention lease excludes every other lease on its root, in any process; writers of one root
        hold distinct slots. */
    lemma LeasesExclude(g: nat, h: nat)
      requires Valid() && g in leases && h in leases && g != h && leases[g].key.root == leases[h].key.root
      ensures leases[g].mode == leases[h].mode == Writer
      ensures windows ==> leases[g].slot.Some? && leases[h].slot.Some? && leases[g].slot != leases[h].slot
    {
      assert !Conflict(open[g].hold, open[h].hold);
    }

    /** Ask the operating system for one lock, without waiting. */
    method TryHold(k: Key, hold: Hold) returns (ok: bool)
      requires Valid() && (hold.Bytes? <==> windows)
      modifies `open
      ensures ok == old(Free(open, k.root, hold))
      ensures open == if ok then old(open)[nextHandle := Held(k.process, k.root, hold)] else old(open)
    {
      ok := Free(open, k.root, hold);
      if ok { open := open[nextHandle := Held(k.process, k.root, hold)]; }
    }

    /** Take the lock for a mode: the first free writer slot this process does not use itself, or the whole file. */
    method Lock(k: Key, mode: Mode) returns (r: Option<Option<nat>>)
      requires Valid()
      modifies `open
      ensures r == old(LockFor(windows, open, k.root, mode))
      ensures r.None? ==> open == old(open)
      ensures r.Some? ==>
                var l := Lease(k, mode, r.value);
                && SlotFits(windows, l) && old(Free(open, k.root, HoldOf(windows, l)))
                && open == old(open)[nextHandle := Held(k.process, k.root, HoldOf(windows, l))]
                && (r.value.Some? && mode == Writer && k in occupied ==> r.value.value !in occupied[k])
    {
      hide Conflict, FirstFree;
      if !windows {
        var ok := TryHold(k, if mode == Writer then Shared else Exclusive);
        return if ok then Some(None) else None;
      }
      if mode == Retention {
        var ok := TryHold(k, Bytes(0, WRITER_SLOTS));
        return if ok then Some(Some(0)) else None;
      }
      var mine := if k in occupied then occupied[k] else {};
      var slot := 0;
      FreeFromHere(open, k.root, 0);
      while slot < WRITER_SLOTS
        invariant 0 <= slot <= WRITER_SLOTS && open == old(open)
        invariant FirstFree(open, k.root, 0) == FirstFree(open, k.root, slot)
        invariant forall s | 0 <= s < slot :: !Free(open, k.root, Bytes(s, 1))
      {
        FreeFromHere(open, k.root, slot);
        if slot in mine {
          OwnSlotIsHeld(k, slot);
        } else {
          var ok := TryHold(k, Bytes(slot, 1));
          if ok { return Some(Some(slot)); }
        }
        slot := slot + 1;
      }
      return None;
    }

    lemma FreeFromHere(open: map<nat, Held>, root: Root, slot: nat)
      ensures slot < WRITER_SLOTS ==>
                FirstFree(open, root, slot) == if Free(open, root, Bytes(slot, 1)) then Some(slot) else FirstFree(open, root, slot + 1)
    {
    }

    lemma OwnSlotIsHeld(k: Key, slot: nat)
      requires Valid() && k in occupied && slot in occupied[k]
      ensures !Free(open, k.root, Bytes(slot, 1))
    {
      assert Booked(windows, registry, occupied, leases, k);
      assert Some(slot) in SlotsOf(leases, k);
      var h :| h in leases && leases[h].key == k && leases[h].mode == Writer && leases[h].slot == Some(slot);
      assert open[h].hold == Bytes(slot, 1);
    }

    /** Close the handle of a failed acquisition; a close that fails may leave the lock behind. */
    method Release(h: nat, leaks: bool)
      modifies `open
      ensures open == if leaks then old(open) else old(open) - {h}
    {
      if !leaks { open := open - {h}; }
    }

    /** Take the registration of a failed acquisition back. */
    method Unregister(k: Key, mode: Mode, slot: Option<nat>, active: Counts)
      modifies `registry, `occupied
      ensures if active == Counts(0, 0)
              then registry == old(registry) - {k} && occupied == old(occupied) - {k}
              else registry == (if k in old(registry) then old(registry)[k := active] else old(registry))
                   && occupied == (if k in old(occupied) && slot.Some? && mode == Writer
                                   then old(occupied)[k := old(occupied)[k] - {slot.value}] else old(occupied))
    {
      if k in registry { registry := registry[k := active]; }
      if slot.Some? && mode == Writer && k in occupied { occupied := occupied[k := occupied[k] - {slot.value}]; }
      if active == Counts(0, 0) { registry, occupied := registry - {k}, occupied - {k}; }
    }

    /** Enter the lease in this process's books, or undo whatever part of that was done. */
    method Register(h: nat, l: Lease, active: Counts, fault: Fault) returns (r: Grant)
      requires Books(windows, registry, occupied, leases) && h !in leases && SlotFits(windows, l) && fault != AtOpen
      requires active == (if l.key in registry then registry[l.key] else Counts(0, 0))
      requires active.retentions == 0 && (l.mode == Retention ==> active.writers == 0)
      requires l.slot.Some? && l.mode == Writer && l.key in occupied ==> l.slot.value !in occupied[l.key]
      modifies `registry, `occupied, `leases
      ensures r == if fault == NoFault then Granted(h) else Faulted
      ensures Books(windows, registry, occupied, leases)
      ensures if r.Granted? then leases == old(leases)[h := l]
              else leases == old(leases) && registry == old(registry) && occupied == old(occupied)
    {
      hide CountsOf, SlotsOf, LeasesOf, Books;
      if fault == AtIdentity { return Faulted; }
      ActiveMeans(l.key, active);
      BooksGrow(windows, registry, occupied, leases, h, l);
      if l.slot.Some? && l.key in occupied && l.mode == Writer {
        assert occupied[l.key] - {l.slot.value} == occupied[l.key];
      }
      var more := if l.mode == Writer then active.(writers := active.writers + 1) else active.(retentions := active.retentions + 1);
      if l.key in registry { registry := registry[l.key := more]; }
      if fault == AtRegistry {
        Unregister(l.key, l.mode, l.slot, active);
        assert registry == old(registry) && occupied == old(occupied);
        return Faulted;
      }
      registry := registry[l.key := more];
      if l.slot.Some? && l.mode == Writer {
        var mine := if l.key in occupied then occupied[l.key] else {};
        occupied := occupied[l.key := if fault == AtSlot(false) then mine else mine + {l.slot.value}];
      }
      if fault.AtSlot? {
        Unregister(l.key, l.mode, l.slot, active);
        assert registry == old(registry) && occupied == old(occupied);
        return Faulted;
      }
      leases := leases[h := l];
      assert registry == old(registry)[l.key := more];
      return Granted(h);
    }

    lemma ActiveMeans(k: Key, active: Counts)
      requires Books(windows, registry, occupied, leases) && active == (if k in registry then registry[k] else Counts(0, 0))
      ensures active == Counts(0, 0) ==> k !in registry && k !in occupied
      ensures k in occupied ==> active.writers > 0
      ensures windows && active.writers > 0 ==> k in occupied
    {
      assert Booked(windows, registry, occupied, leases, k);
    }

    /** Acquire a lease without waiting. Without a fault it is granted exactly when some lock for it is
        free; otherwise nothing is left registered. */
    method Acquire(k: Key, mode: Mode, fault: Fault, leaks: bool) returns (r: Grant)
      requires Valid()
      modifies this
      ensures Valid()
      ensures Now() == Acquired(windows, old(Now()), k, mode, fault, leaks)
      ensures !r.Granted? ==> registry == old(registry) && occupied == old(occupied)
      ensures fault == NoFault ==> (r.Granted? <==> old(Grantable(windows, open, k.root, mode)))
      ensures r == Busy ==> !old(Grantable(windows, open, k.root, mode))
    {
      hide Conflict, Free, Grantable, CountsOf, SlotsOf, LeasesOf, HoldOf, Locks, Books, SlotFits;
      var active := if k in registry then registry[k] else Counts(0, 0);
      if active.retentions > 0 || (mode == Retention && active.writers > 0) {
        OwnLeaseConflicts(k, mode);
        return Busy;
      }
      if fault == AtOpen { return Faulted; }
      var got := Lock(k, mode);
      if got.None? { return Busy; }
      var h, l := nextHandle, Lease(k, mode, got.value);
      nextHandle := h + 1;
      LockIsNew(windows, old(open), leases, h, l);
      r := Register(h, l, active, fault);
      if r.Faulted? {
        Release(h, leaks);
        assert old(open)[h := Held(k.process, k.root, HoldOf(windows, l))] - {h} == old(open);
      }
    }

    lemma OwnLeaseConflicts(k: Key, mode: Mode)
      requires Valid() && k in registry
      requires registry[k].retentions > 0 || (mode == Retention && registry[k].writers > 0)
      ensures !Grantable(windows, open, k.root, mode)
    {
      assert Booked(windows, registry, occupied, leases, k);
      var kind := if registry[k].retentions > 0 then Retention else Writer;
      assert LeasesOf(leases, k, kind) != {};
      var h :| h in LeasesOf(leases, k, kind);
      assert h in open && open[h].root == k.root;
    }

    /** Release a lease once; a second close does nothing. Only when both the unlock and the close of
        the handle fail can the lock outlive its lease, and then it only keeps others out. */
    method Close(h: nat, unlockFails: bool, closeFails: bool) returns (raised: bool)
      requires Valid()
      modifies `open, `registry, `occupied, `leases
      ensures Valid() && leases == old(leases) - {h}
      ensures h !in old(leases) ==> !raised && open == old(open) && registry == old(registry) && occupied == old(occupied)
      ensures h in old(leases) ==> (raised <==> unlockFails || closeFails)
      ensures Now() == Closed(old(Now()), h, unlockFails && closeFails)
    {
      hide CountsOf, SlotsOf, LeasesOf, HoldOf, Conflict, Books, Locks, SlotFits;
      if h !in leases { return false; }
      var l := leases[h];
      AloneInItsSlot(h);
      LocksShrink(windows, open, leases, nextHandle, {h}, if unlockFails && closeFails then {} else {h});
      BooksShrink(windows, registry, occupied, leases, h);
      if !(unlockFails && closeFails) { open := open - {h}; }
      var active := registry[l.key];
      active := if l.mode == Writer then active.(writers := active.writers - 1) else active.(retentions := active.retentions - 1);
      registry := registry[l.key := active];
      if l.slot.Some? && l.mode == Writer { occupied := occupied[l.key := occupied[l.key] - {l.slot.value}]; }
      if active == Counts(0, 0) {
        registry, occupied := registry - {l.key}, occupied - {l.key};
        assert registry == old(registry) - {l.key};
      }
      assert old(open) - {} == old(open);
      leases := leases - {h};
      return unlockFails || closeFails;
    }

    lemma AloneInItsSlot(h: nat)
      requires Valid() && h in leases
      ensures SlotFits(windows, leases[h])
      ensures leases[h].mode == Writer ==> LeasesOf(leases, leases[h].key, Retention) == {}
      ensures leases[h].mode == Writer && windows ==> leases[h].slot !in SlotsOf(leases - {h}, leases[h].key)
    {
      hide Books, HoldOf, Conflict;
      var l := leases[h];
      if l.mode == Writer {
        forall g | g in LeasesOf(leases, l.key, Retention) ensures false { LeasesExclude(g, h); }
        if windows && l.slot in SlotsOf(leases - {h}, l.key) {
          var g :| g in leases - {h} && leases[g].key == l.key && leases[g].mode == Writer && leases[g].slot == l.slot;
          LeasesExclude(g, h);
        }
      }
    }

    /** A process dies: the operating system releases every lock of its handles, and its memory is gone. */
    method Crash(p: Process)
      requires Valid()
      modifies `open, `registry, `occupied, `leases
      ensures Valid()
      ensures Now() == Crashed(old(Now()), p)
    {
      hide Locks, Books;
      LocksCrash(windows, open, leases, nextHandle, p);
      BooksCrash(windows, registry, occupied, leases, p);
      open := map h | h in open && open[h].process != p :: open[h];
      registry := map k | k in registry && k.process != p :: registry[k];
      occupied := map k | k in occupied && k.process != p :: occupied[k];
      leases := Alive(leases, p);
    }
  }

  function Alive(leases: map<nat, Lease>, p: Process): map<nat, Lease> {
    map h | h in leases && leases[h].key.process != p :: leases[h]
  }

  lemma LocksCrash(windows: bool, open: map<nat, Held>, leases: map<nat, Lease>, nextHandle: nat, p: Process)
    requires Locks(windows, open, leases, nextHandle)
    ensures Locks(windows, map h | h in open && open[h].process != p :: open[h], Alive(leases, p), nextHandle)
  {
    hide HoldOf, Conflict, SlotFits;
  }

  lemma BooksCrash(windows: bool, registry: map<Key, Counts>, occupied: map<Key, set<nat>>, leases: map<nat, Lease>, p: Process)
    requires Books(windows, registry, occupied, leases)
    ensures Books(windows, map k | k in registry && k.process != p :: registry[k],
                  map k | k in occupied && k.process != p :: occupied[k], Alive(leases, p))
  {
    var registry2 := map k | k in registry && k.process != p :: registry[k];
    var occupied2 := map k | k in occupied && k.process != p :: occupied[k];
    var alive := Alive(leases, p);
    forall k ensures Booked(windows, registry2, occupied2, alive, k) {
      hide CountsOf, LeasesOf, SlotsOf, Alive;
      assert Booked(windows, registry, occupied, leases, k);
      CountsMean(alive, k);
      if k.process != p { AliveAlike(leases, p, k); } else { DeadHasNone(leases, p, k); }
    }
  }

  lemma DeadHasNone(leases: map<nat, Lease>, p: Process, k: Key)
    requires k.process == p
    ensures CountsOf(Alive(leases, p), k) == Counts(0, 0) && LeasesOf(Alive(leases, p), k, Writer) == {}
  {
    assert LeasesOf(Alive(leases, p), k, Retention) == {};
  }

  /** Two lease tables agree about one process and root. */
  ghost predicate Alike(a: map<nat, Lease>, b: map<nat, Lease>, k: Key) {
    CountsOf(a, k) == CountsOf(b, k) && SlotsOf(a, k) == SlotsOf(b, k) && LeasesOf(a, k, Writer) == LeasesOf(b, k, Writer)
  }

  lemma AliveAlike(leases: map<nat, Lease>, p: Process, k: Key)
    requires k.process != p
    ensures Alike(leases, Alive(leases, p), k)
  {
    var alive := Alive(leases, p);
    assert LeasesOf(leases, k, Writer) == LeasesOf(alive, k, Writer);
    assert LeasesOf(leases, k, Retention) == LeasesOf(alive, k, Retention);
    forall o | o in SlotsOf(leases, k) ensures o in SlotsOf(alive, k) {
      var h :| h in leases && leases[h].key == k && leases[h].mode == Writer && leases[h].slot == o;
      assert alive[h] == leases[h];
    }
  }

  // -------------------------------------------------------------------- whole runs

  /** Whatever processes acquire, close and die, in any order: the leases are the specified ones, and they exclude. */
  method RunLeases(windows: bool, events: seq<Event>) returns (t: Table)
    ensures t == After(windows, events)
    ensures forall g, h | g in t.leases && h in t.leases && g != h :: Exclude(windows, t.leases[g], t.leases[h])
  {
    hide Locks, Books, Acquired, Closed, Crashed;
    var machine := new Machine(windows);
    var i := 0;
    while i < |events|
      invariant fresh(machine) && machine.windows == windows && machine.Valid()
      invariant 0 <= i <= |events| && machine.Now() == After(windows, events[..i])
    {
      assert events[..i + 1][..i] == events[..i];
      match events[i] {
        case Acquires(k, mode, fault, leaks) => var _ := machine.Acquire(k, mode, fault, leaks);
        case Closes(h, unlockFails, closeFails) => var _ := machine.Close(h, unlockFails, closeFails);
        case Crashes(p) => machine.Crash(p);
      }
      i := i + 1;
    }
    assert events[..i] == events;
    forall g, h | g in machine.leases && h in machine.leases && g != h
      ensures Exclude(windows, machine.leases[g], machine.leases[h])
    {
      if machine.leases[g].key.root == machine.leases[h].key.root { machine.LeasesExclude(g, h); }
    }
    return Table(machine.open, machine.leases, machine.nextHandle);
  }
}
