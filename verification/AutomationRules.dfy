/** Why a room is suppressed, when it is free again, and what a crash leaves to settle. */
module AutomationRules {
  import opened Wrappers
  import opened AutomationClaims
  import opened AutomationSpec
  import opened AutomationRuns

  predicate Consumes(s: State, c: Creator, r: Room) { c in s.consumed && s.consumed[c] == r }

  predicate HasJob(jobs: seq<Job>, c: Creator, output: OutputPath) {
    exists s | 0 <= s < |jobs| :: jobs[s].Job? && jobs[s].creator == c && jobs[s].output == output
  }

  /** A slot works on the room that was just observed. */
  predicate Recording(jobs: seq<Job>, items: seq<Item>, c: Creator, r: Room) {
    && Item(c, Live(r)) in items
    && exists s | 0 <= s < |jobs| :: jobs[s].Job? && jobs[s].current && jobs[s].creator == c && jobs[s].room == Some(r)
  }

  predicate NewlyStarted(before: Service, after: Service, c: Creator, r: Room) {
    exists i :: |before.history| <= i < |after.history| && after.history[i] == Started(c, r)
  }

  /** What makes a room suppressed: a claim whose job a new process finds, a job seen working on it, or a start. */
  predicate WhyConsumed(before: Service, e: Event, after: Service, c: Creator, r: Room) {
    match e
    case NewProcess(_, _, _) =>
      before.disk.claim.Some? && before.disk.claim.value.creator == c && before.disk.claim.value.room == r
      && HasJob(before.jobs, c, before.disk.claim.value.output)
    case Cycle(_, items, _, _, _) =>
      Recording(before.jobs, items, c, r) || NewlyStarted(before, after, c, r)
    case _ => false
  }

  lemma {:induction false} RearmedBecause(consumed: map<Creator, Room>, items: seq<Item>, jobs: seq<Job>, c: Creator)
    ensures var after := RearmedAll(consumed, items, jobs);
            && (c in after && (c !in consumed || consumed[c] != after[c]) ==> Recording(jobs, items, c, after[c]))
            && (c in consumed && c !in after ==> Item(c, Offline) in items)
  {
    if items != [] {
      var n := |items| - 1;
      RearmedBecause(consumed, items[..n], jobs, c);
      assert items == items[..n] + [items[n]];
      if items[n].creator == c && items[n].seen.Live? { assert items[n] == Item(c, Live(items[n].seen.room)); }
      if items[n].creator == c && items[n].seen == Offline { assert items[n] == Item(c, Offline); }
    }
  }

  // ---------------------------------------------------------------- between the steps

  /** A live, operational process has in memory what is durable, and no claim is pending. */
  predicate Ready(s: Service, alive: bool) { alive && s.operational ==> s.state == s.disk && s.disk.claim.None? }

  lemma AttemptConsumes(s: Service, item: Item, t: Try, output: OutputPath)
    requires s.state == s.disk && item.seen.Live? && s.disk.claim.None? && s.operational
    ensures var (after, turn) := Attempted(s, item, t, output);
            && s.history <= after.history && Ready(after, turn != Dies) && (turn == GoesOn ==> after.operational)
            && (forall c | c in s.disk.consumed :: c in after.disk.consumed)
            && forall c, r | Consumes(after.disk, c, r) && !Consumes(s.disk, c, r) :: NewlyStarted(s, after, c, r)
  {
    var (after, turn) := Attempted(s, item, t, output);
    if Starts(t) { assert after.history[|s.history|] == Started(item.creator, item.seen.room); }
  }

  lemma {:induction false} FilledConsumes(s: Service, ready: seq<Item>, tries: Creator -> Try)
    requires AllLive(ready) && s.state == s.disk && s.disk.claim.None? && s.operational
    ensures var (after, alive) := Filled(s, ready, tries);
            && s.history <= after.history && Ready(after, alive)
            && (forall c | c in s.disk.consumed :: c in after.disk.consumed)
            && forall c, r | Consumes(after.disk, c, r) && !Consumes(s.disk, c, r) :: NewlyStarted(s, after, c, r)
    decreases |ready|
  {
    hide Attempted, Consumes, Filled;
    if ready == [] {
      NothingFilled(s, tries);
    } else {
      assert AllLive(ready[1..]) && ready[0] in ready;
      FilledUnfolds(s, ready, tries);
      match tries(ready[0].creator).again
      case Exhausted =>
      case Blocked => FilledConsumes(s, ready[1..], tries);
      case Ready(output) =>
        var (after, turn) := Attempted(s, ready[0], tries(ready[0].creator), output);
        AttemptConsumes(s, ready[0], tries(ready[0].creator), output);
        if turn == GoesOn {
          FilledConsumes(after, ready[1..], tries);
          var last := Filled(after, ready[1..], tries).0;
          forall c, r | Consumes(last.disk, c, r) && !Consumes(s.disk, c, r) ensures NewlyStarted(s, last, c, r) {
            if !Consumes(after.disk, c, r) { StartedLater(s, after, last, c, r); } else { StartedEarlier(s, after, last, c, r); }
          }
        }
    }
  }

  lemma StartedLater(s: Service, m: Service, u: Service, c: Creator, r: Room)
    requires s.history <= m.history && NewlyStarted(m, u, c, r)
    ensures NewlyStarted(s, u, c, r)
  {
  }

  lemma StartedEarlier(s: Service, m: Service, u: Service, c: Creator, r: Room)
    requires m.history <= u.history && NewlyStarted(s, m, c, r)
    ensures NewlyStarted(s, u, c, r)
  {
    var i :| |s.history| <= i < |m.history| && m.history[i] == Started(c, r);
    assert u.history[i] == m.history[i];
  }

  lemma TakenInConsumes(s: Service, items: seq<Item>, jobsAvailable: bool, fate: SaveFate)
    requires s.state == s.disk && s.disk.claim.None? && s.operational
    ensures var (after, saved) := TakenIn(s, items, jobsAvailable, fate);
            && s.history <= after.history && after.jobs == s.jobs && Ready(after, saved != Dead) && (saved == Stored ==> after.operational)
            && forall c :: (c in after.disk.consumed && (c !in s.disk.consumed || s.disk.consumed[c] != after.disk.consumed[c]) ==>
                              Recording(s.jobs, items, c, after.disk.consumed[c]))
                           && (c in s.disk.consumed && c !in after.disk.consumed ==> Item(c, Offline) in items)
  {
    hide ObservationsOf, RearmedAll, Recording;
    forall c { RearmedBecause(s.state.consumed, items, s.jobs, c); }
  }

  lemma CycleConsumes(s: Service, cycle: int, items: seq<Item>, jobsAvailable: bool, save: SaveFate, tries: Creator -> Try, c: Creator, r: Room)
    requires Ready(s, true)
    ensures var (after, alive) := Cycled(s, cycle, items, jobsAvailable, save, tries);
            && s.history <= after.history && Ready(after, alive)
            && (Consumes(after.disk, c, r) && !Consumes(s.disk, c, r) ==> Recording(s.jobs, items, c, r) || NewlyStarted(s, after, c, r))
            && (c in s.disk.consumed && c !in after.disk.consumed ==> Item(c, Offline) in items)
            && (!s.operational ==> after == s.(latestCycle := after.latestCycle))
  {
    hide TakenIn, Filled, Candidates, Recording;
    if cycle > s.latestCycle && s.operational {
      var (seen, saved) := TakenIn(s.(latestCycle := cycle), items, jobsAvailable, save);
      TakenInConsumes(s.(latestCycle := cycle), items, jobsAvailable, save);
      if saved == Stored {
        var ready := Candidates(seen.state.consumed, items, tries);
        CandidatesAreLive(seen.state.consumed, items, tries);
        FilledConsumes(seen, ready, tries);
        if NewlyStarted(seen, Filled(seen, ready, tries).0, c, r) {
          StartedLater(s, seen, Filled(seen, ready, tries).0, c, r);
        }
      }
    }
  }

  lemma RestartConsumes(s: Service, loads: bool, jobsAvailable: bool, fate: SaveFate, c: Creator, r: Room)
    ensures var (after, alive) := Restarted(s, loads, jobsAvailable, fate);
            && after.history == s.history && after.jobs == s.jobs && Ready(after, alive)
            && (Consumes(after.disk, c, r) && !Consumes(s.disk, c, r) ==> WhyConsumed(s, NewProcess(loads, jobsAvailable, fate), after, c, r))
            && (c in s.disk.consumed ==> c in after.disk.consumed)
            && (alive ==> (after.operational <==>
                  loads && (s.disk.claim.None? || (jobsAvailable && Settles(s.jobs, s.disk.claim.value, fate)))))
            && (alive && after.operational ==> after.disk.claim.None?)
  {
  }

  lemma {:induction false} AfterIsReady(slots: nat, events: seq<Event>)
    ensures Ready(After(slots, events).0, After(slots, events).1)
  {
    hide Restarted, Cycled, Installed;
    if events != [] {
      var n := |events| - 1;
      AfterIsReady(slots, events[..n]);
      var (s, alive) := After(slots, events[..n]);
      match events[n]
      case NewProcess(loads, jobsAvailable, save) =>
        RestartReady(s, loads, jobsAvailable, save);
      case Cycle(cycle, items, jobsReadable, save, tries) =>
        if alive { CycleReady(s, cycle, items, jobsReadable, save, tries); }
      case Progress(_, _, _) =>
      case Manual(_, _) =>
    }
  }

  lemma RestartReady(s: Service, loads: bool, jobsAvailable: bool, fate: SaveFate)
    ensures var (after, alive) := Restarted(s, loads, jobsAvailable, fate); Ready(after, alive)
  {
  }

  lemma CycleReady(s: Service, cycle: int, items: seq<Item>, jobsAvailable: bool, save: SaveFate, tries: Creator -> Try)
    requires Ready(s, true)
    ensures var (after, alive) := Cycled(s, cycle, items, jobsAvailable, save, tries); Ready(after, alive)
  {
    hide TakenIn, Filled, Candidates;
    if cycle > s.latestCycle && s.operational {
      var (seen, saved) := TakenIn(s.(latestCycle := cycle), items, jobsAvailable, save);
      TakenInConsumes(s.(latestCycle := cycle), items, jobsAvailable, save);
      if saved == Stored {
        CandidatesAreLive(seen.state.consumed, items, tries);
        FilledConsumes(seen, Candidates(seen.state.consumed, items, tries), tries);
      }
    }
  }

  /** Over any run: a room becomes suppressed only because a claim's job was found, a slot was seen recording it, or it
      was started; and a creator is free again only after an observation of it offline. */
  lemma SuppressedForAReason(slots: nat, events: seq<Event>, e: Event, c: Creator, r: Room)
    ensures var before, after := After(slots, events).0, After(slots, events + [e]).0;
            && (Consumes(after.disk, c, r) && !Consumes(before.disk, c, r) ==> WhyConsumed(before, e, after, c, r))
            && (c in before.disk.consumed && c !in after.disk.consumed ==> e.Cycle? && Item(c, Offline) in e.items)
  {
    hide Restarted, Cycled, Consumes, WhyConsumed;
    assert (events + [e])[..|events|] == events;
    AfterIsReady(slots, events);
    var (s, alive) := After(slots, events);
    match e
    case NewProcess(loads, jobsAvailable, save) => RestartConsumes(s, loads, jobsAvailable, save, c, r);
    case Cycle(cycle, items, jobsReadable, save, tries) =>
      if alive {
        CycleConsumes(s, cycle, items, jobsReadable, save, tries, c, r);
        CycleReason(s, e, c, r);
      }
    case Progress(_, _, _) =>
    case Manual(_, _) =>
  }

  lemma CycleReason(s: Service, e: Event, c: Creator, r: Room)
    requires e.Cycle?
    ensures var after := Cycled(s, e.cycle, e.items, e.jobsReadable, e.rearmSave, e.tries).0;
            WhyConsumed(s, e, after, c, r) <==> Recording(s.jobs, e.items, c, r) || NewlyStarted(s, after, c, r)
  {
    hide Cycled;
  }

  /** A coordinator that is disabled starts nothing and changes nothing until a new process settles what is left. */
  lemma DisabledIsInert(slots: nat, events: seq<Event>, e: Event)
    requires After(slots, events).1 && !After(slots, events).0.operational && e.Cycle?
    ensures var before, after := After(slots, events).0, After(slots, events + [e]).0;
            after.disk == before.disk && after.jobs == before.jobs && after.history == before.history && !after.operational
  {
    assert (events + [e])[..|events|] == events;
  }

  /** A new process is operational exactly when the durable state loads and no claim is left whose fate the slots
      do not show. */
  lemma RestartSettles(slots: nat, events: seq<Event>, loads: bool, jobsAvailable: bool, save: SaveFate)
    ensures var before := After(slots, events).0;
            var (after, alive) := After(slots, events + [NewProcess(loads, jobsAvailable, save)]);
            && (alive ==> (after.operational <==>
                  loads && (before.disk.claim.None? || (jobsAvailable && Settles(before.jobs, before.disk.claim.value, save)))))
            && (alive && after.operational ==> after.disk.claim.None? && after.state == after.disk)
            && after.jobs == before.jobs && after.history == before.history
  {
    hide Restarted, Settles;
    assert (events + [NewProcess(loads, jobsAvailable, save)])[..|events|] == events;
    RestartReady(After(slots, events).0, loads, jobsAvailable, save);
    RestartKeeps(After(slots, events).0, loads, jobsAvailable, save);
  }

  lemma RestartKeeps(s: Service, loads: bool, jobsAvailable: bool, fate: SaveFate)
    ensures var (after, alive) := Restarted(s, loads, jobsAvailable, fate);
            && after.history == s.history && after.jobs == s.jobs
            && (alive ==> (after.operational <==>
                  loads && (s.disk.claim.None? || (jobsAvailable && Settles(s.jobs, s.disk.claim.value, fate)))))
  {
  }
}
