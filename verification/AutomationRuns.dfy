/** The coordinator: claim, start, promote; reconciled after a crash at any point. */
module AutomationRuns {
  import opened Wrappers
  import opened AutomationClaims
  import opened AutomationSpec

  /** Nothing stands in the way of this candidate's start. */
  predicate GoesThrough(t: Try) {
    t.again.Ready? && t.previous.Some? && t.claimSave.Saves? && t.start.Accepted? && t.endSave.Saves?
  }

  function StartsOf(ready: seq<Item>): (h: seq<Happening>)
    requires AllLive(ready)
    ensures |h| == |ready| && forall i | 0 <= i < |ready| :: h[i] == Started(ready[i].creator, ready[i].seen.room)
  {
    seq(|ready|, i requires 0 <= i < |ready| => Started(ready[i].creator, ready[i].seen.room))
  }

  class AutomationCoordinator {
    // durable
    var disk: State
    var jobs: seq<Job>
    // in the process
    var state: State
    var operational: bool
    var latestCycle: int
    // what an outside observer has seen of this service, over all its processes
    var history: seq<Happening>

    ghost function Value(): Service
      reads this
    {
      Service(disk, jobs, state, operational, latestCycle, history)
    }

    /** True at every moment, also of a process that just died. */
    ghost predicate Sound()
      reads this
    {
      Separated(history) && Covers(disk, jobs, history)
    }

    /** True of a live process between two cycles. */
    ghost predicate Steady()
      reads this
    {
      Sound() && (operational ==> state == disk && disk.claim.None?)
    }

    constructor (slots: nat)
      ensures Sound() && Value() == Installed(slots)
    {
      disk, state := State(map[], None), State(map[], None);
      jobs := seq(slots, _ => Idle);
      operational, latestCycle, history := false, 0, [];
    }

    method ReplaceState(after: State, fate: SaveFate) returns (r: Saved)
      modifies `disk, `state, `operational
      ensures (Value(), r) == Replaced(old(Value()), after, fate)
    {
      if fate.Saves? || fate.RaisesAfter? || fate.DiesAfter? { disk := after; }
      match fate {
        case Saves =>
          state := after;
          return Stored;
        case RaisesBefore =>
          operational := false;
          return Disabled;
        case RaisesAfter =>
          operational := false;
          return Disabled;
        case DiesBefore => return Dead;
        case DiesAfter => return Dead;
      }
    }

    /** A new process: load the durable state, and settle a claim that a crash left behind. */
    method Restart(loads: bool, jobsAvailable: bool, fate: SaveFate) returns (alive: bool)
      requires Sound()
      modifies `disk, `state, `operational, `latestCycle
      ensures Sound() && (alive ==> Steady()) && jobs == old(jobs)
      ensures (Value(), alive) == Restarted(old(Value()), loads, jobsAvailable, fate)
    {
      state, operational, latestCycle := State(map[], None), true, 0;
      if !loads {
        operational := false;
        return true;
      }
      state := disk;
      if disk.claim.None? { return true; }
      if !jobsAvailable {
        operational := false;
        return true;
      }
      var claim := disk.claim.value;
      var saved;
      if JobsMatchClaim(jobs, claim) {
        PromotedCovers(disk, jobs, history);
        saved := ReplaceState(State(disk.consumed[claim.creator := claim.room], None), fate);
        return saved != Dead;
      } else if JobsProveNoStart(jobs, claim) {
        ClearedCovers(disk, jobs, history);
        saved := ReplaceState(State(disk.consumed, None), fate);
        return saved != Dead;
      } else {
        operational := false;
        return true;
      }
    }

    /** Put the controller's job for a start into its slot. */
    method Occupy(slot: nat, job: Job)
      modifies `jobs
      ensures jobs == if slot < |old(jobs)| then old(jobs)[slot := job] else old(jobs)
    {
      if slot < |jobs| { jobs := jobs[slot := job]; }
    }

    /** One candidate: a durable claim, the start, and what becomes of the claim. */
    method Attempt(item: Item, t: Try, output: OutputPath) returns (turn: Turn)
      requires Steady() && operational && item.seen.Live? && !Suppressed(state.consumed, item)
      requires forall r | Guarded(history, item.creator, r) :: r == item.seen.room
      requires SlotExists(t.start, |jobs|)
      modifies `disk, `state, `operational, `jobs, `history
      ensures Sound() && |jobs| == |old(jobs)|
      ensures turn != Dies ==> Steady()
      ensures turn == GoesOn ==> operational
      ensures (Value(), turn) == Attempted(old(Value()), item, t, output)
    {
      hide Covers, Separated, Guarded;
      if t.previous.None? { return Halts; }
      var room := item.seen.room;
      var claim := Claim(item.creator, room, output, t.previous.value);
      var consumed := state.consumed;
      ClaimedCovers(consumed, jobs, history, claim);
      NotGuarded(consumed, item);
      var saved := ReplaceState(State(consumed, Some(claim)), t.claimSave);
      if saved == Dead { return Dies; }
      if saved == Disabled { return Halts; }
      ghost var jobs0 := jobs;
      match t.start {
        case DiesUnstarted => return Dies;
        case DiesStarted(slot, session) =>
          Occupy(slot, Job(session, item.creator, output, None, true));
          NewJobMatches(slot, claim);
          StartedCovers(disk, jobs0, jobs, history);
          SeparatedSnoc(history, Started(item.creator, room));
          history := history + [Started(item.creator, room)];
          return Dies;
        case Accepted(slot, session) =>
          Occupy(slot, Job(session, item.creator, output, None, true));
          NewJobMatches(slot, claim);
          StartedCovers(disk, jobs0, jobs, history);
          SeparatedSnoc(history, Started(item.creator, room));
          history := history + [Started(item.creator, room)];
          PromotedCovers(disk, jobs, history);
          saved := ReplaceState(State(consumed[item.creator := room], None), t.endSave);
          return if saved == Dead then Dies else if saved == Stored then GoesOn else Halts;
        case FailsBehind(slot, session) =>
          Occupy(slot, Job(session, item.creator, output, None, false));
          NewJobMatches(slot, claim);
          JobsChangeCovers(disk, jobs0, jobs, history);
        case Duplicate =>
        case Busy =>
        case Fails =>
      }
      JobsChangeCovers(State(consumed, None), jobs0, jobs, history);
      saved := ReplaceState(State(consumed, None), t.endSave);
      if saved == Dead { return Dies; }
      return if t.start.Duplicate? && saved == Stored then GoesOn else Halts;
    }

    lemma NotGuarded(consumed: map<Creator, Room>, item: Item)
      requires Covers(State(consumed, None), jobs, history) && item.seen.Live? && !Suppressed(consumed, item)
      ensures !Guarded(history, item.creator, item.seen.room)
    {
    }

    lemma NewJobMatches(slot: nat, claim: Claim)
      requires slot < |jobs| && JobMatchesClaim(jobs[slot], claim)
      ensures JobsMatchClaim(jobs, claim)
    {
    }

    /** Each candidate of the cycle: observed live, not suppressed, and started in no other room since. */
    ghost predicate Candidate(item: Item)
      reads `state, `history
    {
      && item.seen.Live? && !Suppressed(state.consumed, item)
      && forall r | Guarded(history, item.creator, r) :: r == item.seen.room
    }

    /** Take the cycle's observations in: offline re-arms a room, a current job consumes its own. */
    method ApplyRearm(items: seq<Item>, jobsAvailable: bool, fate: SaveFate) returns (saved: Saved)
      requires Steady() && operational && Distinct(items)
      modifies `disk, `state, `operational, `history
      ensures Sound() && (saved != Dead ==> Steady()) && (saved == Stored ==> operational)
      ensures (Value(), saved) == TakenIn(old(Value()), items, jobsAvailable, fate)
      ensures saved == Stored ==> forall i | 0 <= i < |items| && items[i].seen.Live? ::
                                    forall r | Guarded(history, items[i].creator, r) :: r == items[i].seen.room
    {
      hide Covers, Separated, Guarded, Rearmed, RearmedAll, ObservationsOf;
      if !jobsAvailable {
        operational := false;
        return Disabled;
      }
      var consumed, k := state.consumed, 0;
      StateIs(disk);
      NothingTaken(state.consumed, items, jobs, history);
      while k < |items|
        invariant 0 <= k <= |items| && operational && state == disk && disk.claim.None?
        invariant state == old(state) && consumed == RearmedAll(old(state.consumed), items[..k], jobs)
        invariant history == old(history) + ObservationsOf(items[..k])
        invariant Separated(history) && Covers(disk, jobs, history) && Covers(State(consumed, None), jobs, history)
        invariant forall i | 0 <= i < k && items[i].seen.Live? ::
            forall r | Guarded(history, items[i].creator, r) :: r == items[i].seen.room
      {
        var item := items[k];
        var e := Observed(item.creator, item.seen);
        ObservedCovers(consumed, jobs, history, item);
        ObservedKeeps(disk, jobs, history, e);
        SeparatedSnoc(history, e);
        forall c, r ensures Guarded(history + [e], c, r) ==> Guarded(history, c, r) { GuardedSnoc(history, e, c, r); }
        OneMoreTaken(old(state.consumed), items, jobs, old(history), k);
        consumed := Rearmed(consumed, item, jobs);
        history := history + [e];
        k := k + 1;
      }
      assert items[..k] == items;
      if consumed == state.consumed { return Stored; }
      saved := ReplaceState(State(consumed, state.claim), fate);
    }

    lemma NothingTaken(consumed: map<Creator, Room>, items: seq<Item>, jobs: seq<Job>, h: seq<Happening>)
      ensures RearmedAll(consumed, items[..0], jobs) == consumed && h + ObservationsOf(items[..0]) == h
    {
    }

    lemma OneMoreTaken(consumed: map<Creator, Room>, items: seq<Item>, jobs: seq<Job>, h: seq<Happening>, k: nat)
      requires k < |items|
      ensures RearmedAll(consumed, items[..k + 1], jobs) == Rearmed(RearmedAll(consumed, items[..k], jobs), items[k], jobs)
      ensures h + ObservationsOf(items[..k + 1]) == h + ObservationsOf(items[..k]) + [Observed(items[k].creator, items[k].seen)]
    {
      hide Rearmed;
      assert items[..k + 1][..k] == items[..k];
      assert ObservationsOf(items[..k + 1]) == ObservationsOf(items[..k]) + [Observed(items[k].creator, items[k].seen)];
    }

    lemma StateIs(s: State)
      ensures s.claim.None? ==> s == State(s.consumed, None)
    {
    }

    /** The candidates: live, not the consumed room, and admitted; in alphabetical order. */
    method Classify(items: seq<Item>, tries: Creator -> Try) returns (ready: seq<Item>)
      ensures ready == Candidates(state.consumed, items, tries)
    {
      ready := [];
      var k := 0;
      while k < |items|
        invariant 0 <= k <= |items| && ready == Candidates(state.consumed, items[..k], tries)
      {
        assert items[..k + 1][..k] == items[..k];
        if IsCandidate(state.consumed, items[k], tries) { ready := Inserted(ready, items[k]); }
        k := k + 1;
      }
      assert items[..k] == items;
    }

    /** Try the candidates one after the other while capacity and the durable state allow. */
    method FillCapacity(ready: seq<Item>, tries: Creator -> Try) returns (alive: bool)
      requires Steady() && operational && Distinct(ready) && AllLive(ready) && forall item | item in ready :: Candidate(item)
      requires forall c :: SlotExists(tries(c).start, |jobs|)
      modifies `disk, `state, `operational, `jobs, `history
      ensures Sound() && |jobs| == |old(jobs)| && (alive ==> Steady())
      ensures (Value(), alive) == Filled(old(Value()), ready, tries)
    {
      hide Covers, Separated, Guarded, Attempted;
      var k := 0;
      assert ready[0..] == ready;
      while k < |ready|
        invariant 0 <= k <= |ready| && Steady() && operational && |jobs| == |old(jobs)| && AllLive(ready[k..])
        invariant Filled(old(Value()), ready, tries) == Filled(Value(), ready[k..], tries)
        invariant forall i | k <= i < |ready| :: Candidate(ready[i])
      {
        var item := ready[k];
        assert item in ready;
        var t := tries(item.creator);
        assert ready[k..][0] == item && ready[k..][1..] == ready[k + 1..];
        match t.again {
          case Exhausted => return true;
          case Blocked =>
          case Ready(output) =>
            ghost var h, consumed := history, state.consumed;
            ghost var before := Value();
            var turn := Attempt(item, t, output);
            AttemptLeaves(before, item, t, output);
            if turn == Dies { return false; }
            if turn == Halts { return true; }
            forall i | k < i < |ready| ensures Candidate(ready[i]) {
              assert ready[i] in ready && ready[i].creator != item.creator;
              OthersKeep(h, history, item, ready[i]);
            }
        }
        k := k + 1;
      }
      return true;
    }

    lemma OthersKeep(h: seq<Happening>, after: seq<Happening>, started: Item, other: Item)
      requires started.seen.Live? && other.creator != started.creator && other.seen.Live?
      requires after == h || after == h + [Started(started.creator, started.seen.room)]
      requires forall r | Guarded(h, other.creator, r) :: r == other.seen.room
      ensures forall r | Guarded(after, other.creator, r) :: r == other.seen.room
    {
      forall r | Guarded(after, other.creator, r) ensures r == other.seen.room {
        GuardedSnoc(h, Started(started.creator, started.seen.room), other.creator, r);
      }
    }

    /** One complete monitoring cycle. */
    method CycleCompleted(cycle: int, items: seq<Item>, jobsAvailable: bool, rearmSave: SaveFate, tries: Creator -> Try)
      returns (alive: bool)
      requires Steady() && Distinct(items) && forall c :: SlotExists(tries(c).start, |jobs|)
      modifies `disk, `state, `operational, `jobs, `latestCycle, `history
      ensures Sound() && |jobs| == |old(jobs)| && (alive ==> Steady())
      ensures (Value(), alive) == Cycled(old(Value()), cycle, items, jobsAvailable, rearmSave, tries)
    {
      hide Covers, Separated, Guarded, TakenIn, Filled, Candidates;
      if cycle <= latestCycle { return true; }
      latestCycle := cycle;
      if !operational { return true; }
      var saved := ApplyRearm(items, jobsAvailable, rearmSave);
      if saved != Stored { return saved != Dead; }
      var ready := Classify(items, tries);
      CandidatesAreLive(state.consumed, items, tries);
      CandidatesAreDistinct(state.consumed, items, tries);
      forall item | item in ready ensures Candidate(item) {
        var i :| 0 <= i < |items| && items[i] == item;
      }
      alive := FillCapacity(ready, tries);
    }

    /** Jobs move on by themselves, keeping the session and the paths they were accepted with. */
    method JobProgress(slot: nat, room: Option<Room>, current: bool)
      requires Sound() && slot < |jobs|
      modifies `jobs
      ensures Sound() && jobs == MovedOn(old(jobs), slot, room, current)
    {
      if jobs[slot].Job? {
        ghost var before := jobs;
        jobs := jobs[slot := jobs[slot].(room := room, current := current)];
        if disk.claim.Some? && JobsMatchClaim(before, disk.claim.value) {
          var s :| 0 <= s < |before| && JobMatchesClaim(before[s], disk.claim.value);
          assert JobMatchesClaim(jobs[s], disk.claim.value);
        }
        JobsChangeCovers(disk, before, jobs, history);
      }
    }

    /** A manual recording takes a slot while no automatic claim is unsettled. */
    method ManualStart(slot: nat, job: Job)
      requires Sound() && slot < |jobs| && disk.claim.None?
      modifies `jobs
      ensures Sound() && jobs == old(jobs)[slot := job]
    {
      JobsChangeCovers(disk, jobs, jobs[slot := job], history);
      jobs := jobs[slot := job];
    }
  }

  /** What an attempt leaves of the rooms and the history, for the candidates behind it. */
  lemma AttemptLeaves(s: Service, item: Item, t: Try, output: OutputPath)
    requires item.seen.Live?
    ensures var (after, turn) := Attempted(s, item, t, output);
            && (after.history == s.history || after.history == s.history + [Started(item.creator, item.seen.room)])
            && (after.state.consumed == s.state.consumed || after.state.consumed == s.state.consumed[item.creator := item.seen.room])
            && (turn == GoesOn ==> after.operational == s.operational)
  {
  }

  lemma {:induction false} CandidatesAreDistinct(consumed: map<Creator, Room>, items: seq<Item>, tries: Creator -> Try)
    requires Distinct(items)
    ensures Distinct(Candidates(consumed, items, tries))
  {
    if items != [] {
      var n := |items| - 1;
      CandidatesAreDistinct(consumed, items[..n], tries);
      CandidatesAreLive(consumed, items[..n], tries);
      InsertedIsDistinct(Candidates(consumed, items[..n], tries), items[n]);
    }
  }

  lemma {:induction false} InsertedIsDistinct(items: seq<Item>, item: Item)
    requires Distinct(items) && forall other | other in items :: other.creator != item.creator
    ensures Distinct(Inserted(items, item))
  {
    var n := |items| - 1;
    assert forall k | 0 <= k < |items| :: items[k] in items;
    if items != [] && !Earlier(items[n].creator, item.creator) {
      InsertedIsDistinct(items[..n], item);
      InsertedHas(items[..n], item);
      var front := Inserted(items[..n], item);
      forall k | 0 <= k < |front| ensures front[k].creator != items[n].creator {
        assert front[k] == item || front[k] in items[..n];
      }
    }
  }

  // -------------------------------------------------------------------- whole runs

  /** Any events lead where they are specified to lead, and over all of them two accepted starts of the same room
      of the same creator are separated by an observation of that creator offline or in another room. */
  method RunService(slots: nat, events: seq<Event>) returns (history: seq<Happening>, state: State)
    requires forall e | e in events :: Possible(e, slots)
    ensures var s := After(slots, events).0; history == s.history && state == s.disk
    ensures Separated(history)
    ensures state.claim.None? ==> forall c, r | Guarded(history, c, r) :: c in state.consumed && state.consumed[c] == r
  {
    hide Covers, Separated, Guarded, Distinct, SlotExists, Restarted, Cycled, MovedOn, Installed;
    InstalledSlots(slots);
    var service := new AutomationCoordinator(slots);
    var running, k := false, 0;
    while k < |events|
      invariant 0 <= k <= |events| && fresh(service) && |service.jobs| == slots
      invariant service.Sound() && (running ==> service.Steady())
      invariant (service.Value(), running) == After(slots, events[..k])
    {
      assert events[k] in events && Possible(events[k], slots);
      assert events[..k + 1][..k] == events[..k];
      match events[k] {
        case NewProcess(loads, available, save) =>
          running := service.Restart(loads, available, save);
        case Cycle(cycle, items, readable, rearmSave, tries) =>
          if running { running := service.CycleCompleted(cycle, items, readable, rearmSave, tries); }
        case Progress(slot, room, current) =>
          MovedOnSlots(service.jobs, slot, room, current);
          service.JobProgress(slot, room, current);
        case Manual(slot, job) =>
          if service.disk.claim.None? { service.ManualStart(slot, job); }
      }
      k := k + 1;
    }
    assert events[..k] == events;
    ConsumedCover(service.disk, service.jobs, service.history);
    return service.history, service.disk;
  }

  lemma InstalledSlots(slots: nat)
    ensures |Installed(slots).jobs| == slots
  {
  }

  lemma MovedOnSlots(jobs: seq<Job>, slot: nat, room: Option<Room>, current: bool)
    ensures |MovedOn(jobs, slot, room, current)| == |jobs|
  {
  }

  // ------------------------------------------------------ what a cycle adds to the history

  /** The candidates whose starts the controller accepts: up to the first that does not let the next one go. */
  function Begun(ready: seq<Item>, tries: Creator -> Try): (started: seq<Item>)
    ensures forall item | item in started :: item in ready
  {
    if ready == [] then []
    else
      var t := tries(ready[0].creator);
      match t.again
      case Exhausted => []
      case Blocked => Begun(ready[1..], tries)
      case Ready(_) =>
        var rest := if LetsNext(t) then Begun(ready[1..], tries) else [];
        if Starts(t) then [ready[0]] + rest else rest
  }

  lemma {:induction false} FilledHistory(s: Service, ready: seq<Item>, tries: Creator -> Try)
    requires AllLive(ready)
    ensures AllLive(Begun(ready, tries)) && Filled(s, ready, tries).0.history == s.history + StartsOf(Begun(ready, tries))
    decreases |ready|
  {
    hide Attempted, Starts, LetsNext, StartsOf, Filled, Begun;
    NoStarts();
    NothingFilled(s, tries);
    if ready != [] {
      var item, t := ready[0], tries(ready[0].creator);
      assert AllLive(ready[1..]) && item.seen.Live?;
      FilledUnfolds(s, ready, tries);
      BegunUnfolds(ready, tries);
      match t.again {
        case Exhausted =>
        case Blocked => FilledHistory(s, ready[1..], tries);
        case Ready(output) =>
          var (after, turn) := Attempted(s, item, t, output);
          AttemptHistory(s, item, t, output);
          if turn == GoesOn { FilledHistory(after, ready[1..], tries); }
          var rest := if LetsNext(t) then Begun(ready[1..], tries) else [];
          StartsFirst(item, rest);
          Appended(s.history, [Started(item.creator, item.seen.room)], StartsOf(rest));
      }
    }
  }

  lemma NothingFilled(s: Service, tries: Creator -> Try)
    ensures Filled(s, [], tries) == (s, true) && Begun([], tries) == [] && s.history + [] == s.history
  {
  }

  lemma Appended(h: seq<Happening>, first: seq<Happening>, rest: seq<Happening>)
    ensures h + first + rest == h + (first + rest) && h + [] == h
  {
  }

  lemma FilledUnfolds(s: Service, ready: seq<Item>, tries: Creator -> Try)
    requires AllLive(ready) && ready != []
    ensures AllLive(ready[1..]) && ready[0].seen.Live?
    ensures Filled(s, ready, tries) ==
            match tries(ready[0].creator).again
            case Exhausted => (s, true)
            case Blocked => Filled(s, ready[1..], tries)
            case Ready(output) =>
              var (after, turn) := Attempted(s, ready[0], tries(ready[0].creator), output);
              if turn == GoesOn then Filled(after, ready[1..], tries) else (after, turn == Halts)
  {
    hide Attempted;
  }

  lemma BegunUnfolds(ready: seq<Item>, tries: Creator -> Try)
    requires ready != []
    ensures var t := tries(ready[0].creator);
            Begun(ready, tries) ==
            match t.again
            case Exhausted => []
            case Blocked => Begun(ready[1..], tries)
            case Ready(_) =>
              var rest := if LetsNext(t) then Begun(ready[1..], tries) else [];
              if Starts(t) then [ready[0]] + rest else rest
  {
    hide LetsNext, Starts;
  }

  lemma NoStarts()
    ensures StartsOf([]) == []
  {
  }

  lemma StartsFirst(item: Item, rest: seq<Item>)
    requires item.seen.Live? && AllLive(rest)
    ensures AllLive([item] + rest) && StartsOf([item] + rest) == [Started(item.creator, item.seen.room)] + StartsOf(rest)
  {
  }

  lemma AttemptHistory(s: Service, item: Item, t: Try, output: OutputPath)
    requires item.seen.Live?
    ensures var (after, turn) := Attempted(s, item, t, output);
            && after.history == (if Starts(t) then s.history + [Started(item.creator, item.seen.room)] else s.history)
            && (turn == GoesOn <==> LetsNext(t))
  {
  }

  /** An operational cycle adds its observations, then one start for each candidate accepted: in alphabetical
      order, none of them suppressed, and all of them when nothing stands in the way. */
  lemma CycleHistory(s: Service, cycle: int, items: seq<Item>, rearmSave: SaveFate, tries: Creator -> Try)
    requires s.operational && cycle > s.latestCycle && Distinct(items)
    ensures var after := Cycled(s, cycle, items, true, rearmSave, tries).0;
            var (seen, saved) := TakenIn(s.(latestCycle := cycle), items, true, rearmSave);
            var ready := Candidates(seen.state.consumed, items, tries);
            var started := if saved == Stored then Begun(ready, tries) else [];
            && AllLive(started) && InOrder(ready)
            && after.history == s.history + ObservationsOf(items) + StartsOf(started)
            && (forall item :: item in ready <==>
                  && item in items && item.seen.Live? && tries(item.creator).admitted
                  && !(item.creator in seen.state.consumed && seen.state.consumed[item.creator] == item.seen.room))
            && (saved == Stored && (forall item | item in ready :: GoesThrough(tries(item.creator))) ==> started == ready)
  {
    hide Filled, Candidates, InOrder, TakenIn, Begun, StartsOf, ObservationsOf, Distinct, GoesThrough;
    TakenInHistory(s.(latestCycle := cycle), items, rearmSave);
    NoStarts();
    var (seen, saved) := TakenIn(s.(latestCycle := cycle), items, true, rearmSave);
    var ready := Candidates(seen.state.consumed, items, tries);
    CandidatesAreLive(seen.state.consumed, items, tries);
    CandidatesInOrder(seen.state.consumed, items, tries);
    FilledHistory(seen, ready, tries);
    if forall item | item in ready :: GoesThrough(tries(item.creator)) { AllBegun(ready, tries); }
  }

  lemma TakenInHistory(s: Service, items: seq<Item>, fate: SaveFate)
    ensures TakenIn(s, items, true, fate).0.history == s.history + ObservationsOf(items)
  {
    hide ObservationsOf, RearmedAll;
  }

  lemma {:induction false} AllBegun(ready: seq<Item>, tries: Creator -> Try)
    requires forall item | item in ready :: GoesThrough(tries(item.creator))
    ensures Begun(ready, tries) == ready
  {
    if ready != [] {
      assert ready[0] in ready;
      AllBegun(ready[1..], tries);
    }
  }

  predicate InOrder(items: seq<Item>) {
    forall i, j | 0 <= i < j < |items| :: Earlier(items[i].creator, items[j].creator)
  }

  lemma {:induction false} CandidatesInOrder(consumed: map<Creator, Room>, items: seq<Item>, tries: Creator -> Try)
    requires Distinct(items)
    ensures InOrder(Candidates(consumed, items, tries))
  {
    if items != [] {
      var n := |items| - 1;
      CandidatesInOrder(consumed, items[..n], tries);
      CandidatesAreLive(consumed, items[..n], tries);
      InsertedInOrder(Candidates(consumed, items[..n], tries), items[n]);
    }
  }

  lemma {:induction false} InsertedInOrder(items: seq<Item>, item: Item)
    requires InOrder(items) && forall other | other in items :: other.creator != item.creator
    ensures InOrder(Inserted(items, item))
  {
    var n := |items| - 1;
    assert forall k | 0 <= k < |items| :: items[k] in items;
    if items != [] {
      var last := items[n].creator;
      if Earlier(last, item.creator) {
        forall k | 0 <= k < n ensures Earlier(items[k].creator, item.creator) {
          EarlierTransitive(items[k].creator, last, item.creator);
        }
      } else {
        EarlierTotal(last, item.creator);
        InsertedInOrder(items[..n], item);
        InsertedHas(items[..n], item);
        var front := Inserted(items[..n], item);
        forall k | 0 <= k < |front| ensures Earlier(front[k].creator, last) {
          assert front[k] == item || front[k] in items[..n];
        }
      }
    }
  }

  /** One handle is before another where they first differ, or when it ends first. */
  lemma {:induction false} EarlierMeans(a: Creator, b: Creator, k: nat)
    requires k <= |a| && k <= |b| && a[..k] == b[..k] && (k == |a| || k == |b| || a[k] != b[k])
    ensures Earlier(a, b) <==> k < |b| && (k == |a| || a[k] < b[k])
  {
    if k > 0 {
      assert a[0] == a[..k][0] == b[..k][0] == b[0];
      assert a[1..][..k - 1] == a[..k][1..] == b[..k][1..] == b[1..][..k - 1];
      EarlierMeans(a[1..], b[1..], k - 1);
    }
  }

  lemma {:induction false} EarlierTransitive(a: Creator, b: Creator, c: Creator)
    requires Earlier(a, b) && Earlier(b, c)
    ensures Earlier(a, c)
  {
    if a != "" && a[0] == b[0] == c[0] { EarlierTransitive(a[1..], b[1..], c[1..]); }
  }

  lemma {:induction false} EarlierTotal(a: Creator, b: Creator)
    ensures Earlier(a, b) || Earlier(b, a) || a == b
  {
    if a != "" && b != "" && a[0] == b[0] {
      EarlierTotal(a[1..], b[1..]);
      assert a == [a[0]] + a[1..] && b == [b[0]] + b[1..];
    }
  }

  lemma ConsumedCover(disk: State, jobs: seq<Job>, h: seq<Happening>)
    requires Covers(disk, jobs, h)
    ensures disk.claim.None? ==> forall c, r | Guarded(h, c, r) :: c in disk.consumed && disk.consumed[c] == r
  {
    forall c, r | disk.claim.None? && Guarded(h, c, r) ensures c in disk.consumed && disk.consumed[c] == r {
      assert Covered(disk, jobs, c, r);
    }
  }
}
