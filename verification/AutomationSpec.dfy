/** What a cycle, a crash, a restart does to the automatic-start service, and what its runs add up to. */
module AutomationSpec {
  import opened Wrappers
  import opened AutomationClaims

  /** How replacing the durable state goes: it can raise or die before or after the replacement. */
  datatype SaveFate = Saves | RaisesBefore | RaisesAfter | DiesBefore | DiesAfter
  datatype Saved = Stored | Disabled | Dead

  /** What the controller does with a start, and in which slot it leaves a job. */
  datatype StartFate =
    | Accepted(slot: nat, session: Session)
    | Duplicate
    | Busy
    | Fails
    | FailsBehind(slot: nat, session: Session)
    | DiesUnstarted
    | DiesStarted(slot: nat, session: Session)

  datatype Admission = Ready(output: OutputPath) | Blocked | Exhausted

  /** Everything outside the coordinator that one candidate's attempt depends on. */
  datatype Try = Try(admitted: bool, again: Admission, previous: Option<Option<Session>>, claimSave: SaveFate,
                     start: StartFate, endSave: SaveFate)

  datatype Turn = GoesOn | Halts | Dies

  /** The durable state and job slots, the process's own fields, and what an observer has seen over all processes. */
  datatype Service = Service(disk: State, jobs: seq<Job>, state: State, operational: bool, latestCycle: int,
                             history: seq<Happening>)

  predicate Distinct(items: seq<Item>) {
    forall i, j | 0 <= i < j < |items| :: items[i].creator != items[j].creator
  }

  predicate AllLive(items: seq<Item>) { forall item | item in items :: item.seen.Live? }

  predicate Suppressed(consumed: map<Creator, Room>, item: Item) {
    item.seen.Live? && item.creator in consumed && consumed[item.creator] == item.seen.room
  }

  /** The job slots decide what became of a claim, and the decision can be stored. */
  predicate Settles(jobs: seq<Job>, claim: Claim, fate: SaveFate) {
    (JobsMatchClaim(jobs, claim) || JobsProveNoStart(jobs, claim)) && !fate.RaisesBefore? && !fate.RaisesAfter?
  }

  predicate SlotExists(start: StartFate, slots: nat) {
    start.Accepted? || start.DiesStarted? || start.FailsBehind? ==> start.slot < slots
  }

  // -------------------------------------------------------------------- the steps

  function Replaced(s: Service, after: State, fate: SaveFate): (Service, Saved) {
    var stored := s.(disk := if fate.RaisesBefore? || fate.DiesBefore? then s.disk else after);
    match fate
    case Saves => (stored.(state := after), Stored)
    case RaisesBefore => (stored.(operational := false), Disabled)
    case RaisesAfter => (stored.(operational := false), Disabled)
    case DiesBefore => (stored, Dead)
    case DiesAfter => (stored, Dead)
  }

  /** A new process, and whether it is alive: a claim that a crash left behind is settled by the job slots. */
  function Restarted(s: Service, loads: bool, jobsAvailable: bool, fate: SaveFate): (Service, bool) {
    var begun := s.(state := State(map[], None), operational := true, latestCycle := 0);
    var loaded := begun.(state := s.disk);
    if !loads then (begun.(operational := false), true)
    else if s.disk.claim.None? then (loaded, true)
    else
      var claim := s.disk.claim.value;
      if jobsAvailable && JobsMatchClaim(s.jobs, claim) then
        var (r, saved) := Replaced(loaded, State(s.disk.consumed[claim.creator := claim.room], None), fate);
        (r, saved != Dead)
      else if jobsAvailable && JobsProveNoStart(s.jobs, claim) then
        var (r, saved) := Replaced(loaded, State(s.disk.consumed, None), fate);
        (r, saved != Dead)
      else (loaded.(operational := false), true)
  }

  /** The observations of a cycle: offline re-arms a room, a current job consumes its own. */
  function TakenIn(s: Service, items: seq<Item>, jobsAvailable: bool, fate: SaveFate): (Service, Saved) {
    if !jobsAvailable then (s.(operational := false), Disabled)
    else
      var seen := s.(history := s.history + ObservationsOf(items));
      var consumed := RearmedAll(s.state.consumed, items, s.jobs);
      if consumed == s.state.consumed then (seen, Stored) else Replaced(seen, State(consumed, s.state.claim), fate)
  }

  /** Alphabetical order of creators. */
  predicate Earlier(a: Creator, b: Creator) {
    b != "" && (a == "" || a[0] < b[0] || (a[0] == b[0] && Earlier(a[1..], b[1..])))
  }

  /** Where an item belongs among items in alphabetical order. */
  function Inserted(items: seq<Item>, item: Item): seq<Item> {
    if items == [] then [item]
    else if Earlier(items[|items| - 1].creator, item.creator) then items + [item]
    else Inserted(items[..|items| - 1], item) + [items[|items| - 1]]
  }

  predicate IsCandidate(consumed: map<Creator, Room>, item: Item, tries: Creator -> Try) {
    item.seen.Live? && !Suppressed(consumed, item) && tries(item.creator).admitted
  }

  /** The cycle's candidates: live, not the consumed room, admitted; in alphabetical order. */
  function Candidates(consumed: map<Creator, Room>, items: seq<Item>, tries: Creator -> Try): seq<Item> {
    if items == [] then []
    else
      var before, item := Candidates(consumed, items[..|items| - 1], tries), items[|items| - 1];
      if IsCandidate(consumed, item, tries) then Inserted(before, item) else before
  }

  /** The slots after the controller took, or refused, one start. */
  function JobsAfter(jobs: seq<Job>, item: Item, start: StartFate, output: OutputPath): seq<Job> {
    match start
    case Accepted(slot, session) => if slot < |jobs| then jobs[slot := Job(session, item.creator, output, None, true)] else jobs
    case DiesStarted(slot, session) => if slot < |jobs| then jobs[slot := Job(session, item.creator, output, None, true)] else jobs
    case FailsBehind(slot, session) => if slot < |jobs| then jobs[slot := Job(session, item.creator, output, None, false)] else jobs
    case _ => jobs
  }

  /** The controller accepted the start, whether or not the process lives to know. */
  predicate Starts(t: Try) {
    t.previous.Some? && t.claimSave.Saves? && (t.start.Accepted? || t.start.DiesStarted?)
  }

  /** The next candidate gets its turn. */
  predicate LetsNext(t: Try) {
    t.previous.Some? && t.claimSave.Saves? && (t.start.Accepted? || t.start.Duplicate?) && t.endSave.Saves?
  }

  /** One candidate: a durable claim, the start, and what becomes of the claim. */
  function Attempted(s: Service, item: Item, t: Try, output: OutputPath): (Service, Turn)
    requires item.seen.Live?
  {
    if t.previous.None? then (s, Halts)
    else
      var claim := Claim(item.creator, item.seen.room, output, t.previous.value);
      var (claimed, saved) := Replaced(s, State(s.state.consumed, Some(claim)), t.claimSave);
      if saved == Dead then (claimed, Dies)
      else if saved == Disabled then (claimed, Halts)
      else
        var history := if Starts(t) then s.history + [Started(item.creator, item.seen.room)] else s.history;
        var after := claimed.(jobs := JobsAfter(s.jobs, item, t.start, output), history := history);
        if t.start.DiesUnstarted? || t.start.DiesStarted? then (after, Dies)
        else
          var consumed := if t.start.Accepted? then s.state.consumed[item.creator := item.seen.room] else s.state.consumed;
          var (ended, kept) := Replaced(after, State(consumed, None), t.endSave);
          (ended, if kept == Dead then Dies else if LetsNext(t) then GoesOn else Halts)
  }

  /** The candidates one after the other, while capacity and the durable state allow. */
  function Filled(s: Service, ready: seq<Item>, tries: Creator -> Try): (Service, bool)
    requires AllLive(ready)
    decreases |ready|
  {
    if ready == [] then (s, true)
    else
      match tries(ready[0].creator).again
      case Exhausted => (s, true)
      case Blocked => Filled(s, ready[1..], tries)
      case Ready(output) =>
        var (after, turn) := Attempted(s, ready[0], tries(ready[0].creator), output);
        if turn == GoesOn then Filled(after, ready[1..], tries) else (after, turn == Halts)
  }

  lemma {:induction false} CandidatesAreLive(consumed: map<Creator, Room>, items: seq<Item>, tries: Creator -> Try)
    ensures forall item :: item in Candidates(consumed, items, tries) <==> item in items && IsCandidate(consumed, item, tries)
  {
    if items != [] {
      var n := |items| - 1;
      CandidatesAreLive(consumed, items[..n], tries);
      InsertedHas(Candidates(consumed, items[..n], tries), items[n]);
      assert items == items[..n] + [items[n]];
    }
  }

  lemma {:induction false} InsertedHas(items: seq<Item>, item: Item)
    ensures multiset(Inserted(items, item)) == multiset(items) + multiset{item}
    ensures forall other :: other in Inserted(items, item) <==> other == item || other in items
  {
    var n := |items| - 1;
    if items != [] {
      assert items == items[..n] + [items[n]];
      if !Earlier(items[n].creator, item.creator) { InsertedHas(items[..n], item); }
    }
  }

  /** A whole monitoring cycle. */
  function Cycled(s: Service, cycle: int, items: seq<Item>, jobsAvailable: bool, rearmSave: SaveFate, tries: Creator -> Try): (Service, bool)
  {
    if cycle <= s.latestCycle then (s, true)
    else if !s.operational then (s.(latestCycle := cycle), true)
    else
      var (seen, saved) := TakenIn(s.(latestCycle := cycle), items, jobsAvailable, rearmSave);
      if saved != Stored then (seen, saved != Dead)
      else
        CandidatesAreLive(seen.state.consumed, items, tries);
        Filled(seen, Candidates(seen.state.consumed, items, tries), tries)
  }

  // ------------------------------------------------------------------- whole runs

  /** What can happen to a service, in any order: a new process, a cycle, a job moving on, a manual start. */
  datatype Event =
    | NewProcess(loads: bool, jobsAvailable: bool, save: SaveFate)
    | Cycle(cycle: int, items: seq<Item>, jobsReadable: bool, rearmSave: SaveFate, tries: Creator -> Try)
    | Progress(slot: nat, room: Option<Room>, current: bool)
    | Manual(slot: nat, job: Job)

  ghost predicate Possible(e: Event, slots: nat) {
    match e
    case NewProcess(_, _, _) => true
    case Cycle(_, items, _, _, tries) => Distinct(items) && forall c :: SlotExists(tries(c).start, slots)
    case Progress(slot, _, _) => slot < slots
    case Manual(slot, _) => slot < slots
  }

  function MovedOn(jobs: seq<Job>, slot: nat, room: Option<Room>, current: bool): seq<Job> {
    if slot < |jobs| && jobs[slot].Job? then jobs[slot := jobs[slot].(room := room, current := current)] else jobs
  }

  function Installed(slots: nat): Service {
    Service(State(map[], None), seq(slots, _ => Idle), State(map[], None), false, 0, [])
  }

  /** The service, and whether its process is alive. */
  function Happens(s: Service, alive: bool, e: Event): (Service, bool) {
    match e
    case NewProcess(loads, jobsAvailable, save) => Restarted(s, loads, jobsAvailable, save)
    case Cycle(cycle, items, jobsReadable, rearmSave, tries) =>
      if alive then Cycled(s, cycle, items, jobsReadable, rearmSave, tries) else (s, false)
    case Progress(slot, room, current) => (s.(jobs := MovedOn(s.jobs, slot, room, current)), alive)
    case Manual(slot, job) => (if s.disk.claim.None? && slot < |s.jobs| then s.(jobs := s.jobs[slot := job]) else s, alive)
  }

  function After(slots: nat, events: seq<Event>): (Service, bool) {
    if events == [] then (Installed(slots), false)
    else
      var (s, alive) := After(slots, events[..|events| - 1]);
      Happens(s, alive, events[|events| - 1])
  }
}
