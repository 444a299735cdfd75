/** What one destructive call does to the journal and the disk, step by step. */
module RetentionSteps {
  import opened Wrappers
  import opened RetentionHistory

  datatype Ending = Returns | Raises | Dies

  /** How far one step came: for a journal line, whether it was written, its sync was begun and
      finished, and the caller was told; for a removal, whether the artifact is gone. */
  datatype Course = Course(done: bool, syncStarted: bool, synced: bool, told: bool, ending: Ending)

  type Fate = c: Course |
    (c.syncStarted ==> c.done) && (c.synced ==> c.syncStarted) && (c.told ==> c.synced) && (c.ending == Returns ==> c.told)
    witness Course(true, true, true, true, Returns)

  datatype Outcome = Refused | Done | Raised | Died

  /** The steps of an operation on `n` artifacts, in order: the intent, five for each artifact (checks,
      attempt, checks again, removal, deletion record), the completion, and closing the journal. */
  function LastStep(n: nat): nat { 5 * n + 2 }

  function FirstStop(fate: nat -> Fate, from: nat, last: nat): (s: Option<nat>)
    requires from <= last + 1
    ensures s.Some? ==> from <= s.value <= last && fate(s.value).ending != Returns
                        && forall t | from <= t < s.value :: fate(t).ending == Returns
    ensures s.None? ==> forall t | from <= t <= last :: fate(t).ending == Returns
    decreases last + 1 - from
  {
    if from > last then None
    else if fate(from).ending != Returns then Some(from)
    else FirstStop(fate, from + 1, last)
  }

  datatype Storage = Storage(journal: seq<Event>, durable: nat, disk: set<Path>)

  function WithLine(s: Storage, e: Event, fate: Fate): Storage {
    var journal := if fate.done then s.journal + [e] else s.journal;
    Storage(journal, if fate.synced then |journal| else s.durable, s.disk)
  }

  /** The line a step writes. */
  function Line(operation: Operation, order: seq<Artifact>, step: nat): Option<Event> {
    if step == 0 then Some(Intent(operation, order))
    else if step == 5 * |order| + 1 then Some(Completed(operation, |order|))
    else if step > 5 * |order| then None
    else if step % 5 == 2 then Some(Attempt(operation, order[(step - 1) / 5].path))
    else if step % 5 == 0 then Some(Deleted(operation, order[(step - 1) / 5].path))
    else None
  }

  /** One step: its line, or the removal of its artifact, as far as the step came. */
  function Step(operation: Operation, order: seq<Artifact>, fate: nat -> Fate, s: Storage, step: nat): Storage {
    var line := Line(operation, order, step);
    if line.Some? then WithLine(s, line.value, fate(step))
    else if 1 <= step <= 5 * |order| && step % 5 == 4 && fate(step).done then s.(disk := s.disk - {order[(step - 1) / 5].path})
    else s
  }

  function Steps(operation: Operation, order: seq<Artifact>, fate: nat -> Fate, s: Storage, from: nat, upto: nat): Storage
    decreases upto
  {
    if upto <= from then s else Step(operation, order, fate, Steps(operation, order, fate, s, from, upto - 1), upto - 1)
  }

  /** How many steps are begun when the first one that does not return is `stop`. */
  function Through(stop: Option<nat>, all: nat): nat { if stop.None? then all else stop.value + 1 }

  /** A failure of one artifact's steps is reported, unless the process died. */
  predicate Reports(order: seq<Artifact>, fate: nat -> Fate, stop: Option<nat>) {
    stop.Some? && 1 <= stop.value <= 5 * |order| && fate(stop.value).ending == Raises
  }

  function Reported(operation: Operation, order: seq<Artifact>, fate: nat -> Fate, onFailure: Fate, stop: Option<nat>,
                    s: Storage): Storage
  {
    if Reports(order, fate, stop) then WithLine(s, Failed(operation, order[(stop.value - 1) / 5].path), onFailure) else s
  }

  /** One call: a fresh operation identity, a fresh authorization, its faults, and how much of the
      journal behind its durable part survives when the machine goes down afterwards. */
  datatype Call = Call(operation: Operation, order: seq<Artifact>, fate: nat -> Fate, onFailure: Fate, survives: nat)

  /** Every step up to the first that does not return, and the report of that one. */
  function Performed(operation: Operation, order: seq<Artifact>, fate: nat -> Fate, onFailure: Fate, s: Storage): Storage {
    var stop := FirstStop(fate, 0, 5 * |order| + 1);
    Reported(operation, order, fate, onFailure, stop,
             Steps(operation, order, fate, s, 0, Through(stop, 5 * |order| + 2)))
  }

  /** How a call ends: the process died, or the first step that did not return is raised, or it is done. */
  function Ends(order: seq<Artifact>, fate: nat -> Fate, onFailure: Fate): Outcome {
    var stop, closing := FirstStop(fate, 0, 5 * |order| + 1), fate(LastStep(|order|)).ending;
    if stop.Some? && (fate(stop.value).ending == Dies || (Reports(order, fate, stop) && onFailure.ending == Dies)) then Died
    else if closing == Dies then Died
    else if closing == Raises || stop.Some? then Raised
    else Done
  }

  datatype Result = Result(journal: seq<Event>, disk: set<Path>, outcome: Outcome)

  /** A call on a journal it accepts, with the unsynced tail that is lost afterwards. */
  function Executed(journal: seq<Event>, disk: set<Path>, c: Call): Result {
    if !Accepted(journal) then Result(journal, disk, Refused)
    else
      var s := Performed(c.operation, c.order, c.fate, c.onFailure, Storage(journal, |journal|, disk));
      var kept := if s.durable <= c.survives < |s.journal| then c.survives else |s.journal|;
      Result(s.journal[..kept], s.disk, Ends(c.order, c.fate, c.onFailure))
  }

  function AfterCalls(disk: set<Path>, calls: seq<Call>): Result {
    if calls == [] then Result([], disk, Done)
    else
      var before := AfterCalls(disk, calls[..|calls| - 1]);
      Executed(before.journal, before.disk, calls[|calls| - 1])
  }

  lemma {:induction false} StepsJoin(operation: Operation, order: seq<Artifact>, fate: nat -> Fate, s: Storage,
                                     from: nat, middle: nat, upto: nat)
    requires from <= middle <= upto
    ensures Steps(operation, order, fate, s, from, upto) ==
            Steps(operation, order, fate, Steps(operation, order, fate, s, from, middle), middle, upto)
    decreases upto
  {
    if middle < upto { StepsJoin(operation, order, fate, s, from, middle, upto - 1); }
  }
}
