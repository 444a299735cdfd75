/** The journals that the acceptor accepts, written down as what they look like. */
module RetentionGrammar {
  import opened Wrappers
  import opened RetentionHistory
  import opened RetentionSteps
  import opened RetentionExecution

  /** How the lines of one operation can end: between artifacts, inside one, failed there, or complete. */
  datatype Tail = Between | Tried | TriedAndFailed | FailedUntried | FailedBehind | Finished

  /** Artifact by artifact: its attempt, then its deletion. */
  function Pairs(operation: Operation, order: seq<Artifact>, k: nat): seq<Event>
    requires k <= |order|
  {
    if k == 0 then [] else Pairs(operation, order, k - 1) + [Attempt(operation, order[k - 1].path), Deleted(operation, order[k - 1].path)]
  }

  predicate CanEnd(order: seq<Artifact>, k: nat, tail: Tail) {
    match tail
    case Between => k <= |order|
    case Tried => k < |order|
    case TriedAndFailed => k < |order|
    case FailedUntried => k < |order|
    case FailedBehind => 0 < k <= |order|
    case Finished => k == |order|
  }

  function TailLines(operation: Operation, order: seq<Artifact>, k: nat, tail: Tail): seq<Event>
    requires CanEnd(order, k, tail)
  {
    match tail
    case Between => []
    case Tried => [Attempt(operation, order[k].path)]
    case TriedAndFailed => [Attempt(operation, order[k].path), Failed(operation, order[k].path)]
    case FailedUntried => [Failed(operation, order[k].path)]
    case FailedBehind => [Failed(operation, order[k - 1].path)]
    case Finished => [Completed(operation, |order|)]
  }

  /** The lines of one operation: its intent, `k` whole deletions in its order, and an end. */
  function Lines(operation: Operation, order: seq<Artifact>, k: nat, tail: Tail): seq<Event>
    requires CanEnd(order, k, tail)
  {
    [Intent(operation, order)] + Pairs(operation, order, k) + TailLines(operation, order, k, tail)
  }

  function StateOf(order: seq<Artifact>, k: nat, tail: Tail): Progress
    requires CanEnd(order, k, tail)
  {
    var last := if k > 0 then Some(order[k - 1].path) else None;
    match tail
    case Between => Progress(order, k, None, last, false)
    case Tried => Progress(order, k, Some(order[k].path), None, false)
    case TriedAndFailed => Progress(order, k, Some(order[k].path), None, true)
    case FailedUntried => Progress(order, k, None, last, true)
    case FailedBehind => Progress(order, k, None, last, true)
    case Finished => Progress(order, k, None, last, true)
  }

  predicate Unnamed(journal: seq<Event>, operation: Operation) {
    forall k | 0 <= k < |journal| :: journal[k].operation != operation
  }

  /** Behind an accepted journal, the acceptor is where the lines say. */
  lemma {:induction false} LinesLead(journal: seq<Event>, operation: Operation, order: seq<Artifact>, k: nat, tail: Tail)
    requires Accepted(journal) && Unnamed(journal, operation) && Destructive(order) && CanEnd(order, k, tail)
    ensures var h := AcceptAll(journal).value;
            AcceptAll(journal + Lines(operation, order, k, tail)) ==
            Some(History(h.operations[operation := StateOf(order, k, tail)], Some(operation)))
    decreases k, if tail == Between then 1 else 2
  {
    hide Destructive, AcceptAll, Next;
    if tail == Between {
      if k == 0 { IntentLeads(journal, operation, order); } else { PairLeads(journal, operation, order, k); }
    } else {
      LinesLead(journal, operation, order, k, Between);
      TailLeads(journal, operation, order, k, tail);
    }
  }

  lemma Overwritten(m: map<Operation, Progress>, o: Operation, x: Progress, y: Progress)
    ensures m[o := x][o := y] == m[o := y]
  {
  }

  lemma IntentLeads(journal: seq<Event>, operation: Operation, order: seq<Artifact>)
    requires Accepted(journal) && Unnamed(journal, operation) && Destructive(order)
    ensures var h := AcceptAll(journal).value;
            AcceptAll(journal + Lines(operation, order, 0, Between)) ==
            Some(History(h.operations[operation := StateOf(order, 0, Between)], Some(operation)))
  {
    hide Destructive, AcceptAll;
    if operation in AcceptAll(journal).value.operations { OperationsAreNamed(journal, operation); }
    AcceptSnoc(journal, Intent(operation, order));
    assert Lines(operation, order, 0, Between) == [Intent(operation, order)];
  }

  lemma {:induction false} PairLeads(journal: seq<Event>, operation: Operation, order: seq<Artifact>, k: nat)
    requires Accepted(journal) && Unnamed(journal, operation) && Destructive(order) && 0 < k <= |order|
    ensures var h := AcceptAll(journal).value;
            AcceptAll(journal + Lines(operation, order, k, Between)) ==
            Some(History(h.operations[operation := StateOf(order, k, Between)], Some(operation)))
    decreases k, 0
  {
    hide Destructive, AcceptAll;
    LinesLead(journal, operation, order, k - 1, Between);
    var before := journal + Lines(operation, order, k - 1, Between);
    var a, d := Attempt(operation, order[k - 1].path), Deleted(operation, order[k - 1].path);
    var m, tried := AcceptAll(journal).value.operations, StateOf(order, k - 1, Tried);
    Overwritten(m, operation, StateOf(order, k - 1, Between), tried);
    Overwritten(m, operation, tried, StateOf(order, k, Between));
    AcceptSnoc(before, a);
    AcceptSnoc(before + [a], d);
    assert journal + Lines(operation, order, k, Between) == before + [a] + [d];
  }

  lemma TailLeads(journal: seq<Event>, operation: Operation, order: seq<Artifact>, k: nat, tail: Tail)
    requires Accepted(journal) && CanEnd(order, k, Between) && CanEnd(order, k, tail)
    requires var h := AcceptAll(journal).value;
             AcceptAll(journal + Lines(operation, order, k, Between)) ==
             Some(History(h.operations[operation := StateOf(order, k, Between)], Some(operation)))
    ensures var h := AcceptAll(journal).value;
            AcceptAll(journal + Lines(operation, order, k, tail)) ==
            Some(History(h.operations[operation := StateOf(order, k, tail)], Some(operation)))
  {
    hide AcceptAll;
    var before := journal + Lines(operation, order, k, Between);
    var lines := TailLines(operation, order, k, tail);
    var m := AcceptAll(journal).value.operations;
    Overwritten(m, operation, StateOf(order, k, Between), StateOf(order, k, tail));
    if k < |order| {
      Overwritten(m, operation, StateOf(order, k, Between), StateOf(order, k, Tried));
      Overwritten(m, operation, StateOf(order, k, Tried), StateOf(order, k, tail));
    }
    assert journal + Lines(operation, order, k, tail) == before + lines;
    if |lines| >= 1 { AcceptSnoc(before, lines[0]); assert tail != TriedAndFailed ==> lines == [lines[0]]; }
    if tail == TriedAndFailed {
      AcceptSnoc(before + [lines[0]], lines[1]);
      assert before + lines == before + [lines[0]] + [lines[1]];
    }
  }

  /** Every operation's lines are accepted, as far as they go, behind any accepted journal that does not name it. */
  lemma LinesAreAccepted(journal: seq<Event>, operation: Operation, order: seq<Artifact>, k: nat, tail: Tail)
    requires Accepted(journal) && Unnamed(journal, operation) && Destructive(order) && CanEnd(order, k, tail)
    ensures Accepted(journal + Lines(operation, order, k, tail))
  {
    hide Destructive, AcceptAll;
    LinesLead(journal, operation, order, k, tail);
  }

  /** The journal ends with the lines of one operation that nothing before them names. */
  ghost predicate EndsWith(journal: seq<Event>, i: nat, operation: Operation, order: seq<Artifact>, k: nat, tail: Tail) {
    && i <= |journal| && CanEnd(order, k, tail) && Destructive(order) && Unnamed(journal[..i], operation)
    && journal[i..] == Lines(operation, order, k, tail)
  }

  /** And every accepted journal ends so: it is made of the lines of one operation after another. */
  lemma {:induction false} AcceptedIsLines(journal: seq<Event>) returns (i: nat, operation: Operation, order: seq<Artifact>, k: nat, tail: Tail)
    requires Accepted(journal) && journal != []
    ensures EndsWith(journal, i, operation, order, k, tail) && i < |journal| && Accepted(journal[..i])
  {
    hide Destructive, AcceptAll, EndsWith, Lines;
    var n := |journal| - 1;
    var before, e := journal[..n], journal[n];
    assert journal == before + [e];
    AcceptSnoc(before, e);
    AcceptedPrefix(journal, n);
    if e.Intent? {
      i, operation, order, k, tail := n, e.operation, e.order, 0, Between;
      NewLines(before, e);
    } else {
      NonIntentHasBefore(before, e);
      i, operation, order, k, tail := AcceptedIsLines(before);
      assert journal[..i] == before[..i];
      k, tail := OneMoreLine(before, e, i, operation, order, k, tail);
    }
  }

  lemma NewLines(before: seq<Event>, e: Event)
    requires Accepted(before) && Next(AcceptAll(before).value, e).Some? && e.Intent?
    ensures EndsWith(before + [e], |before|, e.operation, e.order, 0, Between) && (before + [e])[..|before|] == before
  {
    hide Destructive, AcceptAll;
    NamedIsKnown(before, e.operation);
    assert (before + [e])[|before|..] == [e];
  }

  lemma {:induction false} NamedIsKnown(journal: seq<Event>, operation: Operation)
    requires Accepted(journal)
    ensures operation !in AcceptAll(journal).value.operations ==> Unnamed(journal, operation)
  {
    hide Destructive;
    if journal != [] { NamedIsKnown(journal[..|journal| - 1], operation); }
  }

  lemma NonIntentHasBefore(before: seq<Event>, e: Event)
    requires Accepted(before) && Next(AcceptAll(before).value, e).Some? && !e.Intent?
    ensures before != []
  {
  }

  /** The only lines that can follow are the next ones of the operation under way. */
  lemma OneMoreLine(before: seq<Event>, e: Event, i: nat, operation: Operation, order: seq<Artifact>, k: nat, tail: Tail)
    returns (k2: nat, tail2: Tail)
    requires Accepted(before) && Next(AcceptAll(before).value, e).Some? && !e.Intent?
    requires EndsWith(before, i, operation, order, k, tail) && Accepted(before[..i])
    ensures EndsWith(before + [e], i, operation, order, k2, tail2)
  {
    hide Destructive, AcceptAll;
    assert before == before[..i] + Lines(operation, order, k, tail);
    LinesLead(before[..i], operation, order, k, tail);
    assert (before + [e])[i..] == Lines(operation, order, k, tail) + [e];
    assert (before + [e])[..i] == before[..i];
    k2, tail2 := NextLine(AcceptAll(before[..i]).value, operation, order, k, tail, e);
  }

  lemma NextLine(h: History, operation: Operation, order: seq<Artifact>, k: nat, tail: Tail, e: Event) returns (k2: nat, tail2: Tail)
    requires CanEnd(order, k, tail) && Destructive(order) && !e.Intent?
    requires Next(History(h.operations[operation := StateOf(order, k, tail)], Some(operation)), e).Some?
    ensures CanEnd(order, k2, tail2) && Lines(operation, order, k2, tail2) == Lines(operation, order, k, tail) + [e]
  {
    k2, tail2 := k, tail;
    hide Destructive;
    match e
    case Completed(_, _) => tail2 := Finished;
    case Attempt(_, _) => tail2 := Tried;
    case Deleted(_, _) =>
      k2, tail2 := k + 1, Between;
      assert Lines(operation, order, k2, tail2) == Lines(operation, order, k, tail) + [e];
    case Failed(_, path) =>
      tail2 := if tail == Tried then TriedAndFailed else if k < |order| && order[k].path == path then FailedUntried else FailedBehind;
  }

  // -------------------------------------------------------------- what a call writes

  /** While every step returns, the call writes the lines of its operation, all of them durable. */
  lemma {:induction false} StepsWrite(operation: Operation, order: seq<Artifact>, fate: nat -> Fate, s: Storage, k: nat)
    requires k <= |order| && forall t: nat | t <= 5 * k :: fate(t).ending == Returns
    ensures var r := Steps(operation, order, fate, s, 0, 5 * k + 1);
            r.journal == s.journal + Lines(operation, order, k, Between) && r.durable == |r.journal|
  {
    hide Step, Line, Steps;
    if k == 0 {
      OuterSteps(operation, order, fate, s);
    } else {
      StepsWrite(operation, order, fate, s, k - 1);
      var r := Steps(operation, order, fate, s, 0, 5 * k - 4);
      StepsJoin(operation, order, fate, s, 0, 5 * k - 4, 5 * k - 1);
      StepsJoin(operation, order, fate, s, 0, 5 * k - 1, 5 * k + 1);
      ArtifactSteps(operation, order, fate, r, k - 1);
      RemovalSteps(operation, order, fate, Steps(operation, order, fate, s, 0, 5 * k - 1), k - 1);
      LinesGrow(operation, order, k);
    }
  }

  lemma LinesGrow(operation: Operation, order: seq<Artifact>, k: nat)
    requires 0 < k <= |order|
    ensures Lines(operation, order, k, Between) ==
            Lines(operation, order, k - 1, Between) + [Attempt(operation, order[k - 1].path)] + [Deleted(operation, order[k - 1].path)]
  {
  }

  /** A call that is done leaves all its lines, and nothing of its order on the disk. */
  lemma DoneWritesAll(journal: seq<Event>, disk: set<Path>, c: Call)
    requires Executed(journal, disk, c).outcome == Done
    ensures Executed(journal, disk, c).journal == journal + Lines(c.operation, c.order, |c.order|, Finished)
  {
    hide Accepted, Steps, Lines;
    var n, s := |c.order|, Storage(journal, |journal|, disk);
    StepsWrite(c.operation, c.order, c.fate, s, n);
    StepsJoin(c.operation, c.order, c.fate, s, 0, 5 * n + 1, 5 * n + 2);
    OuterSteps(c.operation, c.order, c.fate, Steps(c.operation, c.order, c.fate, s, 0, 5 * n + 1));
    LinesFinish(journal, c.operation, c.order);
    var full := journal + Lines(c.operation, c.order, n, Finished);
    assert full[..|full|] == full;
  }

  lemma LinesFinish(journal: seq<Event>, operation: Operation, order: seq<Artifact>)
    ensures journal + Lines(operation, order, |order|, Between) + [Completed(operation, |order|)] ==
            journal + Lines(operation, order, |order|, Finished)
  {
  }

  /** How the lines end when artifact `k` failed at its step `r` and the failure was written. */
  function FailureAt(k: nat, r: nat, done: bool): (nat, Tail)
    requires 1 <= r <= 5
  {
    if r == 1 || (r == 2 && !done) then (k, FailedUntried)
    else if r == 5 && done then (k + 1, FailedBehind)
    else (k, TriedAndFailed)
  }

  /** A call that a failing artifact ends leaves the lines up to it, closed by its failure. */
  lemma FailureIsWritten(journal: seq<Event>, disk: set<Path>, c: Call, k: nat, r: nat)
    requires Accepted(journal) && k < |c.order| && 1 <= r <= 5 && c.fate(5 * k + r).ending == Raises && c.onFailure.synced
    requires forall t: nat | t < 5 * k + r :: c.fate(t).ending == Returns
    ensures var (k2, tail) := FailureAt(k, r, c.fate(5 * k + r).done);
            CanEnd(c.order, k2, tail) && Executed(journal, disk, c).journal == journal + Lines(c.operation, c.order, k2, tail)
            && Executed(journal, disk, c).outcome != Done
  {
    hide Accepted, Steps, Lines, Line;
    var s, m := Storage(journal, |journal|, disk), 5 * k + r;
    StopsAt(c.fate, m, 5 * |c.order| + 1);
    StepsWrite(c.operation, c.order, c.fate, s, k);
    var a := Steps(c.operation, c.order, c.fate, s, 0, 5 * k + 1);
    StepsJoin(c.operation, c.order, c.fate, s, 0, 5 * k + 1, m + 1);
    FailingArtifact(c, a, k, r);
    FailureLines(journal, c.operation, c.order, k, r, c.fate(m).done);
    assert (m - 1) / 5 == k;
    var (k2, tail) := FailureAt(k, r, c.fate(m).done);
    var full := journal + Lines(c.operation, c.order, k2, tail);
    assert full[..|full|] == full;
  }

  lemma {:induction false} StopsAt(fate: nat -> Fate, m: nat, last: nat)
    requires m <= last && fate(m).ending != Returns && forall t: nat | t < m :: fate(t).ending == Returns
    ensures FirstStop(fate, 0, last) == Some(m)
  {
  }

  /** What the steps of the failing artifact write before the report. */
  lemma FailingArtifact(c: Call, a: Storage, k: nat, r: nat)
    requires k < |c.order| && 1 <= r <= 5 && forall t: nat | 5 * k < t < 5 * k + r :: c.fate(t).ending == Returns
    ensures var p, b := c.order[k].path, Steps(c.operation, c.order, c.fate, a, 5 * k + 1, 5 * k + r + 1);
            b.journal == a.journal
                         + (if r >= 3 || (r == 2 && c.fate(5 * k + r).done) then [Attempt(c.operation, p)] else [])
                         + (if r == 5 && c.fate(5 * k + r).done then [Deleted(c.operation, p)] else [])
  {
    hide Steps, Line, Step;
    ArtifactSteps(c.operation, c.order, c.fate, a, k);
    var b := Steps(c.operation, c.order, c.fate, a, 5 * k + 1, 5 * k + 4);
    RemovalSteps(c.operation, c.order, c.fate, b, k);
    if r >= 4 { StepsJoin(c.operation, c.order, c.fate, a, 5 * k + 1, 5 * k + 4, 5 * k + r + 1); }
  }

  lemma FailureLines(journal: seq<Event>, operation: Operation, order: seq<Artifact>, k: nat, r: nat, done: bool)
    requires k < |order| && 1 <= r <= 5
    ensures var p, (k2, tail) := order[k].path, FailureAt(k, r, done);
            CanEnd(order, k2, tail) &&
            journal + Lines(operation, order, k, Between)
            + (if r >= 3 || (r == 2 && done) then [Attempt(operation, p)] else [])
            + (if r == 5 && done then [Deleted(operation, p)] else []) + [Failed(operation, p)]
            == journal + Lines(operation, order, k2, tail)
  {
    if r == 5 && done { LinesGrow(operation, order, k + 1); }
  }
}
