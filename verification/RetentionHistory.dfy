/** The acceptor of retention journals: which event histories are coherent deletions. */
module RetentionHistory {
  import opened Wrappers

  type Operation(==)
  type Path(==)

  /** What an authorized artifact is; the intent repeats it for every path of its order. */
  datatype Kind = Media | Connections | Manifest | PartsDirectory | Output

  datatype Artifact = Artifact(path: Path, kind: Kind)

  datatype Event =
    | Intent(operation: Operation, order: seq<Artifact>)
    | Attempt(operation: Operation, path: Path)
    | Deleted(operation: Operation, path: Path)
    | Failed(operation: Operation, path: Path)
    | Completed(operation: Operation, count: int)

  /** One session's artifacts in destructive order: its media, the connection log if there is one,
      the manifest, the then empty parts directory, and the final file last. */
  predicate Destructive(order: seq<Artifact>) {
    var n := |order|;
    && n >= 4 && order[n - 1].kind == Output && order[n - 2].kind == PartsDirectory && order[n - 3].kind == Manifest
    && (forall k | 0 <= k < n - 4 :: order[k].kind == Media)
    && (order[n - 4].kind == Media || (order[n - 4].kind == Connections && n >= 5))
    && (forall j, k | 0 <= j < k < n :: order[j].path != order[k].path)
  }

  datatype Progress = Progress(order: seq<Artifact>, index: nat, pending: Option<Path>, lastDeleted: Option<Path>,
                               terminal: bool)

  datatype History = History(operations: map<Operation, Progress>, latest: Option<Operation>)

  const Empty := History(map[], None)

  predicate CurrentIs(p: Progress, path: Path) { p.index < |p.order| && p.order[p.index].path == path }

  function Continued(h: History, operation: Operation, p: Progress): History {
    h.(operations := h.operations[operation := p])
  }

  /** One more event, or a refusal. */
  function Next(h: History, e: Event): Option<History> {
    if e.Intent? then
      if e.operation in h.operations || !Destructive(e.order) then None
      else Some(History(h.operations[e.operation := Progress(e.order, 0, None, None, false)], Some(e.operation)))
    else if e.operation !in h.operations || h.operations[e.operation].terminal || h.latest != Some(e.operation) then None
    else
      var p := h.operations[e.operation];
      match e
      case Completed(_, count) =>
        if count == |p.order| == p.index && p.pending.None?
        then Some(Continued(h, e.operation, p.(terminal := true))) else None
      case Failed(_, path) =>
        if (CurrentIs(p, path) && (p.pending.None? || p.pending == Some(path)))
           || (p.pending.None? && p.lastDeleted == Some(path))
        then Some(Continued(h, e.operation, p.(terminal := true))) else None
      case Attempt(_, path) =>
        if CurrentIs(p, path) && p.pending.None?
        then Some(Continued(h, e.operation, p.(pending := Some(path), lastDeleted := None))) else None
      case Deleted(_, path) =>
        if CurrentIs(p, path) && p.pending == Some(path)
        then Some(Continued(h, e.operation, p.(index := p.index + 1, pending := None, lastDeleted := Some(path))))
        else None
  }

  function AcceptAll(events: seq<Event>): Option<History> {
    if events == [] then Some(Empty)
    else
      var before := AcceptAll(events[..|events| - 1]);
      if before.None? then None else Next(before.value, events[|events| - 1])
  }

  predicate Accepted(events: seq<Event>) { AcceptAll(events).Some? }

  lemma AcceptSnoc(events: seq<Event>, e: Event)
    ensures AcceptAll(events + [e]) == if Accepted(events) then Next(AcceptAll(events).value, e) else None
  {
    assert (events + [e])[..|events|] == events;
  }

  /** Whatever tail a crash loses, what is left is still coherent. */
  lemma {:induction false} AcceptedPrefix(events: seq<Event>, n: nat)
    requires Accepted(events) && n <= |events|
    ensures Accepted(events[..n])
  {
    if n < |events| {
      AcceptedPrefix(events[..|events| - 1], n);
      assert events[..|events| - 1][..n] == events[..n];
    } else {
      assert events[..n] == events;
    }
  }

  class AuditHistory {
    var operations: map<Operation, Progress>
    var latest: Option<Operation>

    function State(): History
      reads this
    {
      History(operations, latest)
    }

    constructor ()
      ensures State() == Empty
    {
      operations, latest := map[], None;
    }

    /** Check one event; a refused one changes nothing. */
    method Accept(e: Event) returns (ok: bool)
      modifies this
      ensures ok == Next(old(State()), e).Some?
      ensures State() == if ok then Next(old(State()), e).value else old(State())
    {
      if e.Intent? {
        if e.operation in operations || !Destructive(e.order) { return false; }
        operations := operations[e.operation := Progress(e.order, 0, None, None, false)];
        latest := Some(e.operation);
        return true;
      }
      if e.operation !in operations { return false; }
      var p := operations[e.operation];
      if p.terminal || latest != Some(e.operation) { return false; }
      if e.Completed? {
        if e.count != |p.order| || p.index != |p.order| || p.pending.Some? { return false; }
        operations := operations[e.operation := p.(terminal := true)];
        return true;
      }
      if e.Failed? {
        var current := p.index < |p.order| && e.path == p.order[p.index].path
                       && (p.pending.None? || p.pending == Some(e.path));
        var afterDeleted := p.pending.None? && p.lastDeleted == Some(e.path);
        if !current && !afterDeleted { return false; }
        operations := operations[e.operation := p.(terminal := true)];
        return true;
      }
      if p.index >= |p.order| || e.path != p.order[p.index].path { return false; }
      if e.Attempt? {
        if p.pending.Some? { return false; }
        operations := operations[e.operation := p.(pending := Some(e.path), lastDeleted := None)];
      } else {
        if p.pending != Some(e.path) { return false; }
        operations := operations[e.operation := p.(index := p.index + 1, pending := None, lastDeleted := Some(e.path))];
      }
      return true;
    }
  }

  /** Read a whole journal before anything is added to it. */
  method ValidateHistory(events: seq<Event>) returns (ok: bool)
    ensures ok <==> Accepted(events)
  {
    var history := new AuditHistory();
    var k := 0;
    while k < |events|
      invariant 0 <= k <= |events| && AcceptAll(events[..k]) == Some(history.State())
    {
      assert events[..k + 1] == events[..k] + [events[k]];
      AcceptSnoc(events[..k], events[k]);
      var accepted := history.Accept(events[k]);
      if !accepted {
        if Accepted(events) { AcceptedPrefix(events, k + 1); }
        return false;
      }
      k := k + 1;
    }
    assert events[..k] == events;
    return true;
  }

  // ------------------------------------------------------------ what acceptance means

  /** The paths a journal reports deleted for one operation, in order. */
  function DeletedPaths(events: seq<Event>, operation: Operation): seq<Path> {
    if events == [] then []
    else
      var e := events[|events| - 1];
      DeletedPaths(events[..|events| - 1], operation)
      + if e.Deleted? && e.operation == operation then [e.path] else []
  }

  function PathsOf(order: seq<Artifact>): (paths: seq<Path>)
    ensures |paths| == |order| && forall k | 0 <= k < |order| :: paths[k] == order[k].path
  {
    seq(|order|, k requires 0 <= k < |order| => order[k].path)
  }

  predicate CompletionReported(events: seq<Event>, operation: Operation) {
    exists k | 0 <= k < |events| :: events[k].Completed? && events[k].operation == operation
  }

  /** What the acceptor's state says about the events behind it. */
  predicate Describes(h: History, events: seq<Event>, operation: Operation) {
    if operation in h.operations then
      var p := h.operations[operation];
      && p.index <= |p.order| && Destructive(p.order)
      && DeletedPaths(events, operation) == PathsOf(p.order)[..p.index]
      && (CompletionReported(events, operation) ==> p.index == |p.order| && p.terminal)
    else DeletedPaths(events, operation) == [] && !CompletionReported(events, operation)
  }

  lemma ReportedSnoc(events: seq<Event>, e: Event, operation: Operation)
    ensures DeletedPaths(events + [e], operation) ==
            DeletedPaths(events, operation) + if e.Deleted? && e.operation == operation then [e.path] else []
    ensures CompletionReported(events + [e], operation) <==>
            CompletionReported(events, operation) || (e.Completed? && e.operation == operation)
  {
    var all := events + [e];
    assert all[..|events|] == events && all[|events|] == e;
    if CompletionReported(events, operation) {
      var k :| 0 <= k < |events| && events[k].Completed? && events[k].operation == operation;
      assert all[k] == events[k];
    }
  }

  lemma DescribesNext(h: History, events: seq<Event>, e: Event, operation: Operation)
    requires Describes(h, events, operation) && Next(h, e).Some?
    ensures Describes(Next(h, e).value, events + [e], operation)
  {
    hide DeletedPaths, CompletionReported, Destructive;
    ReportedSnoc(events, e, operation);
    if e.Deleted? && e.operation == operation {
      var p := h.operations[operation];
      assert PathsOf(p.order)[..p.index + 1] == PathsOf(p.order)[..p.index] + [e.path];
    }
  }

  /** Of an accepted journal: each operation's reported deletions are a prefix of its authorized
      order, and a reported completion means that everything in the order was reported deleted. */
  lemma {:induction false} AcceptedReportsAPrefix(events: seq<Event>, operation: Operation)
    requires Accepted(events)
    ensures Describes(AcceptAll(events).value, events, operation)
  {
    hide Describes, Next;
    if events == [] {
      NothingReported(operation);
    } else {
      var n := |events| - 1;
      assert events[..n] + [events[n]] == events;
      AcceptedReportsAPrefix(events[..n], operation);
      DescribesNext(AcceptAll(events[..n]).value, events[..n], events[n], operation);
    }
  }

  lemma NothingReported(operation: Operation)
    ensures Describes(Empty, [], operation)
  {
  }

  /** Once another operation has begun, nothing more is ever accepted for an earlier one. */
  lemma OldTailIsFrozen(events: seq<Event>, e: Event, later: Event)
    requires Accepted(events + [e]) && e.Intent? && !later.Intent? && later.operation != e.operation
    ensures !Accepted(events + [e] + [later])
  {
    AcceptSnoc(events, e);
    AcceptSnoc(events + [e], later);
  }
}
