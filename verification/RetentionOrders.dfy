/** What goes before what: the destructive order by kinds, in accepted journals and on the disk. */
module RetentionOrders {
  import opened Wrappers
  import opened RetentionHistory
  import opened RetentionSteps
  import opened RetentionExecution

  // ------------------------------------------------------------------ the order itself

  predicate Apart(order: seq<Artifact>) { forall j, k | 0 <= j < k < |order| :: order[j].path != order[k].path }

  function ListOf(log: Option<Artifact>): seq<Artifact> { if log.Some? then [log.value] else [] }

  /** A session's own order: its media, its connection log if it has one, its manifest, its directory, its output. */
  function SessionOrder(media: seq<Artifact>, log: Option<Artifact>, manifest: Artifact, directory: Artifact, output: Artifact): seq<Artifact> {
    media + ListOf(log) + [manifest, directory, output]
  }

  predicate KindsAre(media: seq<Artifact>, log: Option<Artifact>, manifest: Artifact, directory: Artifact, output: Artifact) {
    && media != [] && (forall a | a in media :: a.kind == Media) && (log.Some? ==> log.value.kind == Connections)
    && manifest.kind == Manifest && directory.kind == PartsDirectory && output.kind == Output
  }

  /** Exactly such orders, with distinct paths, may be destroyed. */
  lemma DestructiveIsSessionOrder(order: seq<Artifact>)
    ensures Destructive(order) <==>
              Apart(order) && exists media, log, manifest, directory, output ::
                KindsAre(media, log, manifest, directory, output) && order == SessionOrder(media, log, manifest, directory, output)
  {
    if Destructive(order) {
      var n := |order|;
      var logged := order[n - 4].kind == Connections;
      var media := if logged then order[..n - 4] else order[..n - 3];
      var log := if logged then Some(order[n - 4]) else None;
      assert order == SessionOrder(media, log, order[n - 3], order[n - 2], order[n - 1]);
      assert KindsAre(media, log, order[n - 3], order[n - 2], order[n - 1]);
    }
    forall media, log, manifest, directory, output
      | KindsAre(media, log, manifest, directory, output) && order == SessionOrder(media, log, manifest, directory, output) && Apart(order)
      ensures Destructive(order)
    {
      SessionOrderIsDestructive(media, log, manifest, directory, output);
    }
  }

  lemma SessionOrderIsDestructive(media: seq<Artifact>, log: Option<Artifact>, manifest: Artifact, directory: Artifact, output: Artifact)
    requires KindsAre(media, log, manifest, directory, output) && Apart(SessionOrder(media, log, manifest, directory, output))
    ensures Destructive(SessionOrder(media, log, manifest, directory, output))
  {
    var order := SessionOrder(media, log, manifest, directory, output);
    var n := |order|;
    assert order[n - 1] == output && order[n - 2] == directory && order[n - 3] == manifest;
    assert forall k | 0 <= k < |media| :: order[k] == media[k] && media[k] in media;
  }

  /** So the intent of any such order is accepted behind any accepted journal that does not know the operation. */
  lemma SessionOrderIsAccepted(journal: seq<Event>, operation: Operation, media: seq<Artifact>, log: Option<Artifact>,
                               manifest: Artifact, directory: Artifact, output: Artifact)
    requires Accepted(journal) && KindsAre(media, log, manifest, directory, output)
    requires Apart(SessionOrder(media, log, manifest, directory, output))
    requires forall k | 0 <= k < |journal| :: journal[k].operation != operation
    ensures Accepted(journal + [Intent(operation, SessionOrder(media, log, manifest, directory, output))])
  {
    hide Destructive, AcceptAll, SessionOrder;
    SessionOrderIsDestructive(media, log, manifest, directory, output);
    AcceptSnoc(journal, Intent(operation, SessionOrder(media, log, manifest, directory, output)));
    if operation in AcceptAll(journal).value.operations { OperationsAreNamed(journal, operation); }
  }

  /** Which kinds must be gone before which. */
  predicate Before(a: Kind, b: Kind) {
    match b
    case Output => a != Output
    case PartsDirectory => a == Media || a == Connections || a == Manifest
    case Manifest => a == Media || a == Connections
    case Connections => a == Media
    case Media => false
  }

  lemma KindsInOrder(order: seq<Artifact>, j: nat, k: nat)
    requires Destructive(order) && j < |order| && k < |order|
    ensures Before(order[j].kind, order[k].kind) ==> j < k
    ensures order[j].kind == Output ==> j == |order| - 1
  {
  }

  // ------------------------------------------------------------------ in accepted journals

  /** The acceptor follows the order that the operation's intent wrote down. */
  lemma {:induction false} IntentFixesOrder(journal: seq<Event>, k: nat)
    requires Accepted(journal) && k < |journal| && journal[k].Intent?
    ensures var h := AcceptAll(journal).value;
            journal[k].operation in h.operations && h.operations[journal[k].operation].order == journal[k].order
  {
    hide Destructive;
    var n := |journal| - 1;
    if k < n { IntentFixesOrder(journal[..n], k); }
  }

  /** Whatever is reported deleted, everything that must go before it was reported deleted too; in particular the
      output is reported only after all the rest of its order. */
  lemma ReportedInOrder(journal: seq<Event>, k: nat, a: Artifact, b: Artifact)
    requires Accepted(journal) && k < |journal| && journal[k].Intent? && a in journal[k].order && b in journal[k].order
    requires Before(a.kind, b.kind) && b.path in DeletedPaths(journal, journal[k].operation)
    ensures a.path in DeletedPaths(journal, journal[k].operation)
  {
    hide AcceptAll, DeletedPaths, Destructive, CompletionReported;
    var operation, order := journal[k].operation, journal[k].order;
    IntentFixesOrder(journal, k);
    AcceptedReportsAPrefix(journal, operation);
    var index := AcceptAll(journal).value.operations[operation].index;
    var i :| 0 <= i < |order| && order[i] == a;
    var j :| 0 <= j < |order| && order[j] == b;
    var gone := PathsOf(order)[..index];
    var m :| 0 <= m < |gone| && gone[m] == b.path;
    OnePlace(order, m, j);
    KindsInOrder(order, i, j);
    assert gone[i] == a.path;
  }

  lemma OnePlace(order: seq<Artifact>, m: nat, j: nat)
    requires Destructive(order) && m < |order| && j < |order| && order[m].path == order[j].path
    ensures m == j
  {
  }

  // ------------------------------------------------------------------------ on the disk

  /** How many artifacts are gone once `m` steps have begun, all but the last of them in full. */
  function GoneAfter(n: nat, fate: nat -> Fate, m: nat): (g: nat)
    ensures g <= n
  {
    var g := if m / 5 <= n then m / 5 else n;
    if m > 0 && m % 5 == 0 && m <= 5 * n && !fate(m - 1).done then g - 1 else g
  }

  lemma {:induction false} StepsRemove(operation: Operation, order: seq<Artifact>, fate: nat -> Fate, s: Storage, m: nat)
    requires m <= 5 * |order| + 2 && forall t: nat | t + 1 < m :: fate(t).ending == Returns
    ensures Steps(operation, order, fate, s, 0, m).disk == s.disk - Gone(PathsOf(order)[..GoneAfter(|order|, fate, m)])
  {
    hide Gone, Line, WithLine;
    if m == 0 {
      NothingGone(s.disk, order);
    } else {
      StepsRemove(operation, order, fate, s, m - 1);
      StepRemoves(operation, order, fate, Steps(operation, order, fate, s, 0, m - 1), m - 1);
      GoneNext(order, fate, s.disk, m);
    }
  }

  lemma NothingGone(disk: set<Path>, order: seq<Artifact>)
    ensures disk - Gone(PathsOf(order)[..0]) == disk
  {
  }

  lemma StepRemoves(operation: Operation, order: seq<Artifact>, fate: nat -> Fate, s: Storage, step: nat)
    ensures Step(operation, order, fate, s, step).disk ==
            if step % 5 == 4 && step < 5 * |order| && fate(step).done then s.disk - {order[step / 5].path} else s.disk
  {
    if 1 <= step <= 5 * |order| && step % 5 == 4 {
      assert (step - 1) / 5 == step / 5;
    }
  }

  lemma GoneNext(order: seq<Artifact>, fate: nat -> Fate, disk: set<Path>, m: nat)
    requires 0 < m <= 5 * |order| + 2 && forall t: nat | t + 1 < m :: fate(t).ending == Returns
    ensures var before := disk - Gone(PathsOf(order)[..GoneAfter(|order|, fate, m - 1)]);
            disk - Gone(PathsOf(order)[..GoneAfter(|order|, fate, m)]) ==
            if (m - 1) % 5 == 4 && m - 1 < 5 * |order| && fate(m - 1).done then before - {order[(m - 1) / 5].path} else before
  {
    var n, g, before := |order|, GoneAfter(|order|, fate, m), GoneAfter(|order|, fate, m - 1);
    if (m - 1) % 5 == 4 && m - 1 < 5 * n && fate(m - 1).done {
      var k := (m - 1) / 5;
      assert before == k && g == k + 1;
      assert PathsOf(order)[..k + 1] == PathsOf(order)[..k] + [order[k].path];
      GoneSnoc(disk, PathsOf(order)[..k], order[k].path);
    } else {
      assert g == before;
    }
  }

  /** Whatever a call came to, it removed a beginning of its order. */
  lemma CallRemovesPrefix(journal: seq<Event>, disk: set<Path>, c: Call)
    ensures exists n: nat :: n <= |c.order| && Executed(journal, disk, c).disk == disk - Gone(PathsOf(c.order)[..n])
  {
    hide Accepted, Gone, Steps, WithLine;
    if Accepted(journal) {
      var stop := FirstStop(c.fate, 0, 5 * |c.order| + 1);
      var s := Storage(journal, |journal|, disk);
      StepsRemove(c.operation, c.order, c.fate, s, Through(stop, 5 * |c.order| + 2));
      ReportKeepsDisk(c, stop, Steps(c.operation, c.order, c.fate, s, 0, Through(stop, 5 * |c.order| + 2)));
    } else {
      NothingGone(disk, c.order);
    }
  }

  lemma ReportKeepsDisk(c: Call, stop: Option<nat>, s: Storage)
    ensures Reported(c.operation, c.order, c.fate, c.onFailure, stop, s).disk == s.disk
  {
  }

  predicate Lists(c: Call, path: Path) { exists x | x in c.order :: x.path == path }

  lemma CallShrinks(journal: seq<Event>, disk: set<Path>, c: Call)
    ensures Executed(journal, disk, c).disk <= disk
    ensures forall p | p in disk && !Lists(c, p) :: p in Executed(journal, disk, c).disk
  {
    hide Executed;
    CallRemovesPrefix(journal, disk, c);
    var n: nat :| n <= |c.order| && Executed(journal, disk, c).disk == disk - Gone(PathsOf(c.order)[..n]);
    forall p | p in disk && !Lists(c, p) ensures p in Executed(journal, disk, c).disk {
      if p in PathsOf(c.order)[..n] { GoneIsListed(c, n, p); }
    }
  }

  lemma GoneIsListed(c: Call, n: nat, p: Path)
    requires n <= |c.order| && p in PathsOf(c.order)[..n]
    ensures Lists(c, p)
  {
    var i :| 0 <= i < n && PathsOf(c.order)[..n][i] == p;
    assert c.order[i] in c.order && c.order[i].path == p;
  }

  /** Within one call nothing is removed before what must go before it. */
  lemma CallRemovesInOrder(journal: seq<Event>, disk: set<Path>, c: Call, a: Artifact, b: Artifact)
    requires Destructive(c.order) && a in c.order && b in c.order && Before(a.kind, b.kind)
    requires b.path in disk && b.path !in Executed(journal, disk, c).disk
    ensures a.path !in Executed(journal, disk, c).disk
  {
    hide Executed, Destructive, Before;
    CallRemovesPrefix(journal, disk, c);
    var n: nat :| n <= |c.order| && Executed(journal, disk, c).disk == disk - Gone(PathsOf(c.order)[..n]);
    var i :| 0 <= i < |c.order| && c.order[i] == a;
    var j :| 0 <= j < |c.order| && c.order[j] == b;
    var gone := PathsOf(c.order)[..n];
    var m :| 0 <= m < n && gone[m] == b.path;
    OnePlace(c.order, m, j);
    KindsInOrder(c.order, i, j);
    assert gone[i] == a.path;
  }

  lemma {:induction false} UnlistedStays(disk: set<Path>, calls: seq<Call>, p: Path)
    requires p in disk && forall c | c in calls :: !Lists(c, p)
    ensures p in AfterCalls(disk, calls).disk
  {
    hide Executed, Lists;
    if calls != [] {
      var n := |calls| - 1;
      UnlistedStays(disk, calls[..n], p);
      var before := AfterCalls(disk, calls[..n]);
      CallShrinks(before.journal, before.disk, calls[n]);
      assert calls[n] in calls;
    }
  }

  /** Over any calls, with any faults: when an artifact that only one operation lists is missing from the disk,
      everything in that operation's order that must go before it is missing too. */
  lemma {:induction false} GoneInOrder(disk: set<Path>, calls: seq<Call>, k: nat, a: Artifact, b: Artifact)
    requires forall c | c in calls :: Destructive(c.order)
    requires k < |calls| && a in calls[k].order && b in calls[k].order && Before(a.kind, b.kind)
    requires forall j | 0 <= j < |calls| && j != k :: !Lists(calls[j], b.path)
    requires b.path in disk && b.path !in AfterCalls(disk, calls).disk
    ensures a.path !in AfterCalls(disk, calls).disk
  {
    hide Executed, Lists, Destructive, Before;
    var n := |calls| - 1;
    var before := AfterCalls(disk, calls[..n]);
    CallShrinks(before.journal, before.disk, calls[n]);
    assert forall c | c in calls[..n] :: c in calls;
    if k == n {
      forall c | c in calls[..n] ensures !Lists(c, b.path) {
        var j :| 0 <= j < n && calls[j] == c;
      }
      UnlistedStays(disk, calls[..n], b.path);
      CallRemovesInOrder(before.journal, before.disk, calls[n], a, b);
    } else if b.path !in before.disk {
      GoneInOrder(disk, calls[..n], k, a, b);
    }
  }

  /** In particular the final file is the last artifact of its session to go, and the directory goes only behind
      all that lies in it. */
  lemma OutputGoesLast(disk: set<Path>, calls: seq<Call>, k: nat, output: Artifact)
    requires forall c | c in calls :: Destructive(c.order)
    requires k < |calls| && output in calls[k].order && output.kind == Output
    requires forall j | 0 <= j < |calls| && j != k :: !Lists(calls[j], output.path)
    requires output.path in disk && output.path !in AfterCalls(disk, calls).disk
    ensures forall a | a in calls[k].order :: a.path !in AfterCalls(disk, calls).disk
  {
    hide AfterCalls, Lists;
    forall a | a in calls[k].order ensures a.path !in AfterCalls(disk, calls).disk {
      if a.kind == Output {
        OneOutput(calls[k].order, a, output);
      } else {
        GoneInOrder(disk, calls, k, a, output);
      }
    }
  }

  lemma OneOutput(order: seq<Artifact>, a: Artifact, b: Artifact)
    requires Destructive(order) && a in order && b in order && a.kind == Output && b.kind == Output
    ensures a == b
  {
    var i :| 0 <= i < |order| && order[i] == a;
    var j :| 0 <= j < |order| && order[j] == b;
    KindsInOrder(order, i, j);
    KindsInOrder(order, j, i);
  }
}
