/** What captures, crashes, recoveries, finalizations and resumes do to one session's directory. */
module ConnectionSpec {
  import opened Wrappers
  import opened ConnectionLog

  type Output(==,!new)

  datatype Status = Recording | Interrupted | Failed | Completed
  datatype Finalization = NotRequested | Pending | NotStarted | Running | Finalized | FinalFailed | FinalInterrupted

  datatype Manifest = Manifest(status: Status, connections: nat, parts: nat, finalization: Finalization, output: Option<Output>)

  /** The session's directory, and the outputs and encodings under way beside it. `log` holds the lines appended
      whole, and `whole` says that no append was cut short; `accepted` says that every completed part passes the
      structural check. A crash can leave the writer's partial, a torn manifest write, or the evidence of a
      recovery that has not been recorded yet, under its part number. */
  datatype Disk = Disk(directory: bool, log: seq<Line>, whole: bool, parts: nat, accepted: bool, writerPartial: bool,
                       manifestPartial: bool, evidence: Option<nat>, outputs: set<Output>, encodings: set<Output>,
                       manifest: Option<Manifest>)

  const NoSession := Disk(false, [], true, 0, true, false, false, None, {}, {}, None)

  /** A manifest write replaces the file whole; a process that dies inside it leaves the torn copy. */
  function Wrote(d: Disk, m: Manifest): Disk { d.(manifest := Some(m), manifestPartial := false) }

  function Torn(d: Disk, torn: bool): Disk { d.(manifestPartial := d.manifestPartial || torn) }

  /** Append lines; an append that is cut short leaves a torn line behind the whole ones. */
  function Logged(d: Disk, lines: seq<Line>, whole: bool): Disk { d.(log := d.log + lines, whole := d.whole && whole) }

  // ------------------------------------------------------------------ a process

  type Index = i: int | i >= 1 witness 1

  /** A running capture: its counters, the manifest it holds, and the lines of attempts made before the
      session existed. */
  datatype Process = Process(disk: Disk, connection: nat, nextPart: Index, started: bool, held: Option<Manifest>,
                             earlier: seq<Line>, output: Option<Output>)

  /** Where the process dies inside a turn, if it does. */
  datatype Death =
    | Survives
    | BeforeWriting
    | InStart(torn: bool)
    | InEarlierLines(written: nat, torn: bool)
    | InIdentity(torn: bool)
    | InWriting(promoted: nat, open: bool)
    | BeforeLine(torn: bool)
    | BeforeManifest(torn: bool)

  /** Creating the session can raise at its manifest, or behind some of the earlier lines. */
  datatype Creation = Created | ManifestRaises | LineRaises(written: nat, torn: bool)

  /** One turn of the capture loop: whether a source was resolved, how many parts the writer retained, for how
      many it reported timings, whether they pass the structural check, and whether the turn is recorded. */
  datatype Turn = Turn(resolves: bool, creation: Creation, retained: nat, timed: nat, accepted: bool, recorded: bool, death: Death)

  /** Only an unresolved attempt goes unrecorded, it retains nothing, and timings are of retained parts. */
  type Attempt = t: Turn | t.timed <= t.retained && (!t.resolves ==> t.retained == 0) && (!t.recorded ==> !t.resolves)
    witness Turn(false, Created, 0, 0, true, true, Survives)

  datatype Going = Goes | Dead | Raises

  function PartsFrom(first: nat, count: nat): Option<Range> {
    if count == 0 then None else Some(Range(first, first + count - 1))
  }

  function TimingsFrom(first: nat, count: nat): (t: seq<int>)
    ensures forall i | i in t :: first <= i < first + count
  {
    seq(count, i requires 0 <= i < count => first + i)
  }

  /** The line that records an attempt. */
  function AttemptLine(number: nat, next: nat, retained: nat, timed: nat): Line {
    Connection(number, PartsFrom(next, retained), TimingsFrom(next, timed))
  }

  function Taken(lines: seq<Line>, n: nat): seq<Line> { if n <= |lines| then lines[..n] else lines }

  /** The first resolved source creates the session: directory, manifest, then the earlier attempts' lines. */
  function CreateSession(p: Process, a: Attempt): (Process, Going) {
    if p.output.Some? && p.output.value in p.disk.outputs then (p, Dead)
    else
      var m := Manifest(Recording, p.connection, 0, if p.output.None? then NotRequested else Pending, p.output);
      var q := p.(disk := p.disk.(directory := true), started := true, held := Some(m));
      if a.death.InStart? then (q.(disk := Torn(q.disk, a.death.torn)), Dead)
      else if a.creation.ManifestRaises? then (q, Raises)
      else LogEarlier(q.(disk := Wrote(q.disk, m)), a)
  }

  function LogEarlier(p: Process, a: Attempt): (Process, Going) {
    if a.death.InEarlierLines? then (p.(disk := Logged(p.disk, Taken(p.earlier, a.death.written), !a.death.torn)), Dead)
    else if a.creation.LineRaises? then (p.(disk := Logged(p.disk, Taken(p.earlier, a.creation.written), !a.creation.torn)), Raises)
    else (p.(disk := Logged(p.disk, p.earlier, true)), Goes)
  }

  /** The writer's parts reach the disk; a death inside it keeps those already promoted. */
  function WriteMedia(p: Process, a: Attempt): (Process, Going) {
    var made := if a.death.InWriting? then a.death.promoted else a.retained;
    var d := p.disk.(parts := p.disk.parts + made, accepted := p.disk.accepted && (made > 0 ==> a.accepted));
    if a.death.InWriting? then (p.(disk := d.(writerPartial := d.writerPartial || a.death.open)), Dead)
    else (p.(disk := d), Goes)
  }

  /** Close an attempt: its line, then the manifest. */
  function CloseAttempt(p: Process, retained: nat, timed: nat, recorded: bool, death: Death): (Process, Going) {
    var line := AttemptLine(p.connection, p.nextPart, retained, timed);
    if death.BeforeLine? then (p.(disk := p.disk.(whole := p.disk.whole && !(death.torn && p.started && recorded))), Dead)
    else
      var d := if p.started && recorded then Logged(p.disk, [line], true) else p.disk;
      if death.BeforeManifest? then (p.(disk := Torn(d, death.torn && p.held.Some? && recorded)), Dead)
      else
        var q := p.(disk := d, nextPart := p.nextPart + retained, earlier := if p.started then p.earlier else p.earlier + [line]);
        if p.held.Some? && recorded then
          var m := p.held.value.(connections := p.connection, parts := q.nextPart - 1);
          (q.(disk := Wrote(d, m), held := Some(m)), Goes)
        else (q, Goes)
  }

  /** One turn: number, session, room identity, media, line, manifest. What raises is recorded and ends the loop. */
  function TakeTurn(p: Process, a: Attempt): (Process, Going) {
    var p1 := p.(connection := p.connection + 1);
    if a.death == BeforeWriting then (p1, Dead)
    else if !a.resolves then CloseAttempt(p1, 0, 0, a.recorded, a.death)
    else
      var (p2, created) := if p.started then (p1, Goes) else CreateSession(p1, a);
      if created == Dead then (p2, Dead)
      else if created == Raises then
        var (p3, closed) := CloseAttempt(p2, 0, 0, true, a.death);
        (p3, if closed == Goes then Raises else closed)
      else if a.death.InIdentity? then (p2.(disk := Torn(p2.disk, a.death.torn)), Dead)
      else
        var (p3, wrote) := WriteMedia(p2, a);
        if wrote == Dead then (p3, Dead) else CloseAttempt(p3, a.retained, a.timed, a.recorded, a.death)
  }

  /** The turns of one process, up to the first that does not go on. */
  function TakeTurns(p: Process, attempts: seq<Attempt>): (Process, Going)
    decreases |attempts|
  {
    if attempts == [] then (p, Goes)
    else
      var (q, going) := TakeTurn(p, attempts[0]);
      if going != Goes then (q, going) else TakeTurns(q, attempts[1..])
  }

  // -------------------------------------------------------------------- its end

  /** How the encoder ends, and what a failing one leaves beside the session. */
  datatype Finalizer = Succeeds | Breaks(leaves: Residue) | StoppedMidway(leaves: Residue) | DiesMidway(leaves: Residue)

  datatype Residue = Nothing | AnEncoding | AnOutput

  datatype Close =
    | Stops(interrupted: bool, finalizer: Finalizer)
    | Fails
    | Dies
    | DiesBeforeCounts(torn: bool)
    | DiesAfterCounts(torn: bool)

  function Left(d: Disk, output: Output, leaves: Residue): Disk {
    match leaves
    case Nothing => d
    case AnEncoding => d.(encodings := d.encodings + {output})
    case AnOutput => d.(outputs := d.outputs + {output})
  }

  predicate Unmade(d: Disk, output: Output) { output !in d.outputs && output !in d.encodings }

  /** An encoder refuses to write over anything. */
  function Encoder(d: Disk, output: Output, finalizer: Finalizer): Finalizer {
    if finalizer == Succeeds && !Unmade(d, output) then Breaks(Nothing) else finalizer
  }

  function Residual(f: Finalizer): Residue { if f == Succeeds then AnOutput else f.leaves }

  /** The manifest that the end of the encoder calls for, or nothing when the process died in it. */
  function Outcome(m: Manifest, output: Output, ends: Finalizer, closed: Status, broken: Status, stopped: Status): Option<Manifest> {
    match ends
    case Succeeds => Some(m.(output := Some(output), status := closed, finalization := Finalized))
    case Breaks(_) => Some(m.(status := broken, finalization := FinalFailed))
    case StoppedMidway(_) => Some(m.(status := stopped, finalization := FinalInterrupted))
    case DiesMidway(_) => None
  }

  /** Finalize a session's parts into its output; the manifest says running first and the result afterwards. */
  function Finalizing(d: Disk, m: Manifest, output: Output, finalizer: Finalizer, closed: Status, broken: Status,
                      stopped: Status): Disk
  {
    var ends := Encoder(d, output, finalizer);
    var left := Left(Wrote(d, m.(finalization := Running)), output, Residual(ends));
    var last := Outcome(m, output, ends, closed, broken, stopped);
    if last.None? then left else Wrote(left, last.value)
  }

  /** Bring the manifest up to the process's counts, then end the session as asked. */
  function Finish(p: Process, close: Close): Disk {
    if p.held.None? || close == Dies then p.disk
    else if close.DiesBeforeCounts? then Torn(p.disk, close.torn)
    else
      var m := p.held.value.(connections := p.connection, parts := p.nextPart - 1);
      var d := Wrote(p.disk, m);
      match close
      case DiesAfterCounts(torn) => Torn(d, torn)
      case Stops(interrupted, finalizer) =>
        var status := if interrupted then Interrupted else Completed;
        if p.output.None? then Wrote(d, m.(status := status))
        else if m.parts == 0 then Wrote(d, m.(status := status, finalization := NotStarted))
        else Finalizing(d, m, p.output.value, finalizer, status, Failed, Interrupted)
      case _ => Wrote(d, m.(status := Failed, finalization := if p.output.None? then m.finalization else NotStarted))
  }

  predicate DiesIn(close: Close) { close.Dies? || close.DiesBeforeCounts? || close.DiesAfterCounts? }

  /** A whole process from its first turn to its end; what raised closes the session as failed. */
  function RunProcess(p: Process, attempts: seq<Attempt>, close: Close): Disk {
    var (q, going) := TakeTurns(p, attempts);
    if going == Dead then q.disk
    else Finish(q, if going == Raises && !DiesIn(close) then Fails else close)
  }

  // --------------------------------------------------------------------- resume

  predicate Resumable(f: Finalization) { f in {NotRequested, Pending, NotStarted} }

  predicate Closed(m: Option<Manifest>) { m.Some? && m.value.status != Recording }

  /** The declared and the requested output agree, neither exists or is being encoded, and the requested one can
      be made. */
  predicate OutputFree(d: Disk, declared: Option<Output>, requested: Option<Output>, usable: bool) {
    && (declared.Some? && requested.Some? ==> declared == requested)
    && (declared.Some? ==> Unmade(d, declared.value)) && (requested.Some? ==> Unmade(d, requested.value) && usable)
  }

  /** The directory holds contiguous accepted parts and no partial of any kind. */
  predicate Discovered(d: Disk) { d.directory && d.parts > 0 && d.accepted && !d.writerPartial && !d.manifestPartial }

  /** The read-only preflight of a resume: the next connection number, or a refusal. */
  function PreparedNext(d: Disk, requested: Option<Output>, usable: bool): Option<nat> {
    if !Discovered(d) || d.manifest.None? then None
    else
      var m := d.manifest.value;
      if m.status == Completed || m.parts > d.parts || (m.parts != d.parts && m.status != Recording)
         || !Resumable(m.finalization) || !OutputFree(d, m.output, requested, usable)
         || !d.whole || !Readable(d.log, d.parts)
      then None
      else
        var count := Count(ReadAll(d.log, d.parts).value);
        if m.status != Recording && count > m.connections then None
        else Some((if m.connections < count then count else m.connections) + 1)
  }

  datatype Reopening = Reopens | DiesReopening(torn: bool) | DiesBeforeResumeLine(torn: bool)

  function Reopened(m: Manifest, next: nat, parts: nat, requested: Option<Output>): Manifest {
    m.(status := Recording, connections := next, parts := parts, output := if requested.Some? then requested else m.output,
       finalization := if requested.Some? then Pending else NotRequested)
  }

  /** Reopen the manifest, then log the reserved number. */
  function BeginResume(d: Disk, next: nat, requested: Option<Output>, reopening: Reopening): (Process, Going)
    requires d.manifest.Some? && next >= 1
  {
    var m := Reopened(d.manifest.value, next, d.parts, requested);
    var p := Process(d, next - 1, d.parts + 1, true, Some(m), [], requested);
    match reopening
    case DiesReopening(torn) => (p.(disk := Torn(d, torn)), Dead)
    case DiesBeforeResumeLine(torn) => (p.(disk := Logged(Wrote(d, m), [], !torn)), Dead)
    case Reopens => (p.(disk := Logged(Wrote(d, m), [ConnectionLog.Resume(next, d.parts + 1)], true)), Goes)
  }

  // ------------------------------------------------------------ between processes

  datatype Progress = Preserved | Published | Recorded

  /** The service may recover a crashed writer's partial of a session that was recording, for an output
      that does not exist yet. */
  predicate MayRecover(d: Disk) {
    && d.manifest.Some? && d.manifest.value.status == Recording && d.manifest.value.finalization in {Pending, NotStarted}
    && (d.manifest.value.output.Some? ==> Unmade(d, d.manifest.value.output.value))
    && d.accepted && !d.manifestPartial && (d.writerPartial <==> d.evidence.None?)
    && (d.evidence.Some? ==> d.evidence.value >= 1 && d.parts <= d.evidence.value <= d.parts + 1
                             && d.manifest.value.parts <= d.evidence.value - 1)
  }

  /** A recovery that comes this far: preserved evidence, a published part, its manifest record. */
  function Recover(d: Disk, progress: Progress): Disk {
    if !MayRecover(d) || d.manifest.value.parts > d.parts then d
    else
      var index := if d.evidence.Some? then d.evidence.value else d.parts + 1;
      var e := d.(writerPartial := false, evidence := Some(index));
      if progress.Preserved? then e
      else
        var f := e.(parts := index);
        if progress.Published? then f
        else Wrote(f.(evidence := None), d.manifest.value.(parts := index))
  }

  /** Finalize retained parts after the capture, by the service or by hand. */
  function FinalizeLater(d: Disk, output: Output, torn: Option<bool>, finalizer: Finalizer, service: bool): Disk {
    if d.manifest.None? || d.parts == 0 || (service && !Discovered(d)) then d
    else if torn.Some? then Torn(d, torn.value)
    else
      var m := d.manifest.value.(parts := d.parts, output := Some(output));
      var kept := if m.status == Recording then Interrupted else m.status;
      if service then Finalizing(d, m, output, finalizer, Interrupted, Failed, Interrupted)
      else Finalizing(d, m, output, finalizer, kept, kept, kept)
  }

  /** The service gives up on a session it could have resumed. */
  function Exhaust(d: Disk, output: Output, torn: Option<bool>): Disk {
    if PreparedNext(d, Some(output), true).None? || d.evidence.Some? then d
    else if torn.Some? then Torn(d, torn.value)
    else Wrote(d, d.manifest.value.(status := Failed, parts := d.parts, finalization := NotStarted))
  }

  datatype Event =
    | Fresh(wanted: Option<Output>, attempts: seq<Attempt>, close: Close)
    | Resumed(requested: Option<Output>, usable: bool, reopening: Reopening, attempts: seq<Attempt>, close: Close)
    | Recovers(progress: Progress)
    | Finalizes(output: Output, torn: Option<bool>, finalizer: Finalizer, service: bool)
    | Exhausts(output: Output, torn: Option<bool>)
    | Notes(whole: bool)
    | Appears(output: Output, residue: Residue)
    | Removed(output: Output)

  function FreshProcess(d: Disk, output: Option<Output>): Process { Process(d, 0, 1, false, None, [], output) }

  function Happens(d: Disk, e: Event): Disk {
    match e
    case Fresh(output, attempts, close) => if d.directory then d else RunProcess(FreshProcess(d, output), attempts, close)
    case Resumed(requested, usable, reopening, attempts, close) =>
      var next := PreparedNext(d, requested, usable);
      if next.None? then d
      else
        var (p, going) := BeginResume(d, next.value, requested, reopening);
        if going == Dead then p.disk else RunProcess(p, attempts, close)
    case Recovers(progress) => Recover(d, progress)
    case Finalizes(output, torn, finalizer, service) => FinalizeLater(d, output, torn, finalizer, service)
    case Exhausts(output, torn) => Exhaust(d, output, torn)
    case Notes(whole) => if d.directory then Logged(d, if whole then [Evidence] else [], whole) else d
    case Appears(output, residue) => Left(d, output, residue)
    case Removed(output) => d.(outputs := d.outputs - {output}, encodings := d.encodings - {output})
  }

  /** The directory after any events, in order. */
  function After(events: seq<Event>): Disk {
    if events == [] then NoSession else Happens(After(events[..|events| - 1]), events[|events| - 1])
  }

  // ------------------------------------------------------- what the events determine

  /** A process that dies between a line and its manifest write leaves the manifest behind, unless it had
      written this number already: when creating the session or when reopening it. */
  predicate TurnBehind(p: Process, a: Attempt) {
    a.death.BeforeManifest? && a.recorded && p.started && p.held.Some? && p.held.value.connections <= p.connection
  }

  predicate DiesBehind(p: Process, attempts: seq<Attempt>)
    decreases |attempts|
  {
    attempts != [] &&
    (TurnBehind(p, attempts[0]) ||
     (TakeTurn(p, attempts[0]).1 == Goes && DiesBehind(TakeTurn(p, attempts[0]).0, attempts[1..])))
  }

  /** Whether an event leaves the manifest behind the log: a process does that died between a line and its
      manifest write, and a resume that wrote its count without having made an attempt. */
  predicate BehindAfter(d: Disk, e: Event, behind: bool) {
    if e.Fresh? && !d.directory then DiesBehind(FreshProcess(d, e.wanted), e.attempts)
    else if e.Resumed? && !e.reopening.DiesReopening? && PreparedNext(d, e.requested, e.usable).Some? then
      && e.reopening.Reopens?
      && (if e.attempts == [] then !e.close.Dies? && !e.close.DiesBeforeCounts?
          else DiesBehind(BeginResume(d, PreparedNext(d, e.requested, e.usable).value, e.requested, e.reopening).0, e.attempts))
    else behind
  }

  predicate Behind(events: seq<Event>) {
    events != [] && BehindAfter(After(events[..|events| - 1]), events[|events| - 1], Behind(events[..|events| - 1]))
  }

  /** Nothing died with parts of its own unlogged, and nothing was recovered. */
  predicate Undisturbed(e: Event) {
    && !e.Recovers?
    && (e.Fresh? || e.Resumed? ==> forall a | a in e.attempts :: a.death == Survives)
  }
}
