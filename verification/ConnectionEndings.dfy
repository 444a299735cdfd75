/** What an undisturbed process leaves: its lines, its parts, and how the session is closed. */
module ConnectionEndings {
  import opened Wrappers
  import opened ConnectionLog
  import opened ConnectionSpec
  import opened ConnectionRuns

  /** Nothing dies and nothing raises while the session is created. */
  predicate Calm(attempts: seq<Attempt>) { forall a | a in attempts :: a.death == Survives && a.creation == Created }

  predicate Resolves(attempts: seq<Attempt>) { exists a | a in attempts :: a.resolves }

  function PartsOf(attempts: seq<Attempt>): nat { if attempts == [] then 0 else attempts[0].retained + PartsOf(attempts[1..]) }

  predicate AllAccepted(attempts: seq<Attempt>) { forall a | a in attempts && a.retained > 0 :: a.accepted }

  /** One line per attempt, in order, except for attempts of a running session that go unrecorded. */
  function LinesOf(attempts: seq<Attempt>, number: nat, next: nat, started: bool): seq<Line> {
    if attempts == [] then []
    else
      var a := attempts[0];
      var rest := LinesOf(attempts[1..], number + 1, next + a.retained, started || a.resolves);
      if a.recorded || !started then [AttemptLine(number, next, a.retained, a.timed)] + rest else rest
  }

  /** The lines a process has logged, or will when it creates its session. */
  function LinesSoFar(p: Process): seq<Line> { if p.started then p.disk.log else p.disk.log + p.earlier }

  /** The output a session declares. */
  function Declared(p: Process): Option<Output> { if p.held.Some? then p.held.value.output else p.output }

  predicate HoldsManifest(p: Process) {
    && (p.started <==> p.held.Some?)
    && (p.started ==> p.disk.directory && p.held.value.status == Recording
                      && p.held.value.finalization == if p.output.None? then NotRequested else Pending)
  }

  /** What some turns change, and what they do not. */
  predicate Advanced(p: Process, q: Process, turns: nat, parts: nat, lines: seq<Line>) {
    && q.connection == p.connection + turns && q.nextPart == p.nextPart + parts && q.disk.parts == p.disk.parts + parts
    && LinesSoFar(q) == LinesSoFar(p) + lines
    && q.output == p.output && Declared(q) == Declared(p)
    && q.disk.outputs == p.disk.outputs && q.disk.encodings == p.disk.encodings && q.disk.whole == p.disk.whole
    && q.disk.writerPartial == p.disk.writerPartial && q.disk.evidence == p.disk.evidence
    && (q.disk.manifestPartial ==> p.disk.manifestPartial) && (p.started ==> q.started)
  }

  predicate Unblocked(p: Process) { p.started || p.output.None? || p.output.value !in p.disk.outputs }

  lemma CalmTurn(p: Process, a: Attempt)
    requires HoldsManifest(p) && Unblocked(p) && a.death == Survives && a.creation == Created
    ensures var (q, going) := TakeTurn(p, a);
            && going == Goes && HoldsManifest(q) && Unblocked(q) && q.started == (p.started || a.resolves)
            && q.disk.accepted == (p.disk.accepted && (a.retained > 0 ==> a.accepted))
            && Advanced(p, q, 1, a.retained, if a.recorded || !p.started then [AttemptLine(p.connection + 1, p.nextPart, a.retained, a.timed)] else [])
  {
    hide CreateSession, CloseAttempt, HoldsManifest, AttemptLine;
    var p1 := p.(connection := p.connection + 1);
    SameHold(p, p1);
    if !a.resolves {
      ClosedCalmly(p1, 0, 0, a.recorded);
    } else {
      var p2 := if p.started then p1 else CreateSession(p1, a).0;
      if !p.started { CreatedCalmly(p1, a); }
      var p3 := WriteMedia(p2, a).0;
      SameHold(p2, p3);
      ClosedCalmly(p3, a.retained, a.timed, a.recorded);
    }
  }

  lemma SameHold(p: Process, q: Process)
    requires q.held == p.held && q.started == p.started && q.output == p.output && q.disk.directory == p.disk.directory
    ensures HoldsManifest(p) <==> HoldsManifest(q)
    ensures HoldsManifest(p) ==> (p.started <==> p.held.Some?)
  {
  }

  lemma CreatedCalmly(p: Process, a: Attempt)
    requires HoldsManifest(p) && !p.started && Unblocked(p) && a.death == Survives && a.creation == Created
    ensures var (q, going) := CreateSession(p, a);
            going == Goes && q.started && HoldsManifest(q) && Advanced(p, q, 0, 0, []) && q.disk.accepted == p.disk.accepted
            && q.earlier == p.earlier && q.connection == p.connection
  {
    assert LinesSoFar(p) + [] == LinesSoFar(p);
  }

  lemma ClosedCalmly(p: Process, retained: nat, timed: nat, recorded: bool)
    requires HoldsManifest(p)
    ensures var (q, going) := CloseAttempt(p, retained, timed, recorded, Survives);
            && going == Goes && HoldsManifest(q) && q.started == p.started && q.disk.accepted == p.disk.accepted && q.disk.parts == p.disk.parts
            && Advanced(p, q.(disk := q.disk.(parts := p.disk.parts + retained)), 0, retained,
                        if recorded || !p.started then [AttemptLine(p.connection, p.nextPart, retained, timed)] else [])
  {
    var line := AttemptLine(p.connection, p.nextPart, retained, timed);
    assert p.disk.log + (p.earlier + [line]) == p.disk.log + p.earlier + [line];
    assert p.disk.log + [] == p.disk.log;
  }

  lemma AdvancedOn(p: Process, q: Process, r: Process, t1: nat, k1: nat, l1: seq<Line>, t2: nat, k2: nat, l2: seq<Line>)
    requires Advanced(p, q, t1, k1, l1) && Advanced(q, r, t2, k2, l2)
    ensures Advanced(p, r, t1 + t2, k1 + k2, l1 + l2)
  {
    hide LinesSoFar, Declared;
    assert LinesSoFar(p) + l1 + l2 == LinesSoFar(p) + (l1 + l2);
  }

  /** The turns of an undisturbed process number and log every attempt and keep every part. */
  lemma {:induction false} CalmTurns(p: Process, attempts: seq<Attempt>)
    requires HoldsManifest(p) && Unblocked(p) && Calm(attempts)
    ensures var (q, going) := TakeTurns(p, attempts);
            && going == Goes && HoldsManifest(q) && q.started == (p.started || Resolves(attempts))
            && q.disk.accepted == (p.disk.accepted && AllAccepted(attempts))
            && Advanced(p, q, |attempts|, PartsOf(attempts), LinesOf(attempts, p.connection + 1, p.nextPart, p.started))
    decreases |attempts|
  {
    hide TakeTurn, HoldsManifest, Advanced, Unblocked;
    if attempts == [] {
      StandingStill(p);
    } else {
      var a, rest := attempts[0], attempts[1..];
      assert a in attempts && forall b | b in rest :: b in attempts;
      var q := TakeTurn(p, a).0;
      CalmTurn(p, a);
      CalmTurns(q, rest);
      NextTurn(p, q, a);
      var first := if a.recorded || !p.started then [AttemptLine(p.connection + 1, p.nextPart, a.retained, a.timed)] else [];
      AdvancedOn(p, q, TakeTurns(q, rest).0, 1, a.retained, first, |rest|, PartsOf(rest),
                 LinesOf(rest, q.connection + 1, q.nextPart, q.started));
      FirstAttempt(attempts);
      LinesUnfold(attempts, p.connection + 1, p.nextPart, p.started);
    }
  }

  lemma LinesUnfold(attempts: seq<Attempt>, number: nat, next: nat, started: bool)
    requires attempts != []
    ensures var a := attempts[0];
            LinesOf(attempts, number, next, started) ==
            (if a.recorded || !started then [AttemptLine(number, next, a.retained, a.timed)] else [])
            + LinesOf(attempts[1..], number + 1, next + a.retained, started || a.resolves)
  {
  }

  lemma NextTurn(p: Process, q: Process, a: Attempt)
    requires exists lines :: Advanced(p, q, 1, a.retained, lines)
    ensures q.connection == p.connection + 1 && q.nextPart == p.nextPart + a.retained
  {
  }

  lemma StandingStill(p: Process)
    ensures Advanced(p, p, 0, 0, [])
  {
    assert LinesSoFar(p) + [] == LinesSoFar(p);
  }

  lemma FirstAttempt(attempts: seq<Attempt>)
    requires attempts != []
    ensures Resolves(attempts) <==> attempts[0].resolves || Resolves(attempts[1..])
    ensures AllAccepted(attempts) <==> (attempts[0].retained > 0 ==> attempts[0].accepted) && AllAccepted(attempts[1..])
  {
    assert forall a :: a in attempts <==> a == attempts[0] || a in attempts[1..];
  }

  // ------------------------------------------------------------------------- the end

  /** How a session stands once its process has closed it. */
  predicate ClosedAs(d: Disk, close: Close, output: Option<Output>, declared: Option<Output>, unmade: bool, connections: nat, parts: nat)
  {
    && d.manifest.Some?
    && var m := d.manifest.value;
    && m.connections == connections && m.parts == parts
    && match close
       case Stops(interrupted, finalizer) =>
         var asked := if interrupted then Interrupted else Completed;
         if output.None? then m.status == asked && m.finalization == NotRequested && m.output == declared
         else if parts == 0 then m.status == asked && m.finalization == NotStarted && m.output == declared
         else if finalizer == Succeeds && unmade then
           m.status == asked && m.finalization == Finalized && m.output == output && output.value in d.outputs
         else if finalizer.StoppedMidway? then m.status == Interrupted && m.finalization == FinalInterrupted && m.output == declared
         else if finalizer.DiesMidway? then m.status == Recording && m.finalization == Running
         else m.status == Failed && m.finalization == FinalFailed && m.output == declared
       case Fails =>
         m.status == Failed && m.finalization == (if output.None? then NotRequested else NotStarted) && m.output == declared
       case DiesAfterCounts(_) =>
         m.status == Recording && m.finalization == (if output.None? then NotRequested else Pending) && m.output == declared
       case _ => true
  }

  /** The capture itself, whatever became of the output. */
  predicate SameMedia(d: Disk, e: Disk) {
    && e.directory == d.directory && e.log == d.log && e.whole == d.whole && e.parts == d.parts && e.accepted == d.accepted
    && e.writerPartial == d.writerPartial && e.evidence == d.evidence
  }

  lemma FinishCloses(q: Process, close: Close)
    requires HoldsManifest(q) && q.started && !close.Dies? && !close.DiesBeforeCounts?
    ensures var d := Finish(q, close);
            && ClosedAs(d, close, q.output, Declared(q), q.output.Some? ==> Unmade(q.disk, q.output.value), q.connection, q.nextPart - 1)
            && SameMedia(q.disk, d) && (!close.DiesAfterCounts? ==> !d.manifestPartial)
            && (close.Stops? && (q.output.None? || q.nextPart == 1) ==> d.outputs == q.disk.outputs && d.encodings == q.disk.encodings)
  {
    hide Finalizing;
    var m := q.held.value.(connections := q.connection, parts := q.nextPart - 1);
    if close.Stops? && q.output.Some? && q.nextPart > 1 {
      var status := if close.interrupted then Interrupted else Completed;
      EncoderCloses(Wrote(q.disk, m), m, q.output.value, close.finalizer, status);
    }
  }

  lemma EncoderCloses(d: Disk, m: Manifest, output: Output, finalizer: Finalizer, asked: Status)
    requires m.status == Recording
    ensures var e := Finalizing(d, m, output, finalizer, asked, Failed, Interrupted);
            && SameMedia(d, e) && !e.manifestPartial && e.manifest.Some?
            && var r := e.manifest.value;
               && r.connections == m.connections && r.parts == m.parts
               && (if finalizer == Succeeds && Unmade(d, output) then
                     r.status == asked && r.finalization == Finalized && r.output == Some(output) && output in e.outputs
                   else if finalizer.StoppedMidway? then r.status == Interrupted && r.finalization == FinalInterrupted && r.output == m.output
                   else if finalizer.DiesMidway? then r.status == Recording && r.finalization == Running
                   else r.status == Failed && r.finalization == FinalFailed && r.output == m.output)
  {
    var ends := Encoder(d, output, finalizer);
    var running := Wrote(d, m.(finalization := Running));
    EncoderLeaves(running, output, Residual(ends));
    EncoderSays(m, output, ends, asked);
    hide Left, Outcome;
  }

  lemma EncoderLeaves(d: Disk, output: Output, residue: Residue)
    ensures var e := Left(d, output, residue);
            SameMedia(d, e) && e.manifest == d.manifest && e.manifestPartial == d.manifestPartial
            && (residue == AnOutput ==> output in e.outputs)
  {
  }

  lemma EncoderSays(m: Manifest, output: Output, ends: Finalizer, asked: Status)
    ensures var last := Outcome(m, output, ends, asked, Failed, Interrupted);
            if ends == Succeeds then last == Some(m.(output := Some(output), status := asked, finalization := Finalized))
            else if ends.StoppedMidway? then last == Some(m.(status := Interrupted, finalization := FinalInterrupted))
            else if ends.DiesMidway? then last.None?
            else last == Some(m.(status := Failed, finalization := FinalFailed))
  {
  }

  /** A whole undisturbed process that came to record: its parts and lines are all there, and the session is closed
      as its end says. */
  lemma CalmProcess(p: Process, attempts: seq<Attempt>, close: Close)
    requires HoldsManifest(p) && Unblocked(p) && Calm(attempts) && (p.started || Resolves(attempts))
    requires !close.Dies? && !close.DiesBeforeCounts?
    ensures var d := RunProcess(p, attempts, close);
            && d.directory && d.parts == p.disk.parts + PartsOf(attempts) && d.accepted == (p.disk.accepted && AllAccepted(attempts))
            && d.log == LinesSoFar(p) + LinesOf(attempts, p.connection + 1, p.nextPart, p.started)
            && d.whole == p.disk.whole && d.writerPartial == p.disk.writerPartial && d.evidence == p.disk.evidence
            && (!close.DiesAfterCounts? ==> !d.manifestPartial)
            && (close.Stops? && (p.output.None? || p.nextPart - 1 + PartsOf(attempts) == 0) ==>
                  d.outputs == p.disk.outputs && d.encodings == p.disk.encodings)
            && ClosedAs(d, close, p.output, Declared(p), p.output.Some? ==> Unmade(p.disk, p.output.value),
                        p.connection + |attempts|, p.nextPart - 1 + PartsOf(attempts))
  {
    hide TakeTurns, Finish, ClosedAs, Unblocked, LinesOf, HoldsManifest, Advanced, Declared, LinesSoFar, Calm, Resolves, AllAccepted, PartsOf, SameMedia;
    CalmTurns(p, attempts);
    var q := TakeTurns(p, attempts).0;
    FinishCloses(q, close);
    AdvancedMeans(p, q, |attempts|, PartsOf(attempts), LinesOf(attempts, p.connection + 1, p.nextPart, p.started));
    StartedMeans(q);
    SameMediaMeans(q.disk, Finish(q, close));
  }

  lemma AdvancedMeans(p: Process, q: Process, turns: nat, parts: nat, lines: seq<Line>)
    requires Advanced(p, q, turns, parts, lines)
    ensures q.connection == p.connection + turns && q.nextPart == p.nextPart + parts && q.disk.parts == p.disk.parts + parts
    ensures LinesSoFar(q) == LinesSoFar(p) + lines && q.output == p.output && Declared(q) == Declared(p)
    ensures q.disk.outputs == p.disk.outputs && q.disk.encodings == p.disk.encodings && q.disk.whole == p.disk.whole
    ensures q.disk.writerPartial == p.disk.writerPartial && q.disk.evidence == p.disk.evidence
  {
  }

  lemma StartedMeans(q: Process)
    requires HoldsManifest(q) && q.started
    ensures LinesSoFar(q) == q.disk.log && q.disk.directory
  {
  }

  lemma SameMediaMeans(d: Disk, e: Disk)
    requires SameMedia(d, e)
    ensures e.directory == d.directory && e.log == d.log && e.whole == d.whole && e.parts == d.parts && e.accepted == d.accepted
    ensures e.writerPartial == d.writerPartial && e.evidence == d.evidence
  {
  }

  // ------------------------------------------------------------------- over any run

  lemma NothingYet(events: seq<Event>)
    requires !After(events).directory
    ensures After(events) == NoSession.(outputs := After(events).outputs, encodings := After(events).encodings)
  {
    hide After, Behind;
    AfterRests(events);
  }

  lemma AfterOneMore(events: seq<Event>, e: Event)
    ensures After(events + [e]) == Happens(After(events), e)
    ensures Behind(events + [e]) <==> BehindAfter(After(events), e, Behind(events))
  {
    hide Happens, BehindAfter;
    assert (events + [e])[..|events|] == events;
  }

  predicate Ends(close: Close) { !close.Dies? && !close.DiesBeforeCounts? }

  /** A new capture that nothing disturbs: one line per attempt from number one, every part, and the session closed
      as it ended. One that ends by itself is completed, one that is stopped interrupted, one that fails failed. */
  lemma FreshCaptureEnds(events: seq<Event>, output: Option<Output>, attempts: seq<Attempt>, close: Close)
    requires !After(events).directory && Calm(attempts) && Resolves(attempts) && Ends(close)
    requires output.Some? ==> output.value !in After(events).outputs
    ensures var before, d := After(events), After(events + [Fresh(output, attempts, close)]);
            && d.directory && d.parts == PartsOf(attempts) && d.accepted == AllAccepted(attempts) && d.whole
            && d.log == LinesOf(attempts, 1, 1, false) && !d.writerPartial && d.evidence.None?
            && (close.Stops? ==> !d.manifestPartial)
            && (close.Stops? && (output.None? || d.parts == 0) ==> d.outputs == before.outputs && d.encodings == before.encodings)
            && ClosedAs(d, close, output, output, output.Some? ==> Unmade(before, output.value), |attempts|, PartsOf(attempts))
  {
    hide After, RunProcess, ClosedAs, Calm, Resolves, AllAccepted, PartsOf, LinesOf;
    NothingYet(events);
    AfterOneMore(events, Fresh(output, attempts, close));
    var d := After(events);
    CalmProcess(FreshProcess(d, output), attempts, close);
    assert [] + [] + LinesOf(attempts, 1, 1, false) == LinesOf(attempts, 1, 1, false);
  }

  /** What an undisturbed process adds to the directory it was started on, and how it closes the session. */
  predicate AddsTo(before: Disk, d: Disk, log: seq<Line>, attempts: seq<Attempt>, close: Close, output: Option<Output>,
                   declared: Option<Output>, connections: nat)
  {
    && d.directory && d.parts == before.parts + PartsOf(attempts) && d.accepted == AllAccepted(attempts) && d.whole
    && d.log == log && !d.writerPartial && (close.Stops? ==> !d.manifestPartial)
    && (close.Stops? && output.None? ==> d.outputs == before.outputs && d.encodings == before.encodings)
    && ClosedAs(d, close, output, declared, true, connections, d.parts)
  }

  /** A resumed capture goes on behind the number it reserved and the parts it found. */
  lemma ResumedCaptureEnds(events: seq<Event>, requested: Option<Output>, usable: bool, attempts: seq<Attempt>, close: Close)
    requires PreparedNext(After(events), requested, usable).Some? && Calm(attempts) && Ends(close)
    ensures var before, d := After(events), After(events + [Resumed(requested, usable, Reopens, attempts, close)]);
            var next := PreparedNext(before, requested, usable).value;
            && before.manifest.Some?
            && AddsTo(before, d, before.log + [ConnectionLog.Resume(next, before.parts + 1)] + LinesOf(attempts, next, before.parts + 1, true),
                      attempts, close, requested, if requested.Some? then requested else before.manifest.value.output,
                      next - 1 + |attempts|)
  {
    hide After, RunProcess, Calm, LinesOf, PreparedNext, BeginResume, AddsTo, Happens, BehindAfter, Behind, Ends;
    AfterOneMore(events, Resumed(requested, usable, Reopens, attempts, close));
    var d := After(events);
    ResumedHappens(d, requested, usable, attempts, close);
    ResumedAdds(d, requested, usable, attempts, close);
  }

  lemma ResumedAdds(d: Disk, requested: Option<Output>, usable: bool, attempts: seq<Attempt>, close: Close)
    requires PreparedNext(d, requested, usable).Some? && Calm(attempts) && Ends(close)
    ensures d.manifest.Some? && PreparedNext(d, requested, usable).value >= 1
    ensures var next := PreparedNext(d, requested, usable).value;
            AddsTo(d, RunProcess(BeginResume(d, next, requested, Reopens).0, attempts, close),
                   d.log + [ConnectionLog.Resume(next, d.parts + 1)] + LinesOf(attempts, next, d.parts + 1, true),
                   attempts, close, requested, if requested.Some? then requested else d.manifest.value.output, next - 1 + |attempts|)
  {
    hide RunProcess, ClosedAs, Calm, AllAccepted, PartsOf, LinesOf, PreparedNext, BeginResume, HoldsManifest, Unblocked, Declared,
         LinesSoFar, Discovered;
    PreparedReopens(d, requested, usable);
    var next := PreparedNext(d, requested, usable).value;
    CalmProcess(BeginResume(d, next, requested, Reopens).0, attempts, close);
  }

  /** The process that a resume starts. */
  lemma PreparedReopens(d: Disk, requested: Option<Output>, usable: bool)
    requires PreparedNext(d, requested, usable).Some?
    ensures d.manifest.Some? && PreparedNext(d, requested, usable).value >= 1
    ensures var next := PreparedNext(d, requested, usable).value;
            var (p, going) := BeginResume(d, next, requested, Reopens);
            && going == Goes && HoldsManifest(p) && Unblocked(p) && p.started && p.connection == next - 1 && p.nextPart == d.parts + 1
            && Declared(p) == (if requested.Some? then requested else d.manifest.value.output)
            && LinesSoFar(p) == d.log + [ConnectionLog.Resume(next, d.parts + 1)] && p.output == requested
            && p.disk.parts == d.parts && p.disk.accepted && p.disk.whole && !p.disk.writerPartial && p.disk.evidence == d.evidence
            && p.disk.outputs == d.outputs && p.disk.encodings == d.encodings
            && (requested.Some? ==> Unmade(p.disk, requested.value))
  {
    hide ReadAll;
  }

  lemma ResumedHappens(d: Disk, requested: Option<Output>, usable: bool, attempts: seq<Attempt>, close: Close)
    requires PreparedNext(d, requested, usable).Some?
    ensures d.manifest.Some? && PreparedNext(d, requested, usable).value >= 1
    ensures Happens(d, Resumed(requested, usable, Reopens, attempts, close)) ==
            RunProcess(BeginResume(d, PreparedNext(d, requested, usable).value, requested, Reopens).0, attempts, close)
  {
    hide ReadAll, RunProcess;
  }

  /** A session that is over: completed, or with a finalization that has begun. */
  predicate Over(d: Disk) {
    d.directory && d.manifest.Some? && (d.manifest.value.status == Completed || !Resumable(d.manifest.value.finalization))
  }

  lemma OverIsRefused(d: Disk, requested: Option<Output>, usable: bool)
    requires Over(d)
    ensures PreparedNext(d, requested, usable).None?
  {
    hide ReadAll;
  }

  lemma OverStays(d: Disk, e: Event)
    requires Over(d)
    ensures Over(Happens(d, e))
  {
    hide ReadAll, Finalizing, PreparedNext, RunProcess;
    match e
    case Resumed(requested, usable, reopening, attempts, close) => OverIsRefused(d, requested, usable);
    case Finalizes(output, torn, finalizer, service) =>
      var m := d.manifest.value.(parts := d.parts, output := Some(output));
      var kept := if m.status == Recording then Interrupted else m.status;
      FinalizingWrites(d, m, output, finalizer, Interrupted, Failed, Interrupted);
      FinalizingWrites(d, m, output, finalizer, kept, kept, kept);
    case Exhausts(output, torn) => OverIsRefused(d, Some(output), true);
    case _ =>
  }

  /** Whatever happens later, such a session is never resumed. */
  lemma {:induction false} OverForGood(events: seq<Event>, later: seq<Event>, requested: Option<Output>, usable: bool)
    requires Over(After(events))
    ensures Over(After(events + later)) && PreparedNext(After(events + later), requested, usable).None?
  {
    hide Over, Happens, PreparedNext, After;
    if later == [] {
      assert events + later == events;
    } else {
      var n := |later| - 1;
      assert events + later == (events + later[..n]) + [later[n]];
      OverForGood(events, later[..n], requested, usable);
      AfterOneMore(events + later[..n], later[n]);
      OverStays(After(events + later[..n]), later[n]);
    }
    OverIsRefused(After(events + later), requested, usable);
  }

  /** A capture that ended by itself, without an output or with one that could be made, is completed for good. */
  lemma EndedByItself(events: seq<Event>, output: Option<Output>, attempts: seq<Attempt>, later: seq<Event>,
                      requested: Option<Output>, usable: bool)
    requires !After(events).directory && Calm(attempts) && Resolves(attempts)
    requires output.Some? ==> Unmade(After(events), output.value)
    ensures var run := events + [Fresh(output, attempts, Stops(false, Succeeds))];
            && After(run).manifest.Some? && After(run).manifest.value.status == Completed
            && (output.Some? && PartsOf(attempts) > 0 ==> output.value in After(run).outputs)
            && PreparedNext(After(run + later), requested, usable).None?
  {
    hide After, Calm, Resolves, PreparedNext;
    FreshCaptureEnds(events, output, attempts, Stops(false, Succeeds));
    OverForGood(events + [Fresh(output, attempts, Stops(false, Succeeds))], later, requested, usable);
  }

  lemma {:induction false} CalmIsNotBehind(p: Process, attempts: seq<Attempt>)
    requires Calm(attempts)
    ensures !DiesBehind(p, attempts)
    decreases |attempts|
  {
    hide TakeTurn;
    if attempts != [] {
      assert attempts[0] in attempts && forall a | a in attempts[1..] :: a in attempts;
      CalmIsNotBehind(TakeTurn(p, attempts[0]).0, attempts[1..]);
    }
  }

  /** A capture that was stopped without an output is interrupted, and can be resumed under the next number. */
  lemma StoppedCanBeResumed(events: seq<Event>, attempts: seq<Attempt>, finalizer: Finalizer, requested: Option<Output>)
    requires !After(events).directory && Calm(attempts) && Resolves(attempts) && PartsOf(attempts) > 0 && AllAccepted(attempts)
    requires requested.Some? ==> Unmade(After(events), requested.value)
    ensures var d := After(events + [Fresh(None, attempts, Stops(true, finalizer))]);
            && d.manifest.Some? && d.manifest.value.status == Interrupted
            && PreparedNext(d, requested, true) == Some(|attempts| + 1)
  {
    hide After, Calm, Resolves, AllAccepted, DiesBehind, LinesOf, PartsOf, PreparedNext, Rests;
    var e := Fresh(None, attempts, Stops(true, finalizer));
    FreshCaptureEnds(events, None, attempts, Stops(true, finalizer));
    AfterOneMore(events, e);
    CalmIsNotBehind(FreshProcess(After(events), None), attempts);
    hide Behind;
    AfterRests(events + [e]);
    InStepIsPrepared(After(events + [e]), requested, AllUndisturbed(events + [e]));
  }

  /** A continuable session whose closed manifest is in step with its log takes the number behind it. */
  lemma InStepIsPrepared(d: Disk, requested: Option<Output>, lossless: bool)
    requires Rests(d, false, lossless) && Continuable(d, requested, true) && Closed(d.manifest)
    ensures PreparedNext(d, requested, true) == Some(d.manifest.value.connections + 1)
  {
    hide ReadAll;
  }

  // -------------------------------------------------------------- between processes

  /** A recovery that is recorded adds exactly the crashed part, and touches neither lines nor numbers. */
  lemma RecoveryAddsItsPart(events: seq<Event>)
    requires MayRecover(After(events))
    ensures var d, e := After(events), After(events + [Recovers(Recorded)]);
            && d.manifest.Some? && e.evidence.None? && !e.writerPartial && e.log == d.log
            && e.parts == (if d.evidence.Some? then d.evidence.value else d.parts + 1)
            && e.manifest == Some(d.manifest.value.(parts := e.parts))
            && e.outputs == d.outputs && e.encodings == d.encodings
  {
    hide After, Behind;
    AfterOneMore(events, Recovers(Recorded));
    AfterRests(events);
  }

  /** Finalizing later, with retained parts: the result is recorded, and a manual one closes only what was open. */
  lemma FinalizedLater(events: seq<Event>, output: Output, finalizer: Finalizer, service: bool)
    requires After(events).manifest.Some? && After(events).parts > 0 && (service ==> Discovered(After(events)))
    ensures var d, e := After(events), After(events + [Finalizes(output, None, finalizer, service)]);
            var m := d.manifest.value;
            && SameMedia(d, e) && e.manifest.Some?
            && var r := e.manifest.value;
               && r.connections == m.connections && r.parts == d.parts && r.output == Some(output)
               && (if finalizer == Succeeds && Unmade(d, output) then
                     output in e.outputs && r.finalization == Finalized
                     && r.status == (if service || m.status == Recording then Interrupted else m.status)
                   else if finalizer.DiesMidway? then r.finalization == Running && r.status == m.status
                   else if finalizer.StoppedMidway? then
                     r.finalization == FinalInterrupted && r.status == (if service || m.status == Recording then Interrupted else m.status)
                   else r.finalization == FinalFailed
                        && r.status == (if service then Failed else if m.status == Recording then Interrupted else m.status))
  {
    hide After;
    AfterOneMore(events, Finalizes(output, None, finalizer, service));
    var d := After(events);
    LaterCloses(d, output, finalizer, service);
  }

  lemma LaterCloses(d: Disk, output: Output, finalizer: Finalizer, service: bool)
    requires d.manifest.Some? && d.parts > 0 && (service ==> Discovered(d))
    ensures var e := FinalizeLater(d, output, None, finalizer, service);
            var m := d.manifest.value;
            && SameMedia(d, e) && e.manifest.Some?
            && var r := e.manifest.value;
               && r.connections == m.connections && r.parts == d.parts && r.output == Some(output)
               && (if finalizer == Succeeds && Unmade(d, output) then
                     output in e.outputs && r.finalization == Finalized
                     && r.status == (if service || m.status == Recording then Interrupted else m.status)
                   else if finalizer.DiesMidway? then r.finalization == Running && r.status == m.status
                   else if finalizer.StoppedMidway? then
                     r.finalization == FinalInterrupted && r.status == (if service || m.status == Recording then Interrupted else m.status)
                   else r.finalization == FinalFailed
                        && r.status == (if service then Failed else if m.status == Recording then Interrupted else m.status))
  {
    hide Left, Discovered;
    var m := d.manifest.value.(parts := d.parts, output := Some(output));
    var ends := Encoder(d, output, finalizer);
    EncoderLeaves(Wrote(d, m.(finalization := Running)), output, Residual(ends));
  }

  /** A recovery touches only the directory of a session that was recording, whose finalization has not begun and
      whose output is not there, with sound parts and one source to recover. */
  lemma RecoveryNeedsItsSession(events: seq<Event>, progress: Progress)
    ensures var d, e := After(events), After(events + [Recovers(progress)]);
            e != d ==>
              && d.manifest.Some? && d.manifest.value.status == Recording
              && (d.manifest.value.finalization == Pending || d.manifest.value.finalization == NotStarted)
              && (d.manifest.value.output.Some? ==>
                    d.manifest.value.output.value !in d.outputs && d.manifest.value.output.value !in d.encodings)
              && d.accepted && !d.manifestPartial && (d.writerPartial <==> d.evidence.None?) && d.manifest.value.parts <= d.parts
              && e.log == d.log && d.parts <= e.parts <= d.parts + 1 && e.manifest.Some?
              && (progress != Recorded ==> e.manifest == d.manifest && e.evidence.Some?)
  {
    hide After;
    AfterOneMore(events, Recovers(progress));
  }

  /** When the service gives up, exactly a session that could be resumed is closed as failed, with what it retained
      and the number its manifest had. */
  lemma GivenUp(events: seq<Event>, output: Output)
    requires After(events).evidence.None?
    ensures var d, e := After(events), After(events + [Exhausts(output, None)]);
            if PreparedNext(d, Some(output), true).Some? then
              d.manifest.Some? && SameMedia(d, e) && e.outputs == d.outputs && e.encodings == d.encodings
              && e.manifest == Some(Manifest(Failed, d.manifest.value.connections, d.parts, NotStarted, d.manifest.value.output))
            else e == d
  {
    hide After, ReadAll;
    AfterOneMore(events, Exhausts(output, None));
  }
}
