/** Over any run the strict reader accepts the log, and a resume is possible exactly when it should be. */
module ConnectionRuns {
  import opened Wrappers
  import opened ConnectionLog
  import opened ConnectionSpec

  // ------------------------------------------------------------------- invariants

  /** The attempts before the session existed: one line each, without parts. */
  function EarlierLines(n: nat): (lines: seq<Line>)
    ensures |lines| == n && forall i | 0 <= i < n :: lines[i] == Connection(i + 1, None, [])
  {
    seq(n, i requires 0 <= i < n => Connection(i + 1, None, []))
  }

  predicate ClaimsBelow(s: Scan, next: int) { forall p | p in s.claimed :: 1 <= p < next }

  /** Every part below `next` is claimed by some line. */
  predicate AllClaimed(s: Scan, next: int) { forall p | 1 <= p < next :: p in s.claimed }

  /** Between processes: the log is readable, and a manifest that a resume would take agrees with the parts, and
      with the log unless it is `behind`. */
  ghost predicate Rests(d: Disk, behind: bool, lossless: bool) {
    && Readable(d.log, d.parts)
    && var s := ReadAll(d.log, d.parts).value;
       && (lossless ==> AllClaimed(s, d.parts + 1))
       && (!d.directory ==> d == NoSession.(outputs := d.outputs, encodings := d.encodings))
       && (d.manifest.Some? && Resumable(d.manifest.value.finalization) ==> Agrees(d, d.manifest.value, Count(s), behind))
  }

  predicate Agrees(d: Disk, m: Manifest, count: nat, behind: bool) {
    && m.parts <= d.parts && (m.status != Recording ==> m.parts == d.parts)
    && (behind <==> count > m.connections)
  }

  /** Inside a process: the log holds numbers up to `logged` and reservations up to `reserved`; the turn under way
      has `made` parts so far. */
  ghost predicate Runs(p: Process, logged: nat, reserved: nat, made: nat, lossless: bool) {
    if p.started then
      && p.disk.directory && Readable(p.disk.log, p.disk.parts)
      && var s := ReadAll(p.disk.log, p.disk.parts).value;
         && s.logged <= logged && s.reserved <= reserved && ClaimsBelow(s, p.nextPart)
         && (lossless ==> AllClaimed(s, p.nextPart))
         && p.disk.parts == p.nextPart - 1 + made
         && Held(p, Count(s))
    else
      && p.disk == NoSession.(outputs := p.disk.outputs, encodings := p.disk.encodings)
      && p.nextPart == 1 && made == 0 && p.held.None? && p.earlier == EarlierLines(logged)
  }

  /** The manifest held is a recording one that a resume could take, not behind the log, and on disk if written. */
  predicate Held(p: Process, count: nat) {
    && p.held.Some? && p.held.value.status == Recording && p.held.value.parts <= p.disk.parts
    && p.held.value.finalization in {NotRequested, Pending} && count <= p.held.value.connections
    && (p.disk.manifest.Some? ==> p.disk.manifest == p.held)
  }

  lemma {:induction false} EarlierRead(n: nat, i: nat, parts: nat)
    requires i <= n
    ensures ReadAll(EarlierLines(n)[..i], parts) == Some(Scan(i, 0, {}))
  {
    if i > 0 {
      EarlierRead(n, i - 1, parts);
      var lines := EarlierLines(n);
      assert lines[..i] == lines[..i - 1] + [lines[i - 1]];
      ReadSnoc(lines[..i - 1], lines[i - 1], parts);
    }
  }

  lemma LinesRead(n: nat, i: nat)
    ensures ReadAll(Taken(EarlierLines(n), i), 0) == Some(Scan(if i <= n then i else n, 0, {}))
  {
    EarlierRead(n, if i <= n then i else n, 0);
    assert EarlierLines(n)[..n] == EarlierLines(n);
  }

  /** The line of a closed attempt is readable right behind everything its session logged before. */
  lemma ClosingLineReads(log: seq<Line>, parts: nat, number: nat, next: nat, retained: nat, timed: nat)
    requires Readable(log, parts) && 1 <= number && 1 <= next && next - 1 + retained <= parts && timed <= retained
    requires var s := ReadAll(log, parts).value; s.logged < number && s.reserved <= number && ClaimsBelow(s, next)
    ensures var s := ReadAll(log, parts).value;
            && Readable(log + [AttemptLine(number, next, retained, timed)], parts)
            && var t := ReadAll(log + [AttemptLine(number, next, retained, timed)], parts).value;
               && t.logged == number && t.reserved == s.reserved && ClaimsBelow(t, next + retained)
               && (AllClaimed(s, next) ==> AllClaimed(t, next + retained))
  {
    hide ReadAll;
    var line := AttemptLine(number, next, retained, timed);
    ReadSnoc(log, line, parts);
    var s := ReadAll(log, parts).value;
    if retained > 0 {
      assert s.claimed * Span(line.parts.value) == {};
    }
  }

  // -------------------------------------------------------------------- one turn

  /** A process that dies between turns leaves its directory at rest, whatever else it tears. */
  lemma RunsRests(p: Process, logged: nat, reserved: nat, lossless: bool, torn: bool)
    requires Runs(p, logged, reserved, 0, lossless)
    ensures Rests(p.disk, false, lossless)
    ensures Rests(p.disk, false, false)
    ensures p.started ==> Rests(Torn(p.disk, torn), false, lossless)
  {
    hide ReadAll;
    ReadNothing();
  }

  lemma MadeRests(p: Process, logged: nat, reserved: nat, made: nat, lossless: bool, whole: bool)
    requires p.started && Runs(p, logged, reserved, made, lossless)
    ensures Rests(p.disk.(whole := whole), false, false)
  {
    hide ReadAll;
  }

  lemma CreateKeeps(p: Process, a: Attempt, logged: nat, lossless: bool)
    requires !p.started && p.connection == logged + 1 && Runs(p, logged, logged + 1, 0, lossless)
    ensures var (q, going) := CreateSession(p, a);
            && q.connection == p.connection && q.earlier == p.earlier
            && (going != Dead ==> q.started && q.held.Some? && q.held.value.connections == p.connection
                                  && Runs(q, logged, logged + 1, 0, lossless))
            && (going == Dead ==> Rests(q.disk, false, lossless) && Rests(q.disk, false, false))
  {
    hide ReadAll;
    var start := p.earlier;
    assert Taken(start, logged) == start;
    LinesRead(logged, 0);
    LinesRead(logged, logged);
    assert p.disk.log + start == start && p.disk.log + [] == [];
    if a.death.InEarlierLines? {
      LinesRead(logged, a.death.written);
      assert p.disk.log + Taken(start, a.death.written) == Taken(start, a.death.written);
    } else if a.creation.LineRaises? {
      LinesRead(logged, a.creation.written);
      assert p.disk.log + Taken(start, a.creation.written) == Taken(start, a.creation.written);
    }
  }

  lemma MediaKeeps(p: Process, a: Attempt, logged: nat, lossless: bool)
    requires p.started && Runs(p, logged, logged + 1, 0, lossless)
    ensures var (q, going) := WriteMedia(p, a);
            && q.connection == p.connection && q.started && q.held == p.held
            && (going == Goes ==> Runs(q, logged, logged + 1, a.retained, lossless))
            && (going == Dead ==> Rests(q.disk, false, false))
            && going != Raises && (going == Dead ==> a.death.InWriting?)
  {
    hide ReadAll;
    var made := if a.death.InWriting? then a.death.promoted else a.retained;
    MorePartsReadTheSame(p.disk.log, p.disk.parts, p.disk.parts + made);
  }

  /** Closing a started session's attempt. */
  lemma CloseKeeps(p: Process, logged: nat, retained: nat, timed: nat, recorded: bool, death: Death, lossless: bool)
    requires p.started && p.connection == logged + 1 && Runs(p, logged, logged + 1, retained, lossless)
    requires timed <= retained && (retained > 0 ==> recorded)
    ensures var (q, going) := CloseAttempt(p, retained, timed, recorded, death);
            && going != Raises && q.connection == p.connection && (going == Dead ==> death != Survives)
            && (going == Goes ==> !death.BeforeManifest? && Runs(q, logged + 1, logged + 1, 0, lossless))
            && (going == Dead ==> Rests(q.disk, death.BeforeManifest? && recorded && p.held.value.connections <= logged, false))
  {
    hide ReadAll;
    if death.BeforeLine? {
      MadeRests(p, logged, logged + 1, retained, lossless, p.disk.whole && !(death.torn && recorded));
    } else if recorded {
      ClosingLineReads(p.disk.log, p.disk.parts, p.connection, p.nextPart, retained, timed);
    }
  }

  /** An attempt closed before there is a session changes only memory. */
  lemma CloseBefore(p: Process, logged: nat, recorded: bool, death: Death, lossless: bool)
    requires !p.started && p.connection == logged + 1 && Runs(p, logged, logged + 1, 0, lossless)
    ensures var (q, going) := CloseAttempt(p, 0, 0, recorded, death);
            && going != Raises && q.connection == p.connection
            && (going == Goes ==> Runs(q, logged + 1, logged + 1, 0, lossless))
            && (going == Dead ==> Rests(q.disk, false, lossless) && Rests(q.disk, false, false))
  {
    hide ReadAll;
    var line := AttemptLine(p.connection, p.nextPart, 0, 0);
    assert line == Connection(p.connection, None, []);
    assert p.earlier + [line] == EarlierLines(logged + 1);
    ReadNothing();
  }

  lemma ReadNothing()
    ensures ReadAll([], 0) == Some(Unread)
  {
  }

  lemma NextNumber(p: Process, reserved: nat, lossless: bool)
    requires reserved <= p.connection + 1 && Runs(p, p.connection, reserved, 0, lossless)
    ensures Runs(p.(connection := p.connection + 1), p.connection, p.connection + 1, 0, lossless)
    ensures p.started ==> p.held.Some?
  {
    hide ReadAll;
  }

  /** One turn goes on with its number spent, raises with it spent, or dies with the directory at rest. */
  lemma TurnKeeps(p: Process, a: Attempt, reserved: nat, lossless: bool)
    requires reserved <= p.connection + 1 && Runs(p, p.connection, reserved, 0, lossless)
    ensures var (q, going) := TakeTurn(p, a);
            && (going == Dead ==> Rests(q.disk, TurnBehind(p, a), lossless && a.death == Survives))
            && (going != Dead ==> q.connection == p.connection + 1 && Runs(q, q.connection, q.connection, 0, lossless))
            && (going != Dead ==> !TurnBehind(p, a))
  {
    hide Runs, Rests, CreateSession, WriteMedia, CloseAttempt;
    var n, p1 := p.connection, p.(connection := p.connection + 1);
    NextNumber(p, reserved, lossless);
    if a.death == BeforeWriting {
      RunsRests(p1, n, n + 1, lossless, false);
    } else if !a.resolves {
      if p.started { CloseKeeps(p1, n, 0, 0, a.recorded, a.death, lossless); } else { CloseBefore(p1, n, a.recorded, a.death, lossless); }
    } else {
      if !p.started { CreateKeeps(p1, a, n, lossless); }
      var (p2, created) := if p.started then (p1, Goes) else CreateSession(p1, a);
      if created == Raises {
        CloseKeeps(p2, n, 0, 0, true, a.death, lossless);
      } else if created == Goes && a.death.InIdentity? {
        RunsRests(p2, n, n + 1, lossless, a.death.torn);
        RestsMore(Torn(p2.disk, a.death.torn), false, lossless, false);
      } else if created == Goes {
        ResolvedKeeps(p2, a, n, lossless);
        assert p.started ==> p2.held == p.held;
        assert TurnBehind(p, a) <==> a.death.BeforeManifest? && a.recorded && p2.held.value.connections <= n;
      }
    }
  }

  /** The rest of a turn that has its source and its session. */
  lemma ResolvedKeeps(p: Process, a: Attempt, logged: nat, lossless: bool)
    requires p.started && p.connection == logged + 1 && Runs(p, logged, logged + 1, 0, lossless) && a.resolves && p.held.Some?
    ensures var (q, wrote) := WriteMedia(p, a);
            var (r, closed) := if wrote == Dead then (q, Dead) else CloseAttempt(q, a.retained, a.timed, a.recorded, a.death);
            && closed != Raises && (closed == Dead ==> a.death != Survives)
            && (closed == Dead ==> Rests(r.disk, a.death.BeforeManifest? && a.recorded && p.held.value.connections <= logged, false))
            && (closed == Goes ==> r.connection == p.connection && !a.death.BeforeManifest?)
            && (closed == Goes ==> Runs(r, r.connection, r.connection, 0, lossless))
  {
    hide Runs, Rests, WriteMedia;
    MediaKeeps(p, a, logged, lossless);
    var (q, wrote) := WriteMedia(p, a);
    if wrote == Goes {
      CloseKeeps(q, logged, a.retained, a.timed, a.recorded, a.death, lossless);
    }
  }

  lemma {:induction false} TurnsKeep(p: Process, attempts: seq<Attempt>, reserved: nat, lossless: bool)
    requires reserved <= p.connection + 1 && Runs(p, p.connection, reserved, 0, lossless)
    ensures var (q, going) := TakeTurns(p, attempts);
            && (going == Dead ==> Rests(q.disk, DiesBehind(p, attempts), lossless && Survive(attempts)))
            && (going != Dead ==> Runs(q, q.connection, if attempts == [] then reserved else q.connection, 0, lossless))
            && (going != Dead ==> !DiesBehind(p, attempts))
            && (going != Goes ==> attempts != [])
    decreases |attempts|
  {
    hide Runs, Rests, TakeTurn, TurnBehind;
    if attempts != [] {
      var (q, going) := TakeTurn(p, attempts[0]);
      TurnKeeps(p, attempts[0], reserved, lossless);
      assert Survive(attempts) <==> attempts[0].death == Survives && Survive(attempts[1..]) by { SurviveFirst(attempts); }
      if going == Goes {
        TurnsKeep(q, attempts[1..], q.connection, lossless);
        RestsMore(TakeTurns(q, attempts[1..]).0.disk, DiesBehind(q, attempts[1..]), lossless && Survive(attempts[1..]),
                  lossless && Survive(attempts));
      } else {
        RestsMore(q.disk, TurnBehind(p, attempts[0]), lossless && attempts[0].death == Survives, lossless && Survive(attempts));
      }
    }
  }

  lemma SurviveFirst(attempts: seq<Attempt>)
    requires attempts != []
    ensures Survive(attempts) <==> attempts[0].death == Survives && Survive(attempts[1..])
  {
    assert forall a :: a in attempts <==> a == attempts[0] || a in attempts[1..];
  }

  predicate Survive(attempts: seq<Attempt>) { forall a | a in attempts :: a.death == Survives }

  lemma RestsMore(d: Disk, behind: bool, lossless: bool, weaker: bool)
    requires weaker ==> lossless
    ensures Rests(d, behind, lossless) ==> Rests(d, behind, weaker)
  {
  }

  // ---------------------------------------------------------------------- the end

  /** Only the manifest and what lies beside the session change, and the manifest carries the process's counts. */
  lemma FinishWrites(p: Process, close: Close)
    requires p.held.Some? && !close.Dies? && !close.DiesBeforeCounts?
    ensures SameCapture(p.disk, Finish(p, close)) && Finish(p, close).manifest.Some?
    ensures var m := Finish(p, close).manifest.value; m.connections == p.connection && m.parts == p.nextPart - 1
  {
    hide Finalizing;
    var m := p.held.value.(connections := p.connection, parts := p.nextPart - 1);
    if close.Stops? && p.output.Some? {
      var status := if close.interrupted then Interrupted else Completed;
      FinalizingWrites(Wrote(p.disk, m), m, p.output.value, close.finalizer, status, Failed, Interrupted);
    }
  }

  predicate SameCapture(d: Disk, e: Disk) { e.directory == d.directory && e.log == d.log && e.parts == d.parts }

  lemma FinalizingWrites(d: Disk, m: Manifest, output: Output, finalizer: Finalizer, closed: Status, broken: Status, stopped: Status)
    ensures var e := Finalizing(d, m, output, finalizer, closed, broken, stopped);
            && SameCapture(d, e) && e.manifest.Some? && !Resumable(e.manifest.value.finalization)
            && e.manifest.value.connections == m.connections && e.manifest.value.parts == m.parts
  {
    var ends := Encoder(d, output, finalizer);
    var r := Wrote(d, m.(finalization := Running));
    LeftKeeps(r, output, Residual(ends));
    OutcomeKeeps(m, output, ends, closed, broken, stopped);
    hide Left, Outcome, Encoder, Residual;
  }

  lemma LeftKeeps(d: Disk, output: Output, residue: Residue)
    ensures SameCapture(d, Left(d, output, residue)) && Left(d, output, residue).manifest == d.manifest
  {
  }

  lemma OutcomeKeeps(m: Manifest, output: Output, ends: Finalizer, closed: Status, broken: Status, stopped: Status)
    ensures var last := Outcome(m, output, ends, closed, broken, stopped);
            last.Some? ==> !Resumable(last.value.finalization) && last.value.connections == m.connections && last.value.parts == m.parts
  {
  }

  /** A process ends with its directory at rest, and behind exactly when it held a reservation it never used. */
  lemma FinishRests(p: Process, close: Close, reserved: nat, lossless: bool)
    requires Runs(p, p.connection, reserved, 0, lossless) && p.connection <= reserved
    requires p.started && reserved > p.connection ==> ReadAll(p.disk.log, p.disk.parts).value.reserved == reserved
    ensures Rests(Finish(p, close), p.started && reserved > p.connection && !close.Dies? && !close.DiesBeforeCounts?, lossless)
  {
    if !p.started || close.Dies? || close.DiesBeforeCounts? {
      RunsRests(p, p.connection, reserved, lossless, if close.DiesBeforeCounts? then close.torn else false);
    } else {
      FinishWrites(p, close);
      hide Finish, ReadAll;
    }
  }

  /** A whole process, from a turn boundary to wherever it ends. */
  lemma ProcessRests(p: Process, attempts: seq<Attempt>, close: Close, reserved: nat, lossless: bool)
    requires reserved <= p.connection + 1 && Runs(p, p.connection, reserved, 0, lossless)
    requires reserved <= p.connection || (p.started && ReadAll(p.disk.log, p.disk.parts).value.reserved == reserved)
    ensures Rests(RunProcess(p, attempts, close),
                  if reserved > p.connection && attempts == [] then !close.Dies? && !close.DiesBeforeCounts?
                  else DiesBehind(p, attempts),
                  lossless && Survive(attempts))
  {
    hide Runs, Rests, TakeTurn, TurnBehind, Finish, ReadAll;
    TurnsKeep(p, attempts, reserved, lossless);
    var (q, going) := TakeTurns(p, attempts);
    if going != Dead {
      var end := if going == Raises && !DiesIn(close) then Fails else close;
      if attempts != [] {
        FinishRests(q, end, q.connection, lossless);
      } else {
        RunsTo(p, reserved, lossless);
        FinishRests(p, end, if reserved > p.connection then reserved else p.connection, lossless);
      }
      RestsMore(Finish(q, end), attempts == [] && reserved > p.connection && !close.Dies? && !close.DiesBeforeCounts?, lossless, lossless && Survive(attempts));
    }
  }

  lemma RunsTo(p: Process, reserved: nat, lossless: bool)
    requires Runs(p, p.connection, reserved, 0, lossless)
    ensures Runs(p, p.connection, if reserved > p.connection then reserved else p.connection, 0, lossless)
  {
  }

  // ---------------------------------------------------------------------- resume

  /** Reopening reserves the next number behind everything logged, or dies with the directory at rest. */
  lemma ResumeKeeps(d: Disk, requested: Option<Output>, usable: bool, reopening: Reopening, behind: bool, lossless: bool)
    requires Rests(d, behind, lossless) && PreparedNext(d, requested, usable).Some?
    ensures var next := PreparedNext(d, requested, usable).value;
            var (p, going) := BeginResume(d, next, requested, reopening);
            && p.started && p.connection == next - 1
            && (going == Dead ==> Rests(p.disk, reopening.DiesReopening? && behind, lossless))
            && (going != Dead ==> Runs(p, next - 1, next, 0, lossless) && ReadAll(p.disk.log, p.disk.parts).value.reserved == next)
            && (going == Dead <==> !reopening.Reopens?)
  {
    hide ReadAll;
    var next := PreparedNext(d, requested, usable).value;
    ReadSnoc(d.log, ConnectionLog.Resume(next, d.parts + 1), d.parts);
    ClaimsInside(d.log, d.parts);
    assert d.log + [] == d.log;
  }

  lemma ClaimsInside(log: seq<Line>, parts: nat)
    requires Readable(log, parts)
    ensures ClaimsBelow(ReadAll(log, parts).value, parts + 1)
  {
    if log != [] { NumbersAreBelow(log, parts, 0); }
  }

  // ------------------------------------------------------------ between processes

  lemma RecoverRests(d: Disk, progress: Progress, behind: bool, lossless: bool)
    requires Rests(d, behind, lossless)
    ensures Rests(Recover(d, progress), behind, false)
  {
    hide ReadAll;
    if MayRecover(d) && d.evidence.Some? {
      MorePartsReadTheSame(d.log, d.parts, d.evidence.value);
    } else {
      MorePartsReadTheSame(d.log, d.parts, d.parts + 1);
    }
  }

  lemma FinalizeRests(d: Disk, output: Output, torn: Option<bool>, finalizer: Finalizer, service: bool, behind: bool, lossless: bool)
    requires Rests(d, behind, lossless)
    ensures Rests(FinalizeLater(d, output, torn, finalizer, service), behind, lossless)
  {
    hide Finalizing, Rests;
    if d.manifest.Some? {
      var m := d.manifest.value.(parts := d.parts, output := Some(output));
      var kept := if m.status == Recording then Interrupted else m.status;
      FinalizingWrites(d, m, output, finalizer, Interrupted, Failed, Interrupted);
      FinalizingWrites(d, m, output, finalizer, kept, kept, kept);
      FinalizedRests(d, Finalizing(d, m, output, finalizer, Interrupted, Failed, Interrupted), behind, lossless);
      FinalizedRests(d, Finalizing(d, m, output, finalizer, kept, kept, kept), behind, lossless);
      if torn.Some? { TornRests(d, torn.value, behind, lossless); }
    }
  }

  lemma FinalizedRests(d: Disk, e: Disk, behind: bool, lossless: bool)
    requires Rests(d, behind, lossless) && d.manifest.Some? && SameCapture(d, e)
    requires e.manifest.Some? && !Resumable(e.manifest.value.finalization)
    ensures Rests(e, behind, lossless)
  {
    hide ReadAll;
  }

  lemma TornRests(d: Disk, torn: bool, behind: bool, lossless: bool)
    requires Rests(d, behind, lossless) && d.manifest.Some?
    ensures Rests(Torn(d, torn), behind, lossless)
  {
    hide ReadAll;
  }

  lemma ExhaustRests(d: Disk, output: Output, torn: Option<bool>, behind: bool, lossless: bool)
    requires Rests(d, behind, lossless)
    ensures Rests(Exhaust(d, output, torn), behind, lossless)
  {
    hide ReadAll;
  }

  lemma NoteRests(d: Disk, whole: bool, behind: bool, lossless: bool)
    requires Rests(d, behind, lossless)
    ensures Rests(Happens(d, Notes(whole)), behind, lossless)
  {
    hide ReadAll;
    ReadSnoc(d.log, Evidence, d.parts);
    assert d.log + [] == d.log;
  }

  lemma BesideRests(d: Disk, outputs: set<Output>, encodings: set<Output>, behind: bool, lossless: bool)
    requires Rests(d, behind, lossless)
    ensures Rests(d.(outputs := outputs, encodings := encodings), behind, lossless)
  {
    hide ReadAll;
  }

  lemma FreshRuns(d: Disk, output: Option<Output>, behind: bool, lossless: bool)
    requires Rests(d, behind, lossless) && !d.directory
    ensures Runs(FreshProcess(d, output), 0, 0, 0, true)
  {
    hide ReadAll;
    assert EarlierLines(0) == [];
  }

  // ------------------------------------------------------------------ over any run

  predicate AllUndisturbed(events: seq<Event>) { forall e | e in events :: Undisturbed(e) }

  /** Any processes, crashes, recoveries, finalizations and resumes leave the directory at rest. */
  lemma {:induction false} AfterRests(events: seq<Event>)
    ensures Rests(After(events), Behind(events), AllUndisturbed(events))
  {
    hide Rests, RunProcess, Recover, FinalizeLater, Exhaust, PreparedNext, BeginResume, DiesBehind;
    if events == [] {
      NothingRests();
    } else {
      var before, e := events[..|events| - 1], events[|events| - 1];
      AfterRests(before);
      EventRests(After(before), e, Behind(before), AllUndisturbed(before));
      var lossless := Undisturbed(e) && AllUndisturbed(before);
      assert AllUndisturbed(events) ==> lossless by {
        assert events == before + [e];
        assert forall f | f in before :: f in events;
      }
      RestsMore(After(events), Behind(events), lossless, AllUndisturbed(events));
    }
  }

  lemma NothingRests()
    ensures Rests(NoSession, false, true)
  {
    ReadNothing();
  }

  lemma EventRests(d: Disk, e: Event, behind: bool, lossless: bool)
    requires Rests(d, behind, lossless)
    ensures Rests(Happens(d, e), BehindAfter(d, e, behind), Undisturbed(e) && lossless)
  {
    hide Rests, Runs, RunProcess, Recover, FinalizeLater, Exhaust, PreparedNext, BeginResume, DiesBehind;
    var kept := Undisturbed(e) && lossless;
    RestsMore(d, behind, lossless, kept);
    match e
    case Fresh(output, attempts, close) =>
      if !d.directory {
        FreshRuns(d, output, behind, lossless);
        ProcessRests(FreshProcess(d, output), attempts, close, 0, true);
        RestsMore(Happens(d, e), BehindAfter(d, e, behind), true && Survive(attempts), kept);
      }
    case Resumed(requested, usable, reopening, attempts, close) =>
      if PreparedNext(d, requested, usable).Some? { ResumedRests(d, e, behind, lossless); }
    case Recovers(progress) => RecoverRests(d, progress, behind, lossless);
    case Finalizes(output, torn, finalizer, service) => FinalizeRests(d, output, torn, finalizer, service, behind, kept);
    case Exhausts(output, torn) => ExhaustRests(d, output, torn, behind, kept);
    case Notes(whole) => NoteRests(d, whole, behind, kept);
    case Appears(output, residue) => BesideRests(d, Happens(d, e).outputs, Happens(d, e).encodings, behind, kept);
    case Removed(output) => BesideRests(d, Happens(d, e).outputs, Happens(d, e).encodings, behind, kept);
  }

  lemma ResumedRests(d: Disk, e: Event, behind: bool, lossless: bool)
    requires Rests(d, behind, lossless) && e.Resumed? && PreparedNext(d, e.requested, e.usable).Some?
    ensures Rests(Happens(d, e), BehindAfter(d, e, behind), Undisturbed(e) && lossless)
  {
    hide Rests, Runs, RunProcess, BeginResume, DiesBehind, ReadAll;
    ResumeKeeps(d, e.requested, e.usable, e.reopening, behind, lossless);
    var next := PreparedNext(d, e.requested, e.usable).value;
    var (p, going) := BeginResume(d, next, e.requested, e.reopening);
    var kept := Undisturbed(e) && lossless;
    if going == Dead {
      RestsMore(p.disk, e.reopening.DiesReopening? && behind, lossless, kept);
    } else {
      ProcessRests(p, e.attempts, e.close, next, lossless);
      RestsMore(Happens(d, e), BehindAfter(d, e, behind), lossless && Survive(e.attempts), kept);
    }
  }

  // ------------------------------------------------------------- what follows from it

  /** The strict reader accepts every whole line of every run, and with nothing disturbed every part is claimed. */
  lemma LogAlwaysReads(events: seq<Event>)
    ensures Readable(After(events).log, After(events).parts)
    ensures AllUndisturbed(events) ==>
              forall p | 1 <= p <= After(events).parts :: p in ReadAll(After(events).log, After(events).parts).value.claimed
  {
    hide After, ReadAll;
    AfterRests(events);
  }

  /** Everything the preflight asks about besides the log and the counts. */
  predicate Continuable(d: Disk, requested: Option<Output>, usable: bool) {
    // The parts: at least one, all accepted, and nothing half written beside them or in the log.
    && d.directory && d.parts > 0 && d.accepted && !d.writerPartial && !d.manifestPartial && d.whole
    // The manifest: not completed, and no finalization that has begun.
    && d.manifest.Some?
    && var m := d.manifest.value;
    && m.status != Completed && m.finalization != Running && m.finalization != Finalized
    && m.finalization != FinalFailed && m.finalization != FinalInterrupted
    // The output: not another one than declared, and neither there nor being encoded.
    && (m.output.Some? ==> m.output.value !in d.outputs && m.output.value !in d.encodings)
    && (requested.Some? ==> usable && requested.value !in d.outputs && requested.value !in d.encodings)
    && (m.output.Some? && requested.Some? ==> m.output == requested)
  }

  /** After any run a session that is otherwise continuable is refused exactly when it was closed behind its log. */
  lemma ResumableExactly(events: seq<Event>, requested: Option<Output>, usable: bool)
    ensures PreparedNext(After(events), requested, usable).Some? <==>
            Continuable(After(events), requested, usable) && !(Closed(After(events).manifest) && Behind(events))
  {
    hide After, Behind, ReadAll;
    AfterRests(events);
  }

  /** The number a resume takes is above every number that was logged, reserved or recorded. */
  lemma ResumeTakesANewNumber(d: Disk, requested: Option<Output>, usable: bool, k: nat)
    requires PreparedNext(d, requested, usable).Some? && k < |d.log| && IsNumbered(d.log[k])
    ensures var next := PreparedNext(d, requested, usable).value; d.log[k].number < next && d.manifest.value.connections < next
  {
    hide ReadAll;
    NumbersAreBelow(d.log, d.parts, k);
  }

  /** A session closed behind its log is lost to every resume, whatever happens later. */
  lemma {:induction false} LostForGood(events: seq<Event>, later: seq<Event>, requested: Option<Output>, usable: bool)
    requires After(events).manifest.Some? && Closed(After(events).manifest) && Behind(events)
    ensures PreparedNext(After(events + later), requested, usable).None?
  {
    hide After, Behind, PreparedNext, Lost;
    AfterRests(events);
    StartsLost(After(events), AllUndisturbed(events));
    StaysLost(events, later);
    LostIsRefused(After(events + later), requested, usable);
  }

  predicate Lost(d: Disk) {
    && d.directory && d.manifest.Some?
    && (Resumable(d.manifest.value.finalization) ==>
          Closed(d.manifest) && Readable(d.log, d.parts) && Count(ReadAll(d.log, d.parts).value) > d.manifest.value.connections)
  }

  lemma StartsLost(d: Disk, lossless: bool)
    requires Rests(d, true, lossless) && d.manifest.Some? && Closed(d.manifest)
    ensures Lost(d)
  {
    hide ReadAll;
  }

  lemma LostIsRefused(d: Disk, requested: Option<Output>, usable: bool)
    requires Lost(d)
    ensures PreparedNext(d, requested, usable).None?
  {
    hide ReadAll;
  }

  lemma {:induction false} StaysLost(events: seq<Event>, later: seq<Event>)
    requires Lost(After(events))
    ensures Lost(After(events + later))
  {
    hide Lost, Happens;
    if later == [] {
      assert events + later == events;
    } else {
      var n := |later| - 1;
      assert events + later == (events + later[..n]) + [later[n]];
      StaysLost(events, later[..n]);
      assert (events + later)[..|events + later| - 1] == events + later[..n];
      LostStep(After(events + later[..n]), later[n]);
    }
  }

  lemma LostStep(d: Disk, e: Event)
    requires Lost(d)
    ensures Lost(Happens(d, e))
  {
    hide ReadAll, Finalizing, PreparedNext, RunProcess;
    match e
    case Resumed(requested, usable, reopening, attempts, close) => LostIsRefused(d, requested, usable);
    case Finalizes(output, torn, finalizer, service) =>
      var m := d.manifest.value.(parts := d.parts, output := Some(output));
      var kept := if m.status == Recording then Interrupted else m.status;
      FinalizingWrites(d, m, output, finalizer, Interrupted, Failed, Interrupted);
      FinalizingWrites(d, m, output, finalizer, kept, kept, kept);
    case Exhausts(output, torn) => LostIsRefused(d, Some(output), true);
    case Notes(whole) =>
      ReadSnoc(d.log, Evidence, d.parts);
      assert d.log + [] == d.log;
    case _ =>
  }

  /** Recovering a crashed writer's partial makes its session continuable again, unless the log was torn or the
      output is in the way. */
  lemma RecoveryUnblocks(events: seq<Event>, requested: Option<Output>, usable: bool)
    requires MayRecover(After(events))
    ensures PreparedNext(After(events + [Recovers(Recorded)]), requested, usable).Some? <==>
            After(events).whole && OutputFree(After(events), After(events).manifest.value.output, requested, usable)
  {
    hide ReadAll, Behind, PreparedNext;
    var d, after := After(events), events + [Recovers(Recorded)];
    assert after[..|after| - 1] == events;
    AfterRests(events);
    ResumableExactly(after, requested, usable);
    RecoveredIsDiscovered(d, Behind(events), AllUndisturbed(events));
    hide After;
  }

  lemma RecoveredIsDiscovered(d: Disk, behind: bool, lossless: bool)
    requires Rests(d, behind, lossless) && MayRecover(d)
    ensures var e := Recover(d, Recorded);
            && Discovered(e) && e.whole == d.whole && e.outputs == d.outputs && e.encodings == d.encodings
            && e.manifest == Some(d.manifest.value.(parts := e.parts))
  {
    hide ReadAll;
  }

  // -------------------------------------------------------------------- two ways to lose it

  /** Stopping a capture-only resume before its first attempt loses every session that could be resumed so: it is
      closed behind its own reservation. */
  lemma StoppedResumeLoses(events: seq<Event>, usable: bool, later: seq<Event>)
    requires PreparedNext(After(events), None, usable).Some?
    ensures var run := events + [Resumed(None, usable, Reopens, [], Stops(true, Succeeds))];
            && Continuable(After(run), None, usable) && PreparedNext(After(run + later), None, usable).None?
  {
    hide ReadAll, DiesBehind;
    var e := Resumed(None, usable, Reopens, [], Stops(true, Succeeds));
    var d, run := After(events), events + [e];
    assert run[..|run| - 1] == events;
    StoppedResume(d, usable);
    assert Behind(run);
    hide After, Behind, PreparedNext;
    LostForGood(run, later, None, usable);
  }

  lemma StoppedResume(d: Disk, usable: bool)
    requires PreparedNext(d, None, usable).Some?
    ensures var e := Happens(d, Resumed(None, usable, Reopens, [], Stops(true, Succeeds)));
            Continuable(e, None, usable) && Closed(e.manifest)
  {
    hide ReadAll;
  }

  /** When the service gives up on a session whose last process died between a line and its manifest write, it
      closes the session behind its log. */
  lemma ExhaustionLoses(events: seq<Event>, output: Output, later: seq<Event>)
    requires PreparedNext(After(events), Some(output), true).Some? && After(events).evidence.None? && Behind(events)
    ensures var run := events + [Exhausts(output, None)];
            && Continuable(After(run), Some(output), true) && PreparedNext(After(run + later), Some(output), true).None?
  {
    hide ReadAll, DiesBehind;
    var e := Exhausts(output, None);
    var d, run := After(events), events + [e];
    assert run[..|run| - 1] == events;
    assert Behind(run);
    hide After, Behind;
    assert Continuable(After(run), Some(output), true) && Closed(After(run).manifest);
    hide PreparedNext;
    LostForGood(run, later, Some(output), true);
  }

  const OnePart: Attempt := Turn(true, Created, 1, 1, true, true, Survives)
  const NoLastWrite: Attempt := Turn(false, Created, 0, 0, true, true, BeforeManifest(false))

  /** Both happen: one connection with one part, then a stop; or a second attempt that dies behind its line. */
  lemma BothCanHappen(output: Output)
    ensures PreparedNext(After([Fresh(None, [OnePart], Stops(true, Succeeds))]), None, true) == Some(2)
    ensures var crashed := [Fresh(Some(output), [OnePart, NoLastWrite], Dies)];
            PreparedNext(After(crashed), Some(output), true) == Some(3) && After(crashed).evidence.None? && Behind(crashed)
  {
    StoppedFirst();
    CrashedSecond(output);
  }

  function Captured(output: Option<Output>): Disk {
    Disk(true, [Connection(1, Some(Range(1, 1)), [1])], true, 1, true, false, false, None, {}, {},
         Some(Manifest(Recording, 1, 1, if output.None? then NotRequested else Pending, output)))
  }

  lemma FirstTurn(output: Option<Output>)
    ensures TakeTurn(FreshProcess(NoSession, output), OnePart) ==
            (Process(Captured(output), 1, 2, true, Captured(output).manifest, [], output), Goes)
  {
    assert TimingsFrom(1, 1) == [1];
    var p := FreshProcess(NoSession, output).(connection := 1);
    var m := Manifest(Recording, 1, 0, if output.None? then NotRequested else Pending, output);
    var made := Wrote(NoSession.(directory := true), m);
    assert [] + EarlierLines(0) == [];
    assert CreateSession(p, OnePart) == (p.(disk := made, started := true, held := Some(m)), Goes);
    var q := CreateSession(p, OnePart).0;
    assert WriteMedia(q, OnePart) == (q.(disk := made.(parts := 1)), Goes);
    assert [] + [AttemptLine(1, 1, 1, 1)] == [AttemptLine(1, 1, 1, 1)];
  }

  lemma CapturedReads()
    ensures ReadAll([Connection(1, Some(Range(1, 1)), [1])], 1) == Some(Scan(1, 0, {1}))
  {
    assert Unread == ReadAll([], 1).value;
    assert Span(Range(1, 1)) == {1} by { assert Within(Range(1, 1), 1); }
    assert {} * Span(Range(1, 1)) == {};
    assert {} + {1} == {1};
    ReadSnoc([], Connection(1, Some(Range(1, 1)), [1]), 1);
    assert [] + [Connection(1, Some(Range(1, 1)), [1])] == [Connection(1, Some(Range(1, 1)), [1])];
  }

  lemma StoppedFirst()
    ensures PreparedNext(After([Fresh(None, [OnePart], Stops(true, Succeeds))]), None, true) == Some(2)
  {
    hide ReadAll, TakeTurn;
    var e := Fresh(None, [OnePart], Stops(true, Succeeds));
    assert [e][..0] == [];
    FirstTurn(None);
    CapturedReads();
    var p := FreshProcess(NoSession, None);
    var q := TakeTurn(p, OnePart).0;
    assert TakeTurns(q, [OnePart][1..]) == (q, Goes);
    assert TakeTurns(p, [OnePart]) == (q, Goes);
  }

  lemma CrashedSecond(output: Output)
    ensures var crashed := [Fresh(Some(output), [OnePart, NoLastWrite], Dies)];
            PreparedNext(After(crashed), Some(output), true) == Some(3) && After(crashed).evidence.None? && Behind(crashed)
  {
    hide ReadAll;
    var e := Fresh(Some(output), [OnePart, NoLastWrite], Dies);
    assert [e][..0] == [];
    FirstTurn(Some(output));
    CapturedReads();
    var log := [Connection(1, Some(Range(1, 1)), [1])];
    ReadSnoc(log, Connection(2, None, []), 1);
    var p := FreshProcess(NoSession, Some(output));
    var q := TakeTurn(p, OnePart).0;
    assert [OnePart, NoLastWrite][1..] == [NoLastWrite];
    assert TimingsFrom(2, 0) == [];
    assert AttemptLine(2, 2, 0, 0) == Connection(2, None, []);
    assert TakeTurn(q, NoLastWrite) == (q.(connection := 2, disk := q.disk.(log := log + [Connection(2, None, [])])), Dead);
    assert TakeTurns(q, [NoLastWrite]) == TakeTurn(q, NoLastWrite);
    assert DiesBehind(q, [NoLastWrite]);
    assert DiesBehind(p, [OnePart, NoLastWrite]);
  }
}
