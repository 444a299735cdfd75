/** The capture loop, the resume and the recovery as they run: fields and files changed step by step. */
module ConnectionSessions {
  import opened Wrappers
  import opened ConnectionLog
  import opened ConnectionSpec

  class Session {
    var disk: Disk
    var connection: nat
    var nextPart: Index
    var started: bool
    var held: Option<Manifest>
    var earlier: seq<Line>
    var output: Option<Output>

    ghost function State(): Process
      reads this
    {
      Process(disk, connection, nextPart, started, held, earlier, output)
    }

    constructor ()
      ensures disk == NoSession
    {
      disk := NoSession;
      connection, nextPart, started, held, earlier, output := 0, 1, false, None, [], None;
    }

    // --------------------------------------------------------------- files

    method Append(line: Line)
      modifies this`disk
      ensures disk == old(disk).(log := old(disk.log) + [line])
    {
      disk := disk.(log := disk.log + [line]);
    }

    method Tear(torn: bool)
      modifies this`disk
      ensures disk == old(disk).(whole := old(disk.whole) && !torn)
    {
      if torn { disk := disk.(whole := false); }
    }

    /** Replace the manifest; a process can die before the replacement, leaving the torn copy. */
    method WriteManifest(dies: bool, torn: bool)
      requires !dies ==> held.Some?
      modifies this`disk
      ensures disk == if dies then Torn(old(disk), torn) else Wrote(old(disk), held.value)
    {
      if dies {
        if torn { disk := disk.(manifestPartial := true); }
      } else {
        disk := disk.(manifestPartial := false, manifest := held);
      }
    }

    // ------------------------------------------------------------ one turn

    /** The first resolved source creates the session. */
    method StartSession(a: Attempt) returns (going: Going)
      modifies this
      ensures (State(), going) == CreateSession(old(State()), a)
    {
      hide LogEarlier;
      if output.Some? && output.value in disk.outputs { return Dead; }
      disk := disk.(directory := true);
      started := true;
      held := Some(Manifest(Recording, connection, 0, if output.None? then NotRequested else Pending, output));
      if a.death.InStart? {
        WriteManifest(true, a.death.torn);
        return Dead;
      }
      if a.creation.ManifestRaises? { return Raises; }
      WriteManifest(false, false);
      going := AppendEarlier(a);
    }

    method AppendEarlier(a: Attempt) returns (going: Going)
      modifies this`disk
      ensures (State(), going) == LogEarlier(old(State()), a)
    {
      if a.death.InEarlierLines? {
        AppendSome(a.death.written);
        Tear(a.death.torn);
        return Dead;
      }
      if a.creation.LineRaises? {
        AppendSome(a.creation.written);
        Tear(a.creation.torn);
        return Raises;
      }
      AppendSome(|earlier|);
      assert Taken(earlier, |earlier|) == earlier;
      return Goes;
    }

    /** One line per attempt made before the session existed, as far as the process gets. */
    method AppendSome(written: nat)
      modifies this`disk
      ensures disk == Logged(old(disk), Taken(earlier, written), true)
    {
      ghost var before := disk.log;
      var i := 0;
      assert before + earlier[..0] == before;
      while i < |earlier| && i < written
        modifies this`disk
        invariant 0 <= i <= |earlier| && i <= written && disk == old(disk).(log := before + earlier[..i])
      {
        assert before + earlier[..i] + [earlier[i]] == before + earlier[..i + 1];
        Append(earlier[i]);
        i := i + 1;
      }
      assert earlier[..i] == Taken(earlier, written);
    }

    /** The writer publishes parts one after the other. */
    method WriteParts(a: Attempt) returns (going: Going)
      modifies this`disk
      ensures (State(), going) == WriteMedia(old(State()), a)
    {
      var promised := if a.death.InWriting? then a.death.promoted else a.retained;
      var made := 0;
      while made < promised
        modifies this`disk
        invariant 0 <= made <= promised
        invariant disk == old(disk).(parts := old(disk.parts) + made, accepted := old(disk.accepted) && (made > 0 ==> a.accepted))
      {
        disk := disk.(parts := disk.parts + 1, accepted := disk.accepted && a.accepted);
        made := made + 1;
      }
      if a.death.InWriting? {
        if a.death.open { disk := disk.(writerPartial := true); }
        return Dead;
      }
      return Goes;
    }

    /** Close an attempt: its line, then the manifest. */
    method CloseAttempt(retained: nat, timed: nat, recorded: bool, death: Death) returns (going: Going)
      modifies this
      ensures (State(), going) == ConnectionSpec.CloseAttempt(old(State()), retained, timed, recorded, death)
    {
      var line := AttemptLine(connection, nextPart, retained, timed);
      if started && recorded {
        if death.BeforeLine? {
          Tear(death.torn);
          return Dead;
        }
        Append(line);
      } else if death.BeforeLine? {
        return Dead;
      }
      if death.BeforeManifest? {
        if held.Some? && recorded { WriteManifest(true, death.torn); }
        return Dead;
      }
      if !started { earlier := earlier + [line]; }
      nextPart := nextPart + retained;
      if held.Some? && recorded {
        held := Some(held.value.(connections := connection, parts := nextPart - 1));
        WriteManifest(false, false);
      }
      return Goes;
    }

    /** One turn of the capture loop. */
    method MakeAttempt(a: Attempt) returns (going: Going)
      modifies this
      ensures (State(), going) == TakeTurn(old(State()), a)
    {
      hide CreateSession, WriteMedia, ConnectionSpec.CloseAttempt;
      connection := connection + 1;
      if a.death == BeforeWriting { return Dead; }
      if !a.resolves {
        going := CloseAttempt(0, 0, a.recorded, a.death);
        return;
      }
      if !started {
        going := StartSession(a);
        if going == Dead { return; }
        if going == Raises {
          going := CloseAttempt(0, 0, true, a.death);
          if going == Goes { going := Raises; }
          return;
        }
      }
      if a.death.InIdentity? {
        WriteManifest(true, a.death.torn);
        return Dead;
      }
      going := WriteParts(a);
      if going == Dead { return; }
      going := CloseAttempt(a.retained, a.timed, a.recorded, a.death);
    }

    // ------------------------------------------------------------- its end

    /** The encoder's run, between the two manifest writes around it. */
    method FinalizeInto(to: Output, finalizer: Finalizer, closed: Status, broken: Status, stopped: Status)
      requires held.Some?
      modifies this
      ensures disk == Finalizing(old(disk), old(held).value, to, finalizer, closed, broken, stopped)
    {
      var capture := held.value;
      held := Some(capture.(finalization := Running));
      WriteManifest(false, false);
      var ends := Encoder(disk, to, finalizer);
      Leave(to, Residual(ends));
      var last := Outcome(capture, to, ends, closed, broken, stopped);
      if last.Some? {
        held := last;
        WriteManifest(false, false);
      }
    }

    method Leave(to: Output, residue: Residue)
      modifies this`disk
      ensures disk == Left(old(disk), to, residue)
    {
      match residue {
        case Nothing =>
        case AnEncoding => disk := disk.(encodings := disk.encodings + {to});
        case AnOutput => disk := disk.(outputs := disk.outputs + {to});
      }
    }

    /** Bring the manifest up to the process's counts, then end the session. */
    method Finish(close: Close)
      modifies this
      ensures disk == ConnectionSpec.Finish(old(State()), close)
    {
      if held.None? || close.Dies? { return; }
      if close.DiesBeforeCounts? {
        WriteManifest(true, close.torn);
        return;
      }
      held := Some(held.value.(connections := connection, parts := nextPart - 1));
      WriteManifest(false, false);
      if close.DiesAfterCounts? {
        WriteManifest(true, close.torn);
      } else if close.Stops? {
        var status := if close.interrupted then Interrupted else Completed;
        if output.Some? && nextPart > 1 {
          FinalizeInto(output.value, close.finalizer, status, Failed, Interrupted);
        } else {
          EndAs(status);
        }
      } else {
        EndAs(Failed);
      }
    }

    /** Close the capture without finalizing it. */
    method EndAs(status: Status)
      requires held.Some?
      modifies this
      ensures disk == Wrote(old(disk), old(held).value.(status := status,
                            finalization := if old(output).None? then old(held).value.finalization else NotStarted))
    {
      held := Some(held.value.(status := status));
      if output.Some? { held := Some(held.value.(finalization := NotStarted)); }
      WriteManifest(false, false);
    }

    /** A whole process from its first turn to its end. */
    method Capture(attempts: seq<Attempt>, close: Close)
      modifies this
      ensures disk == RunProcess(old(State()), attempts, close)
    {
      hide TakeTurn, ConnectionSpec.Finish;
      var i, going := 0, Goes;
      while i < |attempts| && going == Goes
        modifies this
        invariant 0 <= i <= |attempts|
        invariant TakeTurns(old(State()), attempts) == if going == Goes then TakeTurns(State(), attempts[i..]) else (State(), going)
      {
        going := MakeAttempt(attempts[i]);
        i := i + 1;
        assert attempts[i - 1..][1..] == attempts[i..];
      }
      if going == Dead { return; }
      Finish(if going == Raises && !DiesIn(close) then Fails else close);
    }

    // -------------------------------------------------------------- resume

    /** The read-only preflight of a resume. */
    method Prepare(requested: Option<Output>, usable: bool) returns (next: Option<nat>)
      ensures next == PreparedNext(disk, requested, usable)
    {
      hide ReadAll;
      if !Discovered(disk) || disk.manifest.None? { return None; }
      var m := disk.manifest.value;
      if m.status == Completed || m.parts > disk.parts || (m.parts != disk.parts && m.status != Recording) { return None; }
      if !Resumable(m.finalization) || !OutputFree(disk, m.output, requested, usable) || !disk.whole { return None; }
      var scan := ReadConnections(disk.log, disk.parts);
      if scan.None? { return None; }
      var count := Count(scan.value);
      if m.status != Recording && count > m.connections { return None; }
      return Some((if m.connections < count then count else m.connections) + 1);
    }

    /** Reopen the manifest, log the reserved number, and start a process behind the retained parts. */
    method BeginResume(next: nat, requested: Option<Output>, reopening: Reopening) returns (going: Going)
      requires disk.manifest.Some? && next >= 1
      modifies this
      ensures (State(), going) == ConnectionSpec.BeginResume(old(disk), next, requested, reopening)
    {
      held, connection, nextPart := Some(Reopened(disk.manifest.value, next, disk.parts, requested)), next - 1, disk.parts + 1;
      started, earlier, output := true, [], requested;
      WriteManifest(reopening.DiesReopening?, if reopening.DiesReopening? then reopening.torn else false);
      if reopening.DiesReopening? { return Dead; }
      if reopening.DiesBeforeResumeLine? {
        Tear(reopening.torn);
        assert old(disk.log) + [] == old(disk.log);
        return Dead;
      }
      Append(ConnectionLog.Resume(next, disk.parts + 1));
      return Goes;
    }

    // ---------------------------------------------------- between processes

    /** Recover a crashed writer's partial: preserve it, publish its whole tags, record the part. */
    method RecoverPartial(progress: Progress)
      modifies this
      ensures disk == Recover(old(disk), progress)
    {
      if !MayRecover(disk) || disk.manifest.value.parts > disk.parts { return; }
      var index := if disk.evidence.Some? then disk.evidence.value else disk.parts + 1;
      disk := disk.(writerPartial := false, evidence := Some(index));
      if progress.Preserved? { return; }
      disk := disk.(parts := index);
      if progress.Published? { return; }
      held := Some(disk.manifest.value.(parts := index));
      WriteManifest(false, false);
      disk := disk.(evidence := None);
    }

    method FinalizeLater(to: Output, torn: Option<bool>, finalizer: Finalizer, service: bool)
      modifies this
      ensures disk == ConnectionSpec.FinalizeLater(old(disk), to, torn, finalizer, service)
    {
      hide Finalizing;
      if disk.manifest.None? || disk.parts == 0 || (service && !Discovered(disk)) { return; }
      held := Some(disk.manifest.value.(parts := disk.parts, output := Some(to)));
      if torn.Some? {
        WriteManifest(true, torn.value);
      } else if service {
        FinalizeInto(to, finalizer, Interrupted, Failed, Interrupted);
      } else {
        var kept := if held.value.status == Recording then Interrupted else held.value.status;
        FinalizeInto(to, finalizer, kept, kept, kept);
      }
    }

    /** Give up on a session that could have been resumed. */
    method GiveUp(to: Output, torn: Option<bool>)
      modifies this
      ensures disk == Exhaust(old(disk), to, torn)
    {
      hide PreparedNext;
      var next := Prepare(Some(to), true);
      if next.None? || disk.evidence.Some? { return; }
      PreparedHasManifest(disk, Some(to), true);
      held := Some(disk.manifest.value.(status := Failed, parts := disk.parts, finalization := NotStarted));
      WriteManifest(torn.Some?, if torn.Some? then torn.value else false);
    }

    method StartCapture(wanted: Option<Output>, attempts: seq<Attempt>, close: Close)
      modifies this
      ensures disk == Happens(old(disk), Fresh(wanted, attempts, close))
    {
      hide RunProcess;
      if disk.directory { return; }
      connection, nextPart, started, held, earlier, output := 0, 1, false, None, [], wanted;
      Capture(attempts, close);
    }

    method ResumeCapture(requested: Option<Output>, usable: bool, reopening: Reopening, attempts: seq<Attempt>, close: Close)
      modifies this
      ensures disk == Happens(old(disk), Resumed(requested, usable, reopening, attempts, close))
    {
      hide RunProcess, PreparedNext, ConnectionSpec.BeginResume;
      var next := Prepare(requested, usable);
      if next.None? { return; }
      PreparedHasManifest(disk, requested, usable);
      var going := BeginResume(next.value, requested, reopening);
      if going == Dead { return; }
      Capture(attempts, close);
    }

    method Handle(e: Event)
      modifies this
      ensures disk == Happens(old(disk), e)
    {
      hide RunProcess, PreparedNext, Recover, ConnectionSpec.FinalizeLater, Exhaust;
      match e {
        case Fresh(wanted, attempts, close) => StartCapture(wanted, attempts, close);
        case Resumed(requested, usable, reopening, attempts, close) => ResumeCapture(requested, usable, reopening, attempts, close);
        case Recovers(progress) => RecoverPartial(progress);
        case Finalizes(to, torn, finalizer, service) => FinalizeLater(to, torn, finalizer, service);
        case Exhausts(to, torn) => GiveUp(to, torn);
        case Notes(whole) =>
          if disk.directory {
            if whole { Append(Evidence); } else { Tear(true); assert disk.log + [] == disk.log; }
          }
        case Appears(to, residue) =>
          Leave(to, residue);
        case Removed(to) =>
          disk := disk.(outputs := disk.outputs - {to}, encodings := disk.encodings - {to});
      }
    }
  }

  lemma PreparedHasManifest(d: Disk, requested: Option<Output>, usable: bool)
    ensures PreparedNext(d, requested, usable).Some? ==> d.manifest.Some? && PreparedNext(d, requested, usable).value >= 1
  {
  }

  /** Any events, one after the other, leave exactly the directory they specify. */
  method RunSession(events: seq<Event>) returns (d: Disk)
    ensures d == After(events)
  {
    hide Happens;
    var session := new Session();
    var i := 0;
    assert events[..0] == [];
    while i < |events|
      invariant fresh(session) && 0 <= i <= |events| && session.disk == After(events[..i])
    {
      session.Handle(events[i]);
      assert events[..i + 1][..i] == events[..i];
      i := i + 1;
    }
    assert events[..i] == events;
    return session.disk;
  }
}
