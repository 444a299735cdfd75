/** Which tags the part writer retains, said two ways: as the state machine it runs, and
    as windows of the tag stream between a keyframe gate and the next rendition change. */
module WriterWindows {
  import opened Wrappers
  import opened Flv

  // ------------------------------------------------------ declarative description

  /** The decoder configuration behind the five video header bytes of an AVC sequence header. */
  function Configuration(t: FlvTag): Bytes { if |t.payload| >= 5 then t.payload[5..] else [] }

  function LatestAvc(tags: seq<FlvTag>): (r: Option<FlvTag>)
    ensures r.Some? ==> IsAvcConfiguration(r.value) && r.value in tags
  {
    if tags == [] then None
    else if IsAvcConfiguration(tags[|tags| - 1]) then Some(tags[|tags| - 1])
    else LatestAvc(tags[..|tags| - 1])
  }

  function LatestAudio(tags: seq<FlvTag>): (r: Option<FlvTag>)
    ensures r.Some? ==> IsAudioConfiguration(r.value) && r.value in tags
  {
    if tags == [] then None
    else if IsAudioConfiguration(tags[|tags| - 1]) then Some(tags[|tags| - 1])
    else LatestAudio(tags[..|tags| - 1])
  }

  /** The last tag announces another rendition than the AVC header before it did. */
  predicate EndsInChange(tags: seq<FlvTag>) {
    && tags != [] && IsAvcConfiguration(tags[|tags| - 1])
    && var before := LatestAvc(tags[..|tags| - 1]);
       before.None? || Configuration(before.value) != Configuration(tags[|tags| - 1])
  }

  predicate ChangesAt(tags: seq<FlvTag>, k: nat) { k < |tags| && EndsInChange(tags[..k + 1]) }

  function LastChange(tags: seq<FlvTag>): (r: Option<nat>)
    ensures r.Some? ==> r.value < |tags| && ChangesAt(tags, r.value)
    ensures r.Some? ==> forall k | r.value < k < |tags| :: !ChangesAt(tags, k)
    ensures r.None? ==> forall k | 0 <= k < |tags| :: !ChangesAt(tags, k)
  {
    if tags == [] then None
    else
      var n := |tags| - 1;
      assert tags[..n + 1] == tags;
      PrefixChanges(tags, n);
      if EndsInChange(tags) then Some(n) else LastChange(tags[..n])
  }

  lemma PrefixChanges(tags: seq<FlvTag>, n: nat)
    requires n <= |tags|
    ensures forall k | 0 <= k < n :: ChangesAt(tags[..n], k) <==> ChangesAt(tags, k)
  {
    forall k | 0 <= k < n ensures ChangesAt(tags[..n], k) <==> ChangesAt(tags, k) {
      assert tags[..n][..k + 1] == tags[..k + 1];
    }
  }

  /** The first video keyframe at or after `from`. */
  function Gate(tags: seq<FlvTag>, from: nat): (r: Option<nat>)
    requires from <= |tags|
    ensures r.Some? ==> from <= r.value < |tags| && IsVideoKeyframe(tags[r.value])
    ensures r.Some? ==> forall k | from <= k < r.value :: !IsVideoKeyframe(tags[k])
    ensures r.None? ==> forall k | from <= k < |tags| :: !IsVideoKeyframe(tags[k])
    decreases |tags| - from
  {
    if from == |tags| then None
    else if IsVideoKeyframe(tags[from]) then Some(from)
    else Gate(tags, from + 1)
  }

  datatype Window = Window(open: nat, gate: nat, end: nat)

  /** One window per rendition that reached a keyframe: from that keyframe to the next rendition. */
  function Windows(tags: seq<FlvTag>): (ws: seq<Window>)
    ensures forall w | w in ws :: w.open <= w.gate < w.end <= |tags|
    decreases |tags|
  {
    match LastChange(tags)
    case None => []
    case Some(a) =>
      Windows(tags[..a]) + (match Gate(tags, a)
                            case None => []
                            case Some(g) => [Window(a, g, |tags|)])
  }

  function OneOrNone(t: Option<FlvTag>): seq<FlvTag> { if t.Some? then [t.value] else [] }

  /** A part's tags before rebasing: its own headers, then everything from its gate on. */
  function PartTags(tags: seq<FlvTag>, w: Window): (p: seq<FlvTag>)
    requires w.gate <= w.end <= |tags|
  {
    OneOrNone(LatestAvc(tags[..w.gate])) + OneOrNone(LatestAudio(tags[..w.gate])) + tags[w.gate..w.end]
  }

  function RebasedAll(tags: seq<FlvTag>, base: nat): (r: seq<FlvTag>)
    ensures |r| == |tags| && forall k | 0 <= k < |tags| :: r[k] == Rebased(tags[k], base)
  {
    seq(|tags|, k requires 0 <= k < |tags| => Rebased(tags[k], base))
  }

  // ------------------------------------------------------------ the state machine

  datatype Written = Written(base: nat, tags: seq<FlvTag>)
  datatype Part = Part(header: FlvTag, started: bool, written: Written)
  datatype Writer = Writer(configuration: Option<Bytes>, audio: Option<FlvTag>, part: Option<Part>,
                           retained: seq<Written>)

  const Idle := Writer(None, None, None, [])

  function Closed(w: Writer): seq<Written> {
    w.retained + if w.part.Some? && w.part.value.started then [w.part.value.written] else []
  }

  function Append(part: Part, t: FlvTag): Part {
    part.(written := part.written.(tags := part.written.tags + [t]))
  }

  /** How one source tag moves the writer. */
  function Step(w: Writer, t: FlvTag): Writer {
    if IsAudioConfiguration(t) then
      w.(audio := Some(t),
         part := if w.part.Some? && w.part.value.started then Some(Append(w.part.value, t)) else w.part)
    else if IsAvcConfiguration(t) then
      if w.configuration != Some(Configuration(t)) then
        w.(retained := Closed(w), part := Some(Part(t, false, Written(0, []))), configuration := Some(Configuration(t)))
      else if w.part.None? then w
      else if w.part.value.started then w.(part := Some(Append(w.part.value, t)))
      else w.(part := Some(w.part.value.(header := t)))
    else if w.part.None? then w
    else if w.part.value.started then w.(part := Some(Append(w.part.value, t)))
    else if !IsVideoKeyframe(t) then w
    else w.(part := Some(Part(w.part.value.header, true,
                              Written(t.timestamp, [w.part.value.header] + OneOrNone(w.audio) + [t]))))
  }

  function Run(tags: seq<FlvTag>): Writer {
    if tags == [] then Idle else Step(Run(tags[..|tags| - 1]), tags[|tags| - 1])
  }

  // --------------------------------------------------------- they are the same thing

  function WrittenOf(tags: seq<FlvTag>, w: Window): Written
    requires w.gate < w.end <= |tags|
  {
    Written(tags[w.gate].timestamp, PartTags(tags, w))
  }

  function WrittenAll(tags: seq<FlvTag>, ws: seq<Window>): (r: seq<Written>)
    requires forall w | w in ws :: w.gate < w.end <= |tags|
    ensures |r| == |ws| && forall i | 0 <= i < |ws| :: r[i] == WrittenOf(tags, ws[i])
  {
    seq(|ws|, i requires 0 <= i < |ws| => WrittenOf(tags, ws[i]))
  }

  /** Windows only look at the tags before their end. */
  lemma WrittenOfPrefix(tags: seq<FlvTag>, n: nat, ws: seq<Window>)
    requires n <= |tags| && forall w | w in ws :: w.gate < w.end <= n
    ensures WrittenAll(tags, ws) == WrittenAll(tags[..n], ws)
  {
    forall i | 0 <= i < |ws| ensures WrittenOf(tags, ws[i]) == WrittenOf(tags[..n], ws[i]) {
      assert tags[..n][..ws[i].gate] == tags[..ws[i].gate];
      assert tags[..n][ws[i].gate..ws[i].end] == tags[ws[i].gate..ws[i].end];
    }
  }

  /** What the writer's fields mean in terms of the tags it has seen. */
  ghost predicate Represents(w: Writer, tags: seq<FlvTag>) {
    && w.configuration == (match LatestAvc(tags) case None => None case Some(t) => Some(Configuration(t)))
    && w.audio == LatestAudio(tags)
    && match LastChange(tags)
       case None => w.part.None? && w.retained == []
       case Some(a) =>
         && w.retained == WrittenAll(tags[..a], Windows(tags[..a]))
         && w.part.Some?
         && match Gate(tags, a)
            case None => !w.part.value.started && LatestAvc(tags) == Some(w.part.value.header)
            case Some(g) => w.part.value.started && w.part.value.written == WrittenOf(tags, Window(a, g, |tags|))
  }

  lemma SnocLatest(tags: seq<FlvTag>, t: FlvTag)
    ensures LatestAvc(tags + [t]) == if IsAvcConfiguration(t) then Some(t) else LatestAvc(tags)
    ensures LatestAudio(tags + [t]) == if IsAudioConfiguration(t) then Some(t) else LatestAudio(tags)
    ensures LastChange(tags + [t]) == if EndsInChange(tags + [t]) then Some(|tags|) else LastChange(tags)
  {
    assert (tags + [t])[..|tags|] == tags;
  }

  lemma {:induction false} SnocGate(tags: seq<FlvTag>, t: FlvTag, from: nat)
    requires from <= |tags|
    ensures Gate(tags + [t], from) == if Gate(tags, from).Some? then Gate(tags, from)
                                      else if IsVideoKeyframe(t) then Some(|tags|) else None
    decreases |tags| - from
  {
    if from < |tags| {
      SnocGate(tags, t, from + 1);
    } else {
      assert Gate(tags + [t], from + 1).None?;
    }
  }

  lemma SnocWritten(tags: seq<FlvTag>, t: FlvTag, a: nat, g: nat)
    requires a <= g < |tags|
    ensures var before, after := WrittenOf(tags, Window(a, g, |tags|)), WrittenOf(tags + [t], Window(a, g, |tags| + 1));
            after == before.(tags := before.tags + [t])
  {
    assert (tags + [t])[..g] == tags[..g];
    assert (tags + [t])[g..|tags| + 1] == tags[g..|tags|] + [t];
  }

  lemma SnocPrefix(tags: seq<FlvTag>, t: FlvTag, a: nat)
    requires a <= |tags|
    ensures (tags + [t])[..a] == tags[..a]
  {
  }

  /** At a change the finished part, if it reached its gate, joins the retained ones. */
  lemma ClosedIsWindows(w: Writer, tags: seq<FlvTag>)
    requires Represents(w, tags)
    ensures Closed(w) == WrittenAll(tags, Windows(tags))
  {
    match LastChange(tags)
    case None =>
    case Some(a) =>
      WrittenOfPrefix(tags, a, Windows(tags[..a]));
      if Gate(tags, a).Some? {
        var last := Window(a, Gate(tags, a).value, |tags|);
        assert Windows(tags) == Windows(tags[..a]) + [last];
        assert WrittenAll(tags, Windows(tags)) == WrittenAll(tags, Windows(tags[..a])) + [WrittenOf(tags, last)];
      } else {
        assert Windows(tags) == Windows(tags[..a]);
      }
  }

  lemma StepChange(w: Writer, tags: seq<FlvTag>, t: FlvTag)
    requires Represents(w, tags) && EndsInChange(tags + [t])
    ensures Represents(Step(w, t), tags + [t])
  {
    hide Windows, WrittenAll, WrittenOf;
    SnocLatest(tags, t);
    SnocPrefix(tags, t, |tags|);
    ClosedIsWindows(w, tags);
    assert Gate(tags + [t], |tags|).None? by {
      assert Gate(tags + [t], |tags| + 1).None?;
    }
  }

  lemma StepNoChange(w: Writer, tags: seq<FlvTag>, t: FlvTag)
    requires Represents(w, tags) && !EndsInChange(tags + [t])
    ensures Represents(Step(w, t), tags + [t])
  {
    hide Windows, WrittenAll, Gate, LatestAvc, LatestAudio, LastChange, WrittenOf, Represents, Step;
    if LastChange(tags).Some? {
      var a := LastChange(tags).value;
      if Gate(tags, a).Some? { StepInPart(w, tags, t, a); } else { StepAtGate(w, tags, t, a); }
    } else {
      StepIdle(w, tags, t);
    }
  }

  lemma StepInPart(w: Writer, tags: seq<FlvTag>, t: FlvTag, a: nat)
    requires Represents(w, tags) && !EndsInChange(tags + [t]) && LastChange(tags) == Some(a) && Gate(tags, a).Some?
    ensures Represents(Step(w, t), tags + [t])
  {
    hide Windows, WrittenAll, Gate, LatestAvc, LatestAudio, LastChange, WrittenOf;
    SnocLatest(tags, t);
    SnocPrefix(tags, t, |tags|);
    SnocGate(tags, t, a);
    SnocPrefix(tags, t, a);
    SnocWritten(tags, t, a, Gate(tags, a).value);
  }

  lemma StepAtGate(w: Writer, tags: seq<FlvTag>, t: FlvTag, a: nat)
    requires Represents(w, tags) && !EndsInChange(tags + [t]) && LastChange(tags) == Some(a) && Gate(tags, a).None?
    ensures Represents(Step(w, t), tags + [t])
  {
    hide Windows, WrittenAll, Gate, LatestAvc, LatestAudio, LastChange;
    SnocLatest(tags, t);
    SnocPrefix(tags, t, |tags|);
    SnocGate(tags, t, a);
    SnocPrefix(tags, t, a);
    StartsAtGate(tags, t, a);
  }

  lemma StepIdle(w: Writer, tags: seq<FlvTag>, t: FlvTag)
    requires Represents(w, tags) && !EndsInChange(tags + [t]) && LastChange(tags).None?
    ensures Represents(Step(w, t), tags + [t])
  {
    hide Windows, WrittenAll, Gate, LatestAvc, LatestAudio, LastChange;
    SnocLatest(tags, t);
    SnocPrefix(tags, t, |tags|);
    NoChangeNoHeader(tags);
  }

  lemma StartsAtGate(tags: seq<FlvTag>, t: FlvTag, a: nat)
    requires a <= |tags|
    ensures WrittenOf(tags + [t], Window(a, |tags|, |tags| + 1)) ==
            Written(t.timestamp, OneOrNone(LatestAvc(tags)) + OneOrNone(LatestAudio(tags)) + [t])
  {
    hide LatestAvc, LatestAudio, OneOrNone;
    LastSlice(tags, t);
  }

  lemma LastSlice(tags: seq<FlvTag>, t: FlvTag)
    ensures var all, n := tags + [t], |tags|; all[..n] == tags && all[n..n + 1] == [t] && all[n] == t
  {
  }

  lemma {:induction false} NoChangeNoHeader(tags: seq<FlvTag>)
    requires LastChange(tags).None?
    ensures LatestAvc(tags).None?
  {
    if tags != [] {
      assert tags[..|tags| - 1 + 1] == tags;
      assert !ChangesAt(tags, |tags| - 1);
      NoChangeNoHeader(tags[..|tags| - 1]);
    }
  }

  lemma {:induction false} RunRepresents(tags: seq<FlvTag>)
    ensures Represents(Run(tags), tags)
  {
    hide Represents, Step, EndsInChange;
    if tags == [] {
      IdleRepresents();
    } else {
      var before, t := tags[..|tags| - 1], tags[|tags| - 1];
      assert before + [t] == tags;
      RunRepresents(before);
      if EndsInChange(tags) { StepChange(Run(before), before, t); } else { StepNoChange(Run(before), before, t); }
    }
  }

  lemma IdleRepresents()
    ensures Represents(Idle, [])
  {
  }

  /** The parts the writer retains are exactly the windows of the stream, each behind its own headers. */
  lemma RetainedAreWindows(tags: seq<FlvTag>)
    ensures Closed(Run(tags)) == WrittenAll(tags, Windows(tags))
  {
    RunRepresents(tags);
    ClosedIsWindows(Run(tags), tags);
  }

  // ------------------------------------------------------------- once each, in order

  /** Past a keyframe that no rendition change has followed, and behind some rendition. */
  ghost predicate PastGate(tags: seq<FlvTag>, k: nat) {
    exists g | 0 <= g <= k < |tags| ::
      IsVideoKeyframe(tags[g]) && LastChange(tags[..g]).Some? && forall c | g < c <= k :: !ChangesAt(tags, c)
  }

  ghost predicate InWindow(ws: seq<Window>, k: nat) { exists w | w in ws :: w.gate <= k < w.end }

  /** Windows come in stream order and never share a tag. */
  lemma {:induction false} WindowsAreOrdered(tags: seq<FlvTag>)
    ensures forall i, j | 0 <= i < j < |Windows(tags)| :: Windows(tags)[i].end <= Windows(tags)[j].open
    decreases |tags|
  {
    if LastChange(tags).Some? {
      WindowsAreOrdered(tags[..LastChange(tags).value]);
    }
  }

  lemma PastGateBefore(tags: seq<FlvTag>, a: nat, k: nat)
    requires k < a <= |tags|
    ensures PastGate(tags[..a], k) <==> PastGate(tags, k)
  {
    PrefixChanges(tags, a);
    forall g | 0 <= g <= k ensures tags[..a][..g] == tags[..g] && tags[..a][g] == tags[g] {}
    if PastGate(tags[..a], k) {
      var g :| 0 <= g <= k < |tags[..a]| && IsVideoKeyframe(tags[..a][g]) && LastChange(tags[..a][..g]).Some?
               && forall c | g < c <= k :: !ChangesAt(tags[..a], c);
      assert IsVideoKeyframe(tags[g]) && LastChange(tags[..g]).Some?;
    }
    if PastGate(tags, k) {
      var g :| 0 <= g <= k < |tags| && IsVideoKeyframe(tags[g]) && LastChange(tags[..g]).Some?
               && forall c | g < c <= k :: !ChangesAt(tags, c);
      assert IsVideoKeyframe(tags[..a][g]) && LastChange(tags[..a][..g]).Some?;
    }
  }

  lemma PastGateInLast(tags: seq<FlvTag>, a: nat, k: nat)
    requires LastChange(tags) == Some(a) && a <= k < |tags|
    ensures PastGate(tags, k) <==> Gate(tags, a).Some? && Gate(tags, a).value <= k
  {
    assert IsAvcConfiguration(tags[a]) by { assert tags[..a + 1][a] == tags[a]; }
    if Gate(tags, a).Some? && Gate(tags, a).value <= k {
      var g := Gate(tags, a).value;
      PrefixChanges(tags, g);
      assert LastChange(tags[..g]).Some?;
      assert IsVideoKeyframe(tags[g]) && forall c | g < c <= k :: !ChangesAt(tags, c);
    }
    if PastGate(tags, k) {
      var g :| 0 <= g <= k < |tags| && IsVideoKeyframe(tags[g]) && LastChange(tags[..g]).Some?
               && forall c | g < c <= k :: !ChangesAt(tags, c);
      assert !(g < a);
    }
  }

  lemma {:induction false} NoChangeBehindNothing(tags: seq<FlvTag>, k: nat)
    requires LastChange(tags).None?
    ensures !PastGate(tags, k)
  {
    forall g | 0 <= g <= k < |tags| ensures LastChange(tags[..g]).None? {
      PrefixChanges(tags, g);
    }
  }

  /** A tag is in a part's body exactly when it is past a gate: nothing past one is lost, nothing before one kept. */
  lemma {:induction false} BodyIsPastGate(tags: seq<FlvTag>, k: nat)
    requires k < |tags|
    ensures InWindow(Windows(tags), k) <==> PastGate(tags, k)
    decreases |tags|
  {
    hide PastGate;
    match LastChange(tags)
    case None => NoChangeBehindNothing(tags, k);
    case Some(a) =>
      var earlier := Windows(tags[..a]);
      if k < a {
        PastGateBefore(tags, a, k);
        BodyIsPastGate(tags[..a], k);
        assert InWindow(Windows(tags), k) <==> InWindow(earlier, k) by {
          assert forall w | w in Windows(tags) && w !in earlier :: a <= w.gate;
          assert forall w | w in earlier :: w in Windows(tags);
        }
      } else {
        PastGateInLast(tags, a, k);
        assert forall w | w in earlier :: w.end <= a;
        if Gate(tags, a).Some? {
          var last := Window(a, Gate(tags, a).value, |tags|);
          assert last in Windows(tags);
          assert forall w | w in Windows(tags) :: w in earlier || w == last;
        }
      }
  }
}
