/** The writer's loop over source tags, and the numbered part files it leaves behind. */
module PartWriters {
  import opened Wrappers
  import opened Flv
  import opened WriterWindows
  import opened WriterReplays
  import opened WriterParts

  /** Why a call raised before the source was exhausted. */
  datatype Stop = InvalidStart | Blocked | Oversized

  predicate AllWritten(done: seq<Written>) { forall w | w in done :: AllFit(w.tags) }

  /** The directory once each retained part has its number. */
  function Published(before: map<nat, Bytes>, start: nat, done: seq<Written>): (files: map<nat, Bytes>)
    requires AllWritten(done)
  {
    if done == [] then before
    else
      var n := |done| - 1;
      Published(before, start, done[..n])[start + n := PartBytes(done[n].tags, done[n].base)]
  }

  /** Every retained part is there under its own number, and nothing else changed. */
  lemma {:induction false} PublishedFiles(before: map<nat, Bytes>, start: nat, done: seq<Written>, i: nat)
    requires AllWritten(done)
    ensures var files := Published(before, start, done);
            if start <= i < start + |done|
            then i in files && files[i] == PartBytes(done[i - start].tags, done[i - start].base)
            else (i in files <==> i in before) && (i in before ==> files[i] == before[i])
  {
    if done != [] {
      hide PartBytes;
      PublishedFiles(before, start, done[..|done| - 1], i);
    }
  }

  lemma PublishedSnoc(before: map<nat, Bytes>, start: nat, done: seq<Written>, w: Written)
    requires AllWritten(done) && AllFit(w.tags)
    ensures AllWritten(done + [w])
    ensures Published(before, start, done + [w]) == Published(before, start, done)[start + |done| := PartBytes(w.tags, w.base)]
  {
    assert (done + [w])[..|done|] == done;
  }

  function TagsOf(done: seq<Written>): (r: seq<seq<FlvTag>>)
    ensures |r| == |done| && forall k | 0 <= k < |done| :: r[k] == done[k].tags
  {
    seq(|done|, k requires 0 <= k < |done| => done[k].tags)
  }

  lemma NoMediaYet()
    ensures !HasMedia([])
  {
  }

  class PartWriter {
    const start: nat
    ghost const before: map<nat, Bytes>
    ghost const others: set<nat>
    var finals: map<nat, Bytes>
    var partials: set<nat>
    var part: OpenPart?
    var configuration: Option<Bytes>
    var audio: Option<FlvTag>
    var paths: seq<nat>
    var timings: seq<seq<Replay>>
    ghost var done: seq<Written>
    ghost var seen: seq<seq<FlvTag>>

    /** Finished parts are published under consecutive numbers, each with its replay report. */
    ghost predicate Shelf()
      reads this
    {
      && |paths| == |timings| == |done| == |seen|
      && (forall k | 0 <= k < |paths| :: paths[k] == start + k && paths[k] !in before && paths[k] !in others)
      && AllWritten(done) && finals == Published(before, start, done)
      && forall k | 0 <= k < |timings| :: Reports(timings[k], seen[k])
    }

    /** The one partial file of ours is the open part's. */
    ghost predicate Held()
      reads this, part
    {
      if part == null then partials == others
      else
        && part.Valid() && part.index == start + |done| && part.index !in others && part.index !in before
        && partials == others + {part.index}
    }

    /** The open part holds the tags that the model's part holds. */
    ghost predicate Follows(p: Part)
      reads this, part
      requires part != null
    {
      && part.configurationTag == p.header && part.started == p.started
      && part.observed == part.written == (if p.started then p.written.tags else [])
      && (p.started ==> part.baseTimestamp == p.written.base && HasMedia(part.written))
    }

    ghost predicate Mirrors(w: Writer)
      reads this, part
    {
      && configuration == w.configuration && audio == w.audio && done == w.retained && seen == TagsOf(done)
      && (part == null <==> w.part.None?) && (part != null ==> Follows(w.part.value))
    }

    constructor (finals: map<nat, Bytes>, partials: set<nat>, start: nat)
      ensures Shelf() && Held() && Mirrors(Idle)
      ensures this.start == start && before == finals && others == partials && part == null
    {
      this.start := start;
      this.before, this.others := finals, partials;
      this.finals, this.partials := finals, partials;
      this.part := null;
      this.configuration, this.audio := None, None;
      this.paths, this.timings, this.done, this.seen := [], [], [], [];
    }

    /** Publish the open part when it holds media; drop it otherwise. */
    method ClosePart()
      requires Shelf() && Held()
      modifies this`finals, this`partials, this`part, this`paths, this`timings, this`done, this`seen, part
      ensures Shelf() && part == null && partials == others
      ensures done == old(DoneOnClose()) && seen == old(SeenOnClose())
    {
      hide Published, PartBytes, HasMedia, AllWritten, Reports, AllFit;
      if part == null { return; }
      part.FinishAll();
      if part.mediaTagCount > 0 {
        PublishedSnoc(before, start, done, Written(part.baseTimestamp, part.written));
        finals := finals[part.index := part.contents];
        paths := paths + [part.index];
        timings := timings + [part.replays];
        done := done + [Written(part.baseTimestamp, part.written)];
        seen := seen + [part.observed];
      }
      partials := partials - {part.index};
      part := null;
    }

    /** Start the next number, unless something already has its name. */
    method OpenNext(tag: FlvTag) returns (ok: bool)
      requires Shelf() && part == null && partials == others
      modifies this`partials, this`part
      ensures Held()
      ensures if ok then part != null && fresh(part) && Follows(Part(tag, false, Written(0, [])))
              else part == null && (start + |done| in before || start + |done| in others)
    {
      hide PartBytes, HasMedia, AllWritten, Reports, AllFit;
      var index := start + |paths|;
      PublishedFiles(before, start, done, index);
      if index in finals || index in partials { return false; }
      assert index !in before;
      part := new OpenPart(index, tag);
      partials := partials + {index};
      return true;
    }

    /** What a failed write leaves: the model's part as it was, perhaps with some of its headers already out. */
    ghost predicate Fails(w: Writer, tag: FlvTag)
      reads this, part
    {
      && done == w.retained && seen == TagsOf(done) && part != null && w.part.Some?
      && if w.part.value.started then
           && HasMedia(part.written) && w.part.value.written == Written(part.baseTimestamp, part.written)
           && part.observed == part.written + [tag]
         else !HasMedia(part.written)
    }

    /** Append a tag to the started part. */
    method Continue(tag: FlvTag, ghost w: Writer) returns (ok: bool)
      requires Held() && Mirrors(w) && part != null && part.started
      modifies part
      ensures Held() && ok == Fits(tag)
      ensures ok ==> Mirrors(w.(part := Some(Append(w.part.value, tag))))
      ensures !ok ==> Fails(w, tag)
    {
      hide PartBytes, HasMedia, AllFit, Fits, TagsOf;
      ok := part.WriteTag(tag, true);
      MediaSnoc(old(part.written), tag);
    }

    /** The rendition's own header, then the latest audio header. */
    method WriteHeaders() returns (ok: bool)
      requires part != null && part.Valid() && part.observed == part.written == []
      requires !IsMedia(part.configurationTag) && (audio.Some? ==> !IsMedia(audio.value))
      modifies part
      ensures part.Valid() && !HasMedia(part.written) && part.started == old(part.started)
      ensures part.baseTimestamp == old(part.baseTimestamp) && part.configurationTag == old(part.configurationTag)
      ensures ok == AllFit([part.configurationTag] + OneOrNone(audio))
      ensures ok ==> part.observed == part.written == [part.configurationTag] + OneOrNone(audio)
    {
      hide PartBytes, HasMedia, Fits, WriterParts.OpenPart.Watched;
      NoMediaYet();
      MediaSnoc([], part.configurationTag);
      ok := part.WriteTag(part.configurationTag, false);
      if !ok { return; }
      if audio.Some? {
        MediaSnoc(part.written, audio.value);
        ok := part.WriteTag(audio.value, false);
      }
    }

    /** The keyframe: the part's own headers go out at its own clock, then the keyframe itself. */
    method Begin(tag: FlvTag, ghost w: Writer) returns (ok: bool)
      requires Held() && Mirrors(w) && part != null && !part.started && IsVideoKeyframe(tag)
      requires w.part.value.header.tagType == VIDEO && IsConfiguration(w.part.value.header)
      requires w.audio.Some? ==> IsConfiguration(w.audio.value)
      modifies part
      ensures Held()
      ensures ok == AllFit([w.part.value.header] + OneOrNone(w.audio) + [tag])
      ensures ok ==> Mirrors(w.(part := Some(Part(w.part.value.header, true,
                         Written(tag.timestamp, [w.part.value.header] + OneOrNone(w.audio) + [tag])))))
      ensures !ok ==> Fails(w, tag)
    {
      hide PartBytes, TagsOf, HasMedia, Fits, WriterParts.OpenPart.Watched;
      part.Rebase(tag.timestamp);
      ok := WriteHeaders();
      if !ok { return; }
      MediaSnoc(part.written, tag);
      part.started := true;
      ok := part.WriteTag(tag, true);
    }

    /** A changed rendition closes the open part and opens the next one. */
    method Change(tag: FlvTag, ghost w: Writer) returns (ok: bool)
      requires Shelf() && Held() && Mirrors(w)
      modifies this`finals, this`partials, this`part, this`paths, this`timings, this`done, this`seen,
               this`configuration, part
      ensures Shelf() && Held() && (part != null ==> fresh(part))
      ensures ok ==> Mirrors(w.(retained := Closed(w), part := Some(Part(tag, false, Written(0, []))),
                                configuration := Some(Configuration(tag))))
      ensures !ok ==> part == null && done == Closed(w) && seen == TagsOf(done)
                      && (start + |done| in before || start + |done| in others)
    {
      hide PartBytes, Published, AllWritten, Reports, AllFit, Configuration;
      MirrorsCloses(w);
      ClosePart();
      ok := OpenNext(tag);
      if ok { configuration := Some(Configuration(tag)); }
    }

    /** One source tag, in the writer's own order of cases. */
    method Take(tag: FlvTag, ghost w: Writer) returns (stop: Option<Stop>)
      requires Shelf() && Held() && Mirrors(w) && Typed(w)
      modifies this, part
      ensures Shelf() && Held() && (part != null ==> part == old(part) || fresh(part))
      ensures stop.None? ==> Mirrors(Step(w, tag))
      ensures stop == Some(Blocked) ==>
                IsAvcConfiguration(tag) && w.configuration != Some(Configuration(tag)) && part == null
                && done == Closed(w) && seen == TagsOf(done) && (start + |done| in before || start + |done| in others)
      ensures stop == Some(Oversized) ==> Fails(w, tag) && !(Fits(tag) && HeadersFit(w))
      ensures stop != Some(InvalidStart)
    {
      hide PartBytes, Published, AllWritten, Reports, AllFit, Configuration, HasMedia, Fits, TagsOf;
      var ok := true;
      if IsAudioConfiguration(tag) {
        audio := Some(tag);
        if part != null && part.started { ok := Continue(tag, w.(audio := Some(tag))); }
      } else if IsAvcConfiguration(tag) {
        if configuration != Some(Configuration(tag)) {
          ok := Change(tag, w);
          return if ok then None else Some(Blocked);
        } else if part == null {
        } else if part.started {
          ok := Continue(tag, w);
        } else {
          part.configurationTag := tag;
        }
      } else if part == null {
      } else if part.started {
        ok := Continue(tag, w);
      } else if !IsVideoKeyframe(tag) {
      } else {
        HeadersFitMeans(w, tag);
        ok := Begin(tag, w);
      }
      return if ok then None else Some(Oversized);
    }

    /** Where a call can stop, before the last part is closed. */
    ghost predicate Ended(tags: seq<FlvTag>, stopped: nat, stop: Option<Stop>)
      reads this, part
      requires stopped <= |tags|
    {
      var w := Run(tags[..stopped]);
      match stop
      case None => Mirrors(w) && stopped == |tags|
      case Some(InvalidStart) => false
      case Some(Blocked) =>
        && stopped < |tags| && ChangesAt(tags, stopped) && part == null && done == Closed(w) && seen == TagsOf(done)
        && (start + |done| in before || start + |done| in others)
      case Some(Oversized) => stopped < |tags| && Fails(w, tags[stopped]) && !AllFit(tags[..stopped + 1])
    }

    /** Take source tags until one of them cannot be taken. */
    method Consume(tags: seq<FlvTag>) returns (stop: Option<Stop>, stopped: nat)
      requires Shelf() && Held() && Mirrors(Idle) && part == null
      modifies this
      ensures Shelf() && Held() && (part != null ==> fresh(part))
      ensures stopped <= |tags| && Ended(tags, stopped, stop)
    {
      hide *;
      stopped := 0;
      NothingTaken(tags);
      while stopped < |tags|
        invariant stopped <= |tags| && (part != null ==> fresh(part))
        invariant Shelf() && Held() && Mirrors(Run(tags[..stopped]))
      {
        RunIsTyped(tags[..stopped]);
        stop := Take(tags[stopped], Run(tags[..stopped]));
        if stop.Some? {
          StopsAt(tags, stopped, stop);
          return;
        }
        RunSnoc(tags, stopped);
        stopped := stopped + 1;
      }
      stop := None;
      MirrorsEnds(tags);
    }

    lemma MirrorsEnds(tags: seq<FlvTag>)
      requires Mirrors(Run(tags[..|tags|]))
      ensures Ended(tags, |tags|, None)
    {
    }

    lemma StopsAt(tags: seq<FlvTag>, k: nat, stop: Option<Stop>)
      requires k < |tags| && stop.Some? && stop != Some(InvalidStart)
      requires var w, tag := Run(tags[..k]), tags[k];
               && (AllFit(tags[..k]) ==> HeadersFit(w))
               && (stop == Some(Blocked) ==>
                     IsAvcConfiguration(tag) && w.configuration != Some(Configuration(tag)) && part == null
                     && done == Closed(w) && seen == TagsOf(done) && (start + |done| in before || start + |done| in others))
               && (stop == Some(Oversized) ==> Fails(w, tag) && !(Fits(tag) && HeadersFit(w)))
      ensures Ended(tags, k, stop)
    {
      hide Run, Configuration, IsAvcConfiguration, Fails, ChangesAt, HeadersFit, Fits;
      if stop == Some(Blocked) { ChangeMeans(tags, k); }
      assert tags[..k + 1][..k] == tags[..k] && tags[..k + 1][k] == tags[k];
      FitPrefix(tags[..k + 1]);
    }

    lemma Concludes(tags: seq<FlvTag>, stopped: nat, stop: Option<Stop>)
      requires stopped <= |tags| && Shelf()
      requires done == Retained(tags[..stopped]) && SawWindows(tags, stopped, stop, seen)
      requires stop.None? ==> stopped == |tags|
      requires stop == Some(Blocked) ==> ChangesAt(tags, stopped) && (start + |done| in before || start + |done| in others)
      requires stop == Some(Oversized) ==> stopped < |tags| && !AllFit(tags[..stopped + 1])
      ensures Leaves(tags, start, before, others, paths, timings, finals, stop, stopped)
    {
      hide Retained, Reports, Published, AllWritten, Unwritten, ChangesAt, AllFit;
    }

    ghost function DoneOnClose(): seq<Written>
      reads this, part
    {
      if part != null && HasMedia(part.written) then done + [Written(part.baseTimestamp, part.written)] else done
    }

    ghost function SeenOnClose(): seq<seq<FlvTag>>
      reads this, part
    {
      if part != null && HasMedia(part.written) then seen + [part.observed] else seen
    }

    lemma MirrorsCloses(w: Writer)
      requires Mirrors(w)
      ensures DoneOnClose() == Closed(w) && SeenOnClose() == TagsOf(Closed(w))
    {
      assert !HasMedia([]);
    }

    lemma FailsCloses(w: Writer, tag: FlvTag)
      requires Fails(w, tag)
      ensures DoneOnClose() == Closed(w) && |SeenOnClose()| == |Closed(w)|
      ensures w.part.Some?
      ensures forall k | 0 <= k < |Closed(w)| ::
                SeenOnClose()[k] == Closed(w)[k].tags + if w.part.value.started && k == |Closed(w)| - 1 then [tag] else []
    {
      hide HasMedia;
    }

    /** Closing the last part then leaves exactly the windows of the tags taken. */
    lemma ClosesToWindows(tags: seq<FlvTag>, stopped: nat, stop: Option<Stop>)
      requires stopped <= |tags| && Ended(tags, stopped, stop)
      ensures (stop.None? ==> stopped == |tags|) && stop != Some(InvalidStart)
      ensures stop == Some(Blocked) ==>
                ChangesAt(tags, stopped)
                && (start + |DoneOnClose()| in before || start + |DoneOnClose()| in others)
      ensures stop == Some(Oversized) ==> stopped < |tags| && !AllFit(tags[..stopped + 1])
      ensures var d := Retained(tags[..stopped]);
              DoneOnClose() == d && SawWindows(tags, stopped, stop, SeenOnClose())
    {
      hide Run, AllFit, ChangesAt, Retained, Fails, Mirrors, DoneOnClose, SeenOnClose, Closed, Unwritten, TagsOf, HasMedia;
      var w := Run(tags[..stopped]);
      match stop
      case None =>
        MirrorsCloses(w);
        ClosedCleanly(tags, stopped, stop, SeenOnClose());
      case Some(Blocked) =>
        BlockedCloses();
        ClosedCleanly(tags, stopped, stop, SeenOnClose());
      case Some(InvalidStart) =>
      case Some(Oversized) =>
        FailsCloses(w, tags[stopped]);
        ClosedOversized(tags, stopped, SeenOnClose());
    }

    lemma BlockedCloses()
      requires part == null
      ensures DoneOnClose() == done && SeenOnClose() == seen
    {
    }
  }

  /** What the observers saw of each window's part. */
  ghost predicate SawWindows(tags: seq<FlvTag>, stopped: nat, stop: Option<Stop>, seen: seq<seq<FlvTag>>)
    requires stopped <= |tags|
  {
    var d := Retained(tags[..stopped]);
    |seen| == |d| && forall k | 0 <= k < |d| :: seen[k] == d[k].tags + Unwritten(tags, stopped, stop, k)
  }

  lemma ClosedCleanly(tags: seq<FlvTag>, stopped: nat, stop: Option<Stop>, seen: seq<seq<FlvTag>>)
    requires stopped <= |tags| && stop != Some(Oversized) && seen == TagsOf(Closed(Run(tags[..stopped])))
    ensures Closed(Run(tags[..stopped])) == Retained(tags[..stopped]) && SawWindows(tags, stopped, stop, seen)
  {
    hide Run, Windows, WrittenAll, Closed;
    RetainedAreWindows(tags[..stopped]);
  }

  lemma ClosedOversized(tags: seq<FlvTag>, stopped: nat, seen: seq<seq<FlvTag>>)
    requires stopped < |tags|
    requires var w := Run(tags[..stopped]);
             var d := Closed(w);
             && w.part.Some? && |seen| == |d|
             && forall k | 0 <= k < |d| ::
                  seen[k] == d[k].tags + if w.part.value.started && k == |d| - 1 then [tags[stopped]] else []
    ensures Closed(Run(tags[..stopped])) == Retained(tags[..stopped]) && SawWindows(tags, stopped, Some(Oversized), seen)
  {
    hide Run, Windows, WrittenAll, Closed;
    RetainedAreWindows(tags[..stopped]);
    OpenAtTheEnd(tags[..stopped]);
    OneWindowReachesTheEnd(tags[..stopped]);
  }

  lemma OneWindowReachesTheEnd(tags: seq<FlvTag>)
    ensures var ws := Windows(tags); forall k | 0 <= k < |ws| - 1 :: ws[k].end < |tags|
  {
    WindowsAreOrdered(tags);
    var ws := Windows(tags);
    forall k | 0 <= k < |ws| - 1 ensures ws[k].end < |tags| {
      hide Windows;
      assert ws[|ws| - 1] in ws;
    }
  }

  /** A part's header is a video header and the latest audio header is one of sound. */
  ghost predicate Typed(w: Writer) {
    && (w.part.Some? ==> w.part.value.header.tagType == VIDEO && IsConfiguration(w.part.value.header))
    && (w.audio.Some? ==> IsConfiguration(w.audio.value))
  }

  ghost predicate HeadersFit(w: Writer) {
    (w.part.Some? ==> Fits(w.part.value.header)) && (w.audio.Some? ==> Fits(w.audio.value))
  }

  lemma HeadersFitMeans(w: Writer, tag: FlvTag)
    requires w.part.Some?
    ensures HeadersFit(w) && Fits(tag) ==> AllFit([w.part.value.header] + OneOrNone(w.audio) + [tag])
  {
  }

  lemma {:induction false} RunIsTyped(tags: seq<FlvTag>)
    ensures Typed(Run(tags)) && (AllFit(tags) ==> HeadersFit(Run(tags)))
  {
    if tags != [] {
      var n := |tags| - 1;
      RunIsTyped(tags[..n]);
      TypedStep(Run(tags[..n]), tags[n]);
      FitPrefix(tags);
    }
  }

  lemma FitPrefix(tags: seq<FlvTag>)
    requires tags != []
    ensures AllFit(tags) <==> AllFit(tags[..|tags| - 1]) && Fits(tags[|tags| - 1])
  {
    assert tags == tags[..|tags| - 1] + [tags[|tags| - 1]];
  }

  lemma TypedStep(w: Writer, t: FlvTag)
    requires Typed(w)
    ensures Typed(Step(w, t)) && (HeadersFit(w) && Fits(t) ==> HeadersFit(Step(w, t)))
  {
  }

  lemma ChangeMeans(tags: seq<FlvTag>, k: nat)
    requires k < |tags| && IsAvcConfiguration(tags[k])
    requires Run(tags[..k]).configuration != Some(Configuration(tags[k]))
    ensures ChangesAt(tags, k)
  {
    hide Run, Configuration, IsAvcConfiguration;
    RunRepresents(tags[..k]);
    assert tags[..k + 1][..k] == tags[..k] && tags[..k + 1][k] == tags[k];
  }

  /** The part open at the end has passed its gate exactly when the last window reaches the end. */
  lemma OpenAtTheEnd(tags: seq<FlvTag>)
    ensures var w, ws := Run(tags), Windows(tags);
            (w.part.Some? && w.part.value.started) <==> (ws != [] && ws[|ws| - 1].end == |tags|)
  {
    hide Run;
    RunRepresents(tags);
    match LastChange(tags)
    case None =>
    case Some(a) =>
      if Gate(tags, a).None? {
        assert Windows(tags) == Windows(tags[..a]);
      }
  }

  /** The windows retained when a call stops, each with its part's tags. */
  function Retained(tags: seq<FlvTag>): seq<Written> { WrittenAll(tags, Windows(tags)) }

  /** The tag that was observed but could not be written, if that is what stopped the call. */
  function Unwritten(tags: seq<FlvTag>, stopped: nat, stop: Option<Stop>, k: nat): seq<FlvTag>
    requires stopped <= |tags| && k < |Windows(tags[..stopped])|
  {
    if stop == Some(Oversized) && stopped < |tags| && Windows(tags[..stopped])[k].end == stopped then [tags[stopped]] else []
  }

  /** What a call leaves: the windows of the tags it took, once each, under consecutive new numbers. */
  ghost predicate Leaves(tags: seq<FlvTag>, start: nat, finals: map<nat, Bytes>, partials: set<nat>, paths: seq<nat>,
                         timings: seq<seq<Replay>>, finalsAfter: map<nat, Bytes>, stop: Option<Stop>, stopped: nat)
    requires stopped <= |tags|
  {
    var done := Retained(tags[..stopped]);
    && AllWritten(done) && finalsAfter == Published(finals, start, done)
    && |paths| == |timings| == |done|
    && (forall k | 0 <= k < |paths| :: paths[k] == start + k && paths[k] !in finals && paths[k] !in partials)
    && (forall k | 0 <= k < |done| :: Reports(timings[k], done[k].tags + Unwritten(tags, stopped, stop, k)))
    && (stop.None? ==> stopped == |tags|)
    && (stop == Some(Blocked) ==> ChangesAt(tags, stopped) && (start + |done| in finals || start + |done| in partials))
    && (stop == Some(Oversized) ==> stopped < |tags| && !AllFit(tags[..stopped + 1]))
  }

  method WriteFrom(tags: seq<FlvTag>, start: nat, finals: map<nat, Bytes>, partials: set<nat>)
    returns (paths: seq<nat>, timings: seq<seq<Replay>>, finalsAfter: map<nat, Bytes>, partialsAfter: set<nat>,
             stop: Option<Stop>, stopped: nat)
    ensures stopped <= |tags| && partialsAfter == partials && stop != Some(InvalidStart)
    ensures Leaves(tags, start, finals, partials, paths, timings, finalsAfter, stop, stopped)
  {
    hide *;
    var w := new PartWriter(finals, partials, start);
    stop, stopped := w.Consume(tags);
    w.ClosesToWindows(tags, stopped, stop);
    w.ClosePart();
    w.Concludes(tags, stopped, stop);
    return w.paths, w.timings, w.finals, w.partials, stop, stopped;
  }

  /** Write a whole source: what is left, whatever the tags are and wherever the call stops. */
  method WriteParts(tags: seq<FlvTag>, start: int, finals: map<nat, Bytes>, partials: set<nat>)
    returns (paths: seq<nat>, timings: seq<seq<Replay>>, finalsAfter: map<nat, Bytes>, partialsAfter: set<nat>,
             stop: Option<Stop>, stopped: nat)
    ensures stopped <= |tags| && partialsAfter == partials
    ensures stop == Some(InvalidStart) <==> start < 1
    ensures start < 1 ==> paths == [] && timings == [] && finalsAfter == finals && stopped == 0
    ensures start >= 1 ==> Leaves(tags, start, finals, partials, paths, timings, finalsAfter, stop, stopped)
  {
    hide *;
    if start < 1 { return [], [], finals, partials, Some(InvalidStart), 0; }
    paths, timings, finalsAfter, partialsAfter, stop, stopped := WriteFrom(tags, start, finals, partials);
  }

  lemma NothingTaken(tags: seq<FlvTag>)
    ensures Run(tags[..0]) == Idle
  {
  }

  lemma RunSnoc(tags: seq<FlvTag>, k: nat)
    requires k < |tags|
    ensures Run(tags[..k + 1]) == Step(Run(tags[..k]), tags[k])
  {
    hide Step;
    assert tags[..k + 1][..k] == tags[..k];
  }
}
