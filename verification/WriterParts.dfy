/** The part writer: one open part at a time, appended to tag by tag and published when it closes. */
module WriterParts {
  import opened Wrappers
  import opened Flv
  import opened FlvPrefix
  import opened WriterWindows
  import opened WriterReplays

  // ------------------------------------------------------------- what a part holds

  lemma RebasedFits(tags: seq<FlvTag>, base: nat)
    requires AllFit(tags)
    ensures AllFit(RebasedAll(tags, base))
  {
    forall t | t in RebasedAll(tags, base) ensures Fits(t) {
      var k :| 0 <= k < |tags| && RebasedAll(tags, base)[k] == t;
      assert tags[k] in tags;
    }
  }

  /** A part's file: the writer's header, then its tags on the part's own clock. */
  function PartBytes(tags: seq<FlvTag>, base: nat): Bytes
    requires AllFit(tags)
  {
    RebasedFits(tags, base);
    WRITER_HEADER + EncodeAll(RebasedAll(tags, base))
  }

  lemma AppendBytes(tags: seq<FlvTag>, t: FlvTag, base: nat)
    requires AllFit(tags) && Fits(t)
    ensures AllFit(tags + [t]) && PartBytes(tags + [t], base) == PartBytes(tags, base) + Encoded(Rebased(t, base))
  {
    hide Encoded, EncodeAll;
    RebasedFits(tags, base);
    RebasedFits([t], base);
    assert AllFit([t]) && AllFit(tags + [t]);
    assert RebasedAll(tags + [t], base) == RebasedAll(tags, base) + RebasedAll([t], base);
    EncodeAllConcat(RebasedAll(tags, base), RebasedAll([t], base));
    EncodeOne(Rebased(t, base));
    assert RebasedAll([t], base) == [Rebased(t, base)];
  }

  lemma EncodeOne(t: FlvTag)
    requires Fits(t)
    ensures AllFit([t]) && EncodeAll([t]) == Encoded(t)
  {
    hide Encoded;
    assert [t][1..] == [];
    assert EncodeAll([]) == [];
  }

  predicate HasMedia(tags: seq<FlvTag>) { exists t | t in tags :: IsMedia(t) }

  /** What the observer of one stream sees of a part: its media tags under their ordinals. */
  function SeenIn(stream: Byte, part: seq<FlvTag>): seq<Seen> {
    if part == [] then []
    else
      var n := |part| - 1;
      SeenIn(stream, part[..n])
      + if IsMedia(part[n]) && part[n].tagType == stream then [Seen(n + 1, part[n].timestamp)] else []
  }

  function OfStream(stream: Byte, replays: seq<Replay>): seq<Replay> {
    if replays == [] then []
    else
      var n := |replays| - 1;
      OfStream(stream, replays[..n]) + if replays[n].stream == stream then [replays[n]] else []
  }

  function Lookup<V>(m: map<Byte, V>, stream: Byte): Option<V> { if stream in m then Some(m[stream]) else None }

  /** The replays recorded for a part are, stream by stream, the maximal replays of its media tags. */
  ghost predicate Reports(replays: seq<Replay>, part: seq<FlvTag>) {
    forall stream: Byte :: ReportsStream(replays, part, stream)
  }

  ghost predicate ReportsStream(replays: seq<Replay>, part: seq<FlvTag>, stream: Byte) {
    var s := SeenIn(stream, part);
    (forall i | i in Intervals(s, 0) :: 0 < i.start < i.end <= |s|)
    && OfStream(stream, replays) == Records(stream, s, Intervals(s, 0))
  }

  lemma OfStreamSnoc(stream: Byte, replays: seq<Replay>, r: Replay)
    ensures OfStream(stream, replays + [r]) == OfStream(stream, replays) + if r.stream == stream then [r] else []
  {
    assert (replays + [r])[..|replays|] == replays;
  }

  lemma SeenInSnoc(stream: Byte, part: seq<FlvTag>, t: FlvTag)
    ensures SeenIn(stream, part + [t]) ==
            SeenIn(stream, part) + if IsMedia(t) && t.tagType == stream then [Seen(|part| + 1, t.timestamp)] else []
  {
    assert (part + [t])[..|part|] == part;
  }

  lemma TicksSnoc(stream: Byte, s: seq<Seen>, x: Seen)
    ensures Ticks(stream, s + [x]) == Tick(stream, Ticks(stream, s), x)
  {
    assert (s + [x])[..|s|] == s;
  }

  // ---------------------------------------------------------------- one open part

  class OpenPart {
    const index: nat
    var configurationTag: FlvTag
    var baseTimestamp: nat
    var started: bool
    var mediaTagCount: nat
    var tagPosition: nat
    var lastObserved: map<Byte, nat>
    var pending: map<Byte, Pending>
    var replays: seq<Replay>
    var contents: Bytes
    ghost var written: seq<FlvTag>
    ghost var observed: seq<FlvTag>

    function ClockOf(stream: Byte): Clock
      reads `lastObserved, `pending, `replays
    {
      Clock(Lookup(lastObserved, stream), Lookup(pending, stream), OfStream(stream, replays))
    }

    /** Every stream's observer is where its part's media tags bring it. */
    ghost predicate Watched(part: seq<FlvTag>)
      reads `lastObserved, `pending, `replays
    {
      forall stream: Byte :: ClockOf(stream) == Ticks(stream, SeenIn(stream, part))
    }

    ghost predicate Valid()
      reads this
    {
      && AllFit(written) && contents == PartBytes(written, baseTimestamp)
      && (mediaTagCount > 0 <==> HasMedia(written))
      && tagPosition == |observed| && Watched(observed)
    }

    /** A new partial file holds just the header. */
    constructor (index: nat, configurationTag: FlvTag)
      ensures Valid() && this.index == index && this.configurationTag == configurationTag
      ensures written == [] && observed == [] && !started
    {
      this.index := index;
      this.configurationTag := configurationTag;
      this.baseTimestamp := 0;
      this.started := false;
      this.mediaTagCount := 0;
      this.tagPosition := 0;
      this.lastObserved := map[];
      this.pending := map[];
      this.replays := [];
      this.contents := WRITER_HEADER;
      this.written := [];
      this.observed := [];
      new;
      assert RebasedAll([], 0) == [];
    }

    /** The keyframe fixes the part's clock before anything is written. */
    method Rebase(timestamp: nat)
      requires Valid() && written == []
      modifies `baseTimestamp
      ensures Valid() && baseTimestamp == timestamp
    {
      assert RebasedAll([], timestamp) == RebasedAll([], baseTimestamp);
      baseTimestamp := timestamp;
    }

    method FinishReplay(stream: Byte, recovered: bool)
      modifies `pending, `replays
      ensures pending == old(pending) - {stream}
      ensures replays == old(replays) +
                         if stream in old(pending) then [Event(stream, old(pending)[stream], recovered)] else []
      ensures forall s: Byte ::
                OfStream(s, replays) == OfStream(s, old(replays)) +
                                        if s == stream && s in old(pending) then [Event(s, old(pending)[s], recovered)] else []
    {
      hide OfStream;
      if stream in pending {
        var event := Event(stream, pending[stream], recovered);
        pending := pending - {stream};
        forall s: Byte ensures OfStream(s, replays + [event]) == OfStream(s, replays) + if s == stream then [event] else [] {
          OfStreamSnoc(s, replays, event);
        }
        replays := replays + [event];
      }
    }

    /** One media tag moves the observer of its own stream, and no other. */
    method Observe(tag: FlvTag)
      modifies `lastObserved, `pending, `replays
      ensures forall stream: Byte ::
                ClockOf(stream) == if stream == tag.tagType
                                   then Tick(stream, old(ClockOf(stream)), Seen(tagPosition, tag.timestamp))
                                   else old(ClockOf(stream))
    {
      hide OfStream, Event;
      var stream := tag.tagType;
      if stream in pending {
        var replay := pending[stream];
        if tag.timestamp <= replay.previous {
          pending := pending[stream := replay.(count := replay.count + 1)];
          return;
        }
        FinishReplay(stream, true);
      }
      if stream in lastObserved {
        var previous := lastObserved[stream];
        if tag.timestamp < previous {
          pending := pending[stream := Pending(tagPosition, previous, tag.timestamp, 1)];
          return;
        }
      }
      lastObserved := lastObserved[stream := tag.timestamp];
    }

    /** Count the tag and, when it is observed media, let its stream's observer see it. */
    method Notice(tag: FlvTag, observe: bool)
      requires tagPosition == |observed| && Watched(observed) && (observe || !IsMedia(tag))
      modifies `tagPosition, `observed, `lastObserved, `pending, `replays
      ensures tagPosition == |observed| && Watched(observed) && observed == old(observed) + [tag]
    {
      hide *;
      tagPosition := tagPosition + 1;
      WatchedNext(tag);
      if observe && IsMedia(tag) { Observe(tag); }
      observed := observed + [tag];
      IsWatched(observed);
    }

    /** Append one tag on the part's clock; an oversized payload is observed but not written. */
    method WriteTag(tag: FlvTag, observe: bool) returns (ok: bool)
      requires Valid() && (observe || !IsMedia(tag))
      modifies this
      ensures Valid() && ok == Fits(tag) && observed == old(observed) + [tag]
      ensures written == if ok then old(written) + [tag] else old(written)
      ensures configurationTag == old(configurationTag) && baseTimestamp == old(baseTimestamp) && started == old(started)
    {
      hide PartBytes, EncodeAll, Encoded, HasMedia, Watched, AllFit, Fits;
      Notice(tag, observe);
      var bytes := Encode(tag, baseTimestamp);
      if bytes.PayloadTooLarge? { return false; }
      AppendBytes(written, tag, baseTimestamp);
      MediaSnoc(written, tag);
      contents := contents + bytes.bytes;
      written := written + [tag];
      if IsMedia(tag) { mediaTagCount := mediaTagCount + 1; }
      return true;
    }

    lemma IsWatched(part: seq<FlvTag>)
      requires forall stream: Byte :: ClockOf(stream) == Ticks(stream, SeenIn(stream, part))
      ensures Watched(part)
    {
    }

    lemma WatchedNext(tag: FlvTag)
      requires Watched(observed)
      ensures forall stream: Byte ::
                Ticks(stream, SeenIn(stream, observed + [tag])) ==
                if IsMedia(tag) && stream == tag.tagType
                then Tick(stream, ClockOf(stream), Seen(|observed| + 1, tag.timestamp)) else ClockOf(stream)
    {
      forall stream: Byte
        ensures Ticks(stream, SeenIn(stream, observed + [tag])) ==
                if IsMedia(tag) && stream == tag.tagType
                then Tick(stream, ClockOf(stream), Seen(|observed| + 1, tag.timestamp)) else ClockOf(stream)
      {
        hide Tick, Ticks, SeenIn, IsMedia, ClockOf;
        SeenInSnoc(stream, observed, tag);
        TicksSnoc(stream, SeenIn(stream, observed), Seen(|observed| + 1, tag.timestamp));
        assert SeenIn(stream, observed) + [] == SeenIn(stream, observed);
      }
    }

    lemma WatchedMeans()
      requires Watched(observed)
      ensures forall s: Byte ::
                Clock(Lookup(lastObserved, s), Lookup(pending, s), OfStream(s, replays)) == Ticks(s, SeenIn(s, observed))
    {
      forall s: Byte
        ensures Clock(Lookup(lastObserved, s), Lookup(pending, s), OfStream(s, replays)) == Ticks(s, SeenIn(s, observed))
      {
        hide Ticks, SeenIn, OfStream, Lookup;
        assert ClockOf(s) == Ticks(s, SeenIn(s, observed));
      }
    }

    /** Close the observers: what is still pending is reported as not recovered. */
    method FinishAll()
      requires Watched(observed)
      modifies `pending, `replays
      ensures pending == map[] && Reports(replays, observed)
    {
      hide OfStream, Reports, Ticks, SeenIn, Event, OpenPart.Watched, OpenPart.ClockOf, Lookup;
      WatchedMeans();
      ghost var last, before, held := lastObserved, replays, pending;
      var open := pending.Keys;
      while open != {}
        invariant open <= held.Keys && pending == held - (held.Keys - open)
        invariant forall s: Byte :: OfStream(s, replays) == OfStream(s, before) + Unrecovered(held, held.Keys - open, s)
        decreases |open|
      {
        var stream :| stream in open;
        FinishReplay(stream, false);
        open := open - {stream};
        UnrecoveredNext(held, held.Keys - open, stream);
      }
      AllReported(replays, observed, last, held, before);
    }
  }

  /** The event of a replay that was still pending when its part closed. */
  function Unrecovered(held: map<Byte, Pending>, finished: set<Byte>, stream: Byte): seq<Replay>
    requires finished <= held.Keys
  {
    if stream in finished then [Event(stream, held[stream], false)] else []
  }

  lemma UnrecoveredNext(held: map<Byte, Pending>, finished: set<Byte>, stream: Byte)
    requires finished <= held.Keys && stream in finished
    ensures forall s: Byte ::
              Unrecovered(held, finished, s) ==
              Unrecovered(held, finished - {stream}, s) + if s == stream then [Event(s, held[s], false)] else []
  {
  }

  lemma MediaSnoc(tags: seq<FlvTag>, t: FlvTag)
    ensures HasMedia(tags + [t]) <==> HasMedia(tags) || IsMedia(t)
  {
    if HasMedia(tags) {
      var m :| m in tags && IsMedia(m);
      assert m in tags + [t];
    }
    assert t in tags + [t];
  }

  lemma AllReported(replays: seq<Replay>, part: seq<FlvTag>, last: map<Byte, nat>, pending: map<Byte, Pending>,
                    before: seq<Replay>)
    requires forall s: Byte :: Clock(Lookup(last, s), Lookup(pending, s), OfStream(s, before)) == Ticks(s, SeenIn(s, part))
    requires forall s: Byte :: OfStream(s, replays) == OfStream(s, before) + Unrecovered(pending, pending.Keys, s)
    ensures Reports(replays, part)
  {
    forall s: Byte ensures ReportsStream(replays, part, s) {
      hide Ticks, SeenIn, OfStream, Intervals, Records, Event;
      ReportedAreTheReplays(s, SeenIn(s, part));
    }
  }
}
