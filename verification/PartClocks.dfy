/** What plays when a retained part is read back: which source tags, and when. */
module PartClocks {
  import opened Wrappers
  import opened Flv
  import opened WriterWindows
  import opened WriterParts
  import opened PartStructure
  import opened WriterReplays
  import opened PartWriters

  /** Everything of a tag but its time. */
  predicate SameContent(a: FlvTag, b: FlvTag) {
    a.tagType == b.tagType && a.streamId == b.streamId && a.payload == b.payload
  }

  /** Tag `c` is the last one of its kind before the gate. */
  predicate LastAvcBefore(tags: seq<FlvTag>, gate: nat, c: int) {
    0 <= c < gate <= |tags| && IsAvcConfiguration(tags[c]) && forall k | c < k < gate :: !IsAvcConfiguration(tags[k])
  }

  predicate LastAudioBefore(tags: seq<FlvTag>, gate: nat, c: int) {
    0 <= c < gate <= |tags| && IsAudioConfiguration(tags[c]) && forall k | c < k < gate :: !IsAudioConfiguration(tags[k])
  }

  /** A rendition changes at an AVC header whose decoder configuration, the payload behind its first five bytes, is
      not that of the AVC header before it. */
  lemma ChangesAtAnotherConfiguration(tags: seq<FlvTag>, k: nat)
    requires k < |tags| && IsAvcConfiguration(tags[k]) && |tags[k].payload| > 5
    ensures ChangesAt(tags, k) <==>
              forall c | LastAvcBefore(tags, k, c) && |tags[c].payload| >= 5 :: tags[c].payload[5..] != tags[k].payload[5..]
  {
    hide IsAvcConfiguration, LatestAvc;
    assert tags[..k + 1][..k] == tags[..k];
    HeadersBefore(tags, k);
    NoneBefore(tags[..k]);
    assert forall c | 0 <= c < k :: tags[..k][c] == tags[c];
    forall c, d | LastAvcBefore(tags, k, c) && LastAvcBefore(tags, k, d) ensures c == d {}
    if LatestAvc(tags[..k]).Some? {
      var c :| LastAvcBefore(tags, k, c) && tags[c] == LatestAvc(tags[..k]).value;
    }
  }

  lemma {:induction false} NoneBefore(tags: seq<FlvTag>)
    ensures LatestAvc(tags).None? ==> forall c | 0 <= c < |tags| :: !IsAvcConfiguration(tags[c])
  {
    if tags != [] {
      NoneBefore(tags[..|tags| - 1]);
      assert forall c | 0 <= c < |tags| - 1 :: tags[..|tags| - 1][c] == tags[c];
    }
  }

  /** On the part's clock the gate is zero, what follows keeps its distance, and nothing is before zero. */
  predicate OnClock(played: int, source: int, gate: int) {
    played >= 0 && (source >= gate ==> played == source - gate) && (source <= gate ==> played == 0)
  }

  /** The headers in force at the gate, then every tag of the window, each on the part's clock. */
  ghost predicate Plays(d: seq<FlvTag>, tags: seq<FlvTag>, w: Window) {
    && w.gate < w.end <= |tags| && IsVideoKeyframe(tags[w.gate])
    && var h := |d| - (w.end - w.gate);
    && 1 <= h <= 2
    && (exists c :: LastAvcBefore(tags, w.gate, c) && SameContent(d[0], tags[c]) && OnClock(d[0].timestamp, tags[c].timestamp, tags[w.gate].timestamp))
    && (h == 1 ==> forall c | 0 <= c < w.gate :: !IsAudioConfiguration(tags[c]))
    && (h == 2 ==> exists c :: LastAudioBefore(tags, w.gate, c) && SameContent(d[1], tags[c])
                               && OnClock(d[1].timestamp, tags[c].timestamp, tags[w.gate].timestamp))
    && forall k | w.gate <= k < w.end ::
         SameContent(d[h + k - w.gate], tags[k]) && OnClock(d[h + k - w.gate].timestamp, tags[k].timestamp, tags[w.gate].timestamp)
  }

  lemma {:induction false} LatestAvcIsLast(tags: seq<FlvTag>)
    ensures LatestAvc(tags).Some? ==>
              exists c :: LastAvcBefore(tags, |tags|, c) && tags[c] == LatestAvc(tags).value
  {
    if tags != [] {
      var n := |tags| - 1;
      if IsAvcConfiguration(tags[n]) {
        assert LastAvcBefore(tags, |tags|, n);
      } else {
        LatestAvcIsLast(tags[..n]);
        if LatestAvc(tags).Some? {
          var c :| LastAvcBefore(tags[..n], n, c) && tags[..n][c] == LatestAvc(tags[..n]).value;
          assert LastAvcBefore(tags, |tags|, c) && tags[c] == tags[..n][c];
        }
      }
    }
  }

  lemma {:induction false} LatestAudioIsLast(tags: seq<FlvTag>)
    ensures LatestAudio(tags).Some? ==>
              exists c :: LastAudioBefore(tags, |tags|, c) && tags[c] == LatestAudio(tags).value
    ensures LatestAudio(tags).None? ==> forall c | 0 <= c < |tags| :: !IsAudioConfiguration(tags[c])
  {
    if tags != [] {
      var n := |tags| - 1;
      if IsAudioConfiguration(tags[n]) {
        assert LastAudioBefore(tags, |tags|, n);
      } else {
        LatestAudioIsLast(tags[..n]);
        if LatestAudio(tags).Some? {
          var c :| LastAudioBefore(tags[..n], n, c) && tags[..n][c] == LatestAudio(tags[..n]).value;
          assert LastAudioBefore(tags, |tags|, c) && tags[c] == tags[..n][c];
        }
        assert forall c | 0 <= c < n :: tags[c] == tags[..n][c];
      }
    }
  }

  lemma HeadersBefore(tags: seq<FlvTag>, gate: nat)
    requires gate <= |tags|
    ensures LatestAvc(tags[..gate]).Some? ==> exists c :: LastAvcBefore(tags, gate, c) && tags[c] == LatestAvc(tags[..gate]).value
    ensures LatestAudio(tags[..gate]).Some? ==>
              exists c :: LastAudioBefore(tags, gate, c) && tags[c] == LatestAudio(tags[..gate]).value
    ensures LatestAudio(tags[..gate]).None? ==> forall c | 0 <= c < gate :: !IsAudioConfiguration(tags[c])
  {
    hide LatestAvc, LatestAudio;
    var p := tags[..gate];
    LatestAvcIsLast(p);
    LatestAudioIsLast(p);
    if LatestAvc(p).Some? {
      var c :| LastAvcBefore(p, gate, c) && p[c] == LatestAvc(p).value;
      assert LastAvcBefore(tags, gate, c) && tags[c] == p[c];
    }
    if LatestAudio(p).Some? {
      var c :| LastAudioBefore(p, gate, c) && p[c] == LatestAudio(p).value;
      assert LastAudioBefore(tags, gate, c) && tags[c] == p[c];
    }
    assert forall c | 0 <= c < gate :: tags[c] == p[c];
  }

  lemma RebasedIsOnClock(t: FlvTag, base: nat)
    ensures SameContent(Rebased(t, base), t) && OnClock(Rebased(t, base).timestamp, t.timestamp, base)
  {
  }

  /** A retained part, read back from its bytes, plays its window on its own clock. */
  lemma RetainedPlays(tags: seq<FlvTag>, w: Window)
    requires w in Windows(tags) && AllFit(PartTags(tags, w))
    ensures w.gate < w.end <= |tags|
    ensures var (d, outcome) := ReadStream(PartBytes(PartTags(tags, w), tags[w.gate].timestamp));
            outcome == Clean && Plays(d, tags, w)
  {
    hide PartTags, Windows, ReadStream, PartBytes, LatestAvc, LatestAudio, Rebased, Accepted, Plays, Split, HeaderIsWhole,
         SoundIsIntroduced;
    RetainedFileIsAccepted(tags, w);
    var n := SplitOf(tags, w);
    SplitPlays(tags, w, PartTags(tags, w), n);
  }

  lemma SplitPlays(tags: seq<FlvTag>, w: Window, part: seq<FlvTag>, n: nat)
    requires Split(tags, w, part, n)
    ensures Plays(RebasedAll(part, tags[w.gate].timestamp), tags, w)
  {
    hide PartTags, LatestAvc, LatestAudio, Rebased, IsAvcConfiguration, IsAudioConfiguration, ChangesAt, SameContent, OnClock, RebasedAll,
         IsVideoKeyframe;
    var base := tags[w.gate].timestamp;
    var d := RebasedAll(part, base);
    HeadersBefore(tags, w.gate);
    forall k | 0 <= k < |d| ensures SameContent(d[k], part[k]) && OnClock(d[k].timestamp, part[k].timestamp, base) {
      RebasedIsOnClock(part[k], base);
    }
    forall k | w.gate <= k < w.end
      ensures SameContent(d[n + k - w.gate], tags[k]) && OnClock(d[n + k - w.gate].timestamp, tags[k].timestamp, base)
    {
      assert part[n + k - w.gate] == tags[k];
    }
  }

  /** So the gate plays at zero, and any two tags that are not before it keep their distance. */
  lemma DistancesAreKept(tags: seq<FlvTag>, w: Window, j: nat, k: nat)
    requires w in Windows(tags) && AllFit(PartTags(tags, w)) && w.gate <= j < w.end && w.gate <= k < w.end
    ensures var d := ReadStream(PartBytes(PartTags(tags, w), tags[w.gate].timestamp)).0;
            var h := |d| - (w.end - w.gate);
            && 0 <= h && d[h].timestamp == 0
            && (tags[j].timestamp >= tags[w.gate].timestamp && tags[k].timestamp >= tags[w.gate].timestamp ==>
                  d[h + j - w.gate].timestamp - d[h + k - w.gate].timestamp == tags[j].timestamp - tags[k].timestamp)
            && (tags[j].timestamp <= tags[w.gate].timestamp ==> d[h + j - w.gate].timestamp == 0)
  {
    hide PartTags, Windows, ReadStream, PartBytes;
    RetainedPlays(tags, w);
    var d := ReadStream(PartBytes(PartTags(tags, w), tags[w.gate].timestamp)).0;
    var h := |d| - (w.end - w.gate);
    assert d[h + w.gate - w.gate] == d[h];
  }

  /** Every file a writer's call leaves under a new number plays its window of the tags the call took. */
  lemma WrittenFilesPlay(tags: seq<FlvTag>, start: nat, finals: map<nat, Bytes>, partials: set<nat>, paths: seq<nat>,
                         timings: seq<seq<Replay>>, finalsAfter: map<nat, Bytes>, stop: Option<Stop>, stopped: nat, i: nat)
    requires stopped <= |tags| && Leaves(tags, start, finals, partials, paths, timings, finalsAfter, stop, stopped)
    requires i < |paths|
    ensures |paths| == |Windows(tags[..stopped])| && paths[i] == start + i && paths[i] in finalsAfter
    ensures var (d, outcome) := ReadStream(finalsAfter[paths[i]]);
            outcome == Clean && Plays(d, tags[..stopped], Windows(tags[..stopped])[i])
  {
    hide ReadStream, Windows, PartTags, PartBytes, Plays, Reports;
    var taken := tags[..stopped];
    var ws := Windows(taken);
    PublishedFiles(finals, start, Retained(taken), start + i);
    assert Retained(taken)[i] in Retained(taken) && ws[i] in ws;
    RetainedPlays(taken, ws[i]);
  }
}
