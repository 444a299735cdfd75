/** The structural check of a retained part, and why it accepts what the writer leaves. */
module PartStructure {
  import opened Wrappers
  import opened Flv
  import opened FlvPrefix
  import opened FlvSource
  import opened WriterWindows
  import opened WriterParts

  /** A part can be decoded on its own. */
  ghost predicate Structured(tags: seq<FlvTag>) {
    && StartsWithHeader(tags)
    && (forall k | 0 < k < |tags| && IsAvcConfiguration(tags[k]) :: Configuration(tags[k]) == Configuration(tags[0]))
    && (forall k | 0 < k < |tags| && IsMedia(tags[k]) && tags[k].tagType == AUDIO :: AudioHeaderBefore(tags, k))
    && exists m: nat :: FirstMedia(tags, m) && IsVideoKeyframe(tags[m]) && tags[m].timestamp == 0
  }

  predicate StartsWithHeader(tags: seq<FlvTag>) {
    tags != [] && IsAvcConfiguration(tags[0]) && |tags[0].payload| >= 6
  }

  predicate AudioHeaderBefore(tags: seq<FlvTag>, k: nat)
    requires k <= |tags|
  {
    exists j :: 0 <= j < k && IsAudioConfiguration(tags[j])
  }

  predicate FirstMedia(tags: seq<FlvTag>, m: nat) {
    m < |tags| && IsMedia(tags[m]) && forall k | 0 <= k < m :: !IsMedia(tags[k])
  }

  /** A part is refused for one of these defects, and only for them: no whole AVC header in front, another rendition
      later, sound before its header, or no keyframe at zero as the first media. */
  lemma RefusedForADefect(tags: seq<FlvTag>)
    ensures !Structured(tags) <==>
              || tags == [] || !IsAvcConfiguration(tags[0]) || |tags[0].payload| < 6
              || (exists k :: 0 < k < |tags| && IsAvcConfiguration(tags[k]) && Configuration(tags[k]) != Configuration(tags[0]))
              || (exists k :: 0 < k < |tags| && IsMedia(tags[k]) && tags[k].tagType == AUDIO
                              && forall j | 0 <= j < k :: !IsAudioConfiguration(tags[j]))
              || (forall k | 0 <= k < |tags| :: !IsMedia(tags[k]))
              || (exists m: nat :: m < |tags| && IsMedia(tags[m]) && (forall k | 0 <= k < m :: !IsMedia(tags[k]))
                                   && (!IsVideoKeyframe(tags[m]) || tags[m].timestamp != 0))
  {
    hide IsAvcConfiguration, IsAudioConfiguration, IsMedia, IsVideoKeyframe, Configuration;
    if exists k: nat :: k < |tags| && IsMedia(tags[k]) {
      var m := FirstMediaOf(tags);
      assert FirstMedia(tags, m);
      forall j: nat | FirstMedia(tags, j) ensures j == m {}
    }
    forall k: nat | k <= |tags|
      ensures AudioHeaderBefore(tags, k) <==> !(forall j | 0 <= j < k :: !IsAudioConfiguration(tags[j]))
    {
    }
  }

  lemma {:induction false} FirstMediaOf(tags: seq<FlvTag>) returns (m: nat)
    requires exists k: nat :: k < |tags| && IsMedia(tags[k])
    ensures FirstMedia(tags, m)
  {
    hide IsMedia;
    m := 0;
    while !IsMedia(tags[m])
      invariant m < |tags| && forall k | 0 <= k < m :: !IsMedia(tags[k])
      decreases |tags| - m
    {
      m := m + 1;
    }
  }

  /** The bytes under check: the whole file, or exactly its first `count` ones. */
  ghost predicate Accepted(file: Bytes, count: Option<nat>) {
    && HasWriterHeader(file) && (count.Some? ==> count.value <= |file|)
    && var (tags, outcome) := ReadStream(if count.Some? then file[..count.value] else file);
       outcome == Clean && Structured(tags)
  }

  const CHUNK := 65536

  /** Hand the file out in chunks, counting down the bytes still wanted. */
  method Chunks(file: Bytes, count: Option<nat>) returns (chunks: seq<Bytes>, remaining: Option<nat>)
    ensures var wanted := if count.Some? && count.value <= |file| then count.value else |file|;
            Flatten(chunks) == file[..wanted]
    ensures remaining == if count.None? then None else Some(if count.value <= |file| then 0 else count.value - |file|)
  {
    chunks, remaining := [], count;
    var position := 0;
    ghost var wanted := if count.Some? && count.value <= |file| then count.value else |file|;
    while remaining != Some(0)
      invariant position <= wanted && Flatten(chunks) == file[..position]
      invariant remaining == if count.None? then None else Some(count.value - position)
      decreases |file| - position
    {
      var size := if remaining.None? || CHUNK <= remaining.value then CHUNK else remaining.value;
      var chunk := file[position..if position + size <= |file| then position + size else |file|];
      if chunk == [] { break; }
      if remaining.Some? { remaining := Some(remaining.value - |chunk|); }
      FlattenConcat(chunks, [chunk]);
      assert Flatten([chunk]) == chunk + Flatten([]) == chunk;
      position := position + |chunk|;
      chunks := chunks + [chunk];
    }
  }

  /** Accept a part exactly when its bytes are framed cleanly and its tags can be decoded on their own. */
  method CheckStructure(file: Bytes, count: Option<nat>) returns (ok: bool)
    ensures ok <==> Accepted(file, count)
  {
    hide ReadStream, Flatten, Structured;
    if |file| < 13 || file[..13] != WRITER_HEADER { return false; }
    var chunks, remaining := Chunks(file, count);
    assert file[..|file|] == file;
    var tags, outcome := ReadChunks(chunks);
    if outcome != Clean { return false; }
    ok := CheckTags(tags);
    if ok { ok := remaining.None? || remaining.value == 0; }
  }

  method CheckTags(tags: seq<FlvTag>) returns (ok: bool)
    ensures ok <==> Structured(tags)
  {
    if tags == [] || !IsAvcConfiguration(tags[0]) || |tags[0].payload| < 6 { return false; }
    var hasMedia, hasAudio, k := false, false, 1;
    ghost var first := 0;
    while k < |tags|
      invariant 1 <= k <= |tags|
      invariant hasAudio <==> AudioHeaderBefore(tags, k)
      invariant hasMedia ==> first < k && FirstMedia(tags, first) && IsVideoKeyframe(tags[first]) && tags[first].timestamp == 0
      invariant !hasMedia ==> forall i | 0 <= i < k :: !IsMedia(tags[i])
      invariant forall i | 0 < i < k && IsAvcConfiguration(tags[i]) :: Configuration(tags[i]) == Configuration(tags[0])
      invariant forall i | 0 < i < k && IsMedia(tags[i]) && tags[i].tagType == AUDIO :: AudioHeaderBefore(tags, i)
    {
      var tag := tags[k];
      if tag.tagType == AUDIO && IsConfiguration(tag) { hasAudio := true; }
      if IsAvcConfiguration(tag) && Configuration(tag) != Configuration(tags[0]) { return false; }
      if IsMedia(tag) {
        if !hasMedia {
          if !IsVideoKeyframe(tag) || tag.timestamp != 0 { return false; }
          first := k;
        }
        if tag.tagType == AUDIO && !hasAudio { return false; }
        hasMedia := true;
      }
      k := k + 1;
    }
    if !hasMedia { assert forall m: nat :: !FirstMedia(tags, m); }
    return hasMedia;
  }

  // ------------------------------------------------- what the writer leaves is accepted

  /** Sound never runs ahead of its first header. */
  predicate SoundIsIntroduced(tags: seq<FlvTag>, w: Window)
    requires w.gate < w.end <= |tags|
  {
    forall k | w.gate <= k < w.end && IsMedia(tags[k]) && tags[k].tagType == AUDIO :: AudioHeaderBefore(tags, k)
  }

  predicate HeaderIsWhole(tags: seq<FlvTag>, w: Window)
    requires w.gate <= |tags|
  {
    var header := LatestAvc(tags[..w.gate]);
    header.Some? && |header.value.payload| >= 6
  }

  /** Rebasing only moves timestamps. */
  lemma RebasingKeepsStructure(tags: seq<FlvTag>, base: nat)
    ensures var r := RebasedAll(tags, base);
            Structured(r) <==>
              && StartsWithHeader(tags)
              && (forall k | 0 < k < |tags| && IsAvcConfiguration(tags[k]) :: Configuration(tags[k]) == Configuration(tags[0]))
              && (forall k | 0 < k < |tags| && IsMedia(tags[k]) && tags[k].tagType == AUDIO :: AudioHeaderBefore(tags, k))
              && exists m: nat :: FirstMedia(tags, m) && IsVideoKeyframe(tags[m]) && tags[m].timestamp <= base
  {
    var r := RebasedAll(tags, base);
    forall k | 0 <= k <= |tags| ensures AudioHeaderBefore(r, k) <==> AudioHeaderBefore(tags, k) {
      if AudioHeaderBefore(tags, k) {
        var j :| 0 <= j < k && IsAudioConfiguration(tags[j]);
        assert IsAudioConfiguration(r[j]);
      }
    }
    forall m: nat ensures FirstMedia(r, m) <==> FirstMedia(tags, m) {
      assert forall k | 0 <= k < |tags| :: IsMedia(r[k]) <==> IsMedia(tags[k]);
    }
  }

  /** Each window is the last one of the stream up to its own end. */
  lemma {:induction false} WindowIsLast(tags: seq<FlvTag>, w: Window)
    requires w in Windows(tags)
    ensures w.open < w.gate && LastChange(tags[..w.end]) == Some(w.open) && Gate(tags[..w.end], w.open) == Some(w.gate)
    decreases |tags|
  {
    hide Windows, LastChange, Gate, ChangesAt;
    WindowsUnfold(tags, w);
    var a := LastChange(tags).value;
    if w in Windows(tags[..a]) {
      WindowIsLast(tags[..a], w);
      assert tags[..a][..w.end] == tags[..w.end];
    } else {
      assert tags[..w.end] == tags;
      ChangeIsNoKeyframe(tags, a);
    }
  }

  lemma WindowsUnfold(tags: seq<FlvTag>, w: Window)
    requires w in Windows(tags)
    ensures LastChange(tags).Some?
    ensures var a := LastChange(tags).value;
            w in Windows(tags[..a]) || (w.open == a && Gate(tags, a) == Some(w.gate) && w.end == |tags|)
  {
    hide LastChange, Gate;
  }

  lemma ChangeIsNoKeyframe(tags: seq<FlvTag>, a: nat)
    requires a < |tags| && ChangesAt(tags, a)
    ensures !IsVideoKeyframe(tags[a])
  {
    hide Configuration, LatestAvc;
    assert tags[..a + 1][a] == tags[a];
  }

  /** Until the next change every AVC header announces the same rendition. */
  lemma {:induction false} RenditionIsSteady(tags: seq<FlvTag>, from: nat, k: nat)
    requires from <= k <= |tags| && LatestAvc(tags[..from]).Some?
    requires forall c | from <= c < k :: !ChangesAt(tags, c)
    ensures LatestAvc(tags[..k]).Some? && Configuration(LatestAvc(tags[..k]).value) == Configuration(LatestAvc(tags[..from]).value)
    decreases k - from
  {
    if from < k {
      RenditionIsSteady(tags, from, k - 1);
      assert tags[..k][..k - 1] == tags[..k - 1];
      assert !ChangesAt(tags, k - 1);
    }
  }

  lemma {:induction false} LatestAudioIsFound(tags: seq<FlvTag>)
    ensures LatestAudio(tags).Some? <==> AudioHeaderBefore(tags, |tags|)
  {
    if tags != [] {
      var n := |tags| - 1;
      LatestAudioIsFound(tags[..n]);
      forall j | 0 <= j < n ensures tags[..n][j] == tags[j] {}
      if AudioHeaderBefore(tags[..n], n) {
        var j :| 0 <= j < n && IsAudioConfiguration(tags[..n][j]);
        assert IsAudioConfiguration(tags[j]);
      }
    }
  }

  lemma {:induction false} LatestAvcIsFound(tags: seq<FlvTag>, k: nat)
    requires k < |tags| && IsAvcConfiguration(tags[k])
    ensures LatestAvc(tags).Some?
  {
    if !IsAvcConfiguration(tags[|tags| - 1]) { LatestAvcIsFound(tags[..|tags| - 1], k); }
  }

  /** A part, split where its body begins. */
  ghost predicate Split(tags: seq<FlvTag>, w: Window, part: seq<FlvTag>, n: nat) {
    && w.open < w.gate < w.end <= |tags| && 1 <= n <= 2 <= |part| + 1
    && part == PartTags(tags, w) && |part| == n + w.end - w.gate
    && IsVideoKeyframe(tags[w.gate])
    && LatestAvc(tags[..w.gate]) == Some(part[0])
    && (n == 1 ==> LatestAudio(tags[..w.gate]).None?) && (n == 2 ==> LatestAudio(tags[..w.gate]) == Some(part[1]))
    && (forall k | w.gate <= k < w.end :: part[n + k - w.gate] == tags[k])
    && forall c | w.open < c < w.end :: !ChangesAt(tags, c)
  }

  lemma SplitOf(tags: seq<FlvTag>, w: Window) returns (n: nat)
    requires w in Windows(tags)
    ensures Split(tags, w, PartTags(tags, w), n)
  {
    hide Windows, LatestAvc, LatestAudio, Gate, LastChange, Configuration, ChangesAt;
    InsideWindow(tags, w);
    n := if LatestAudio(tags[..w.gate]).Some? then 2 else 1;
    var part := PartTags(tags, w);
    forall k | w.gate <= k < w.end ensures part[n + k - w.gate] == tags[k] {
      assert part[n + k - w.gate] == tags[w.gate..w.end][k - w.gate];
    }
  }

  lemma InsideWindow(tags: seq<FlvTag>, w: Window)
    requires w in Windows(tags)
    ensures w.open < w.gate < w.end <= |tags| && IsVideoKeyframe(tags[w.gate]) && LatestAvc(tags[..w.gate]).Some?
    ensures forall c | w.open < c < w.end :: !ChangesAt(tags, c)
  {
    hide Windows, LatestAvc, Configuration, Gate, LastChange, ChangesAt, IsVideoKeyframe;
    WindowIsLast(tags, w);
    var t := tags[..w.end];
    InsideLast(t, w.open, w.gate);
    assert t[..w.gate] == tags[..w.gate] && t[w.gate] == tags[w.gate];
    PrefixChanges(tags, w.end);
    forall c | w.open < c < w.end ensures !ChangesAt(tags, c) { assert !ChangesAt(t, c); }
  }

  lemma InsideLast(t: seq<FlvTag>, a: nat, g: nat)
    requires LastChange(t) == Some(a) && a < g && Gate(t, a) == Some(g)
    ensures g < |t| && IsVideoKeyframe(t[g]) && LatestAvc(t[..g]).Some?
    ensures forall c | a < c < |t| :: !ChangesAt(t, c)
  {
    hide LatestAvc, Configuration;
    assert ChangesAt(t, a);
    assert t[..a + 1][a] == t[a] == t[..g][a];
    LatestAvcIsFound(t[..g], a);
  }

  lemma SplitConfigurations(tags: seq<FlvTag>, w: Window, part: seq<FlvTag>, n: nat, k: nat)
    requires Split(tags, w, part, n) && 0 < k < |part| && IsAvcConfiguration(part[k])
    ensures Configuration(part[k]) == Configuration(part[0])
  {
    hide LatestAvc, LatestAudio, Configuration, PartTags;
    assert k >= n;
    var i := k - n + w.gate;
    assert part[n + i - w.gate] == tags[i];
    RenditionIsSteady(tags, w.gate, i);
    NotAChange(tags, i);
  }

  lemma NotAChange(tags: seq<FlvTag>, i: nat)
    requires i < |tags| && !ChangesAt(tags, i) && IsAvcConfiguration(tags[i])
    ensures LatestAvc(tags[..i]).Some? && Configuration(LatestAvc(tags[..i]).value) == Configuration(tags[i])
  {
    assert tags[..i + 1][..i] == tags[..i] && tags[..i + 1][i] == tags[i];
  }

  lemma SplitMedia(tags: seq<FlvTag>, w: Window, part: seq<FlvTag>, n: nat)
    requires Split(tags, w, part, n)
    ensures FirstMedia(part, n) && part[n] == tags[w.gate]
  {
    assert part[n + w.gate - w.gate] == tags[w.gate];
    assert IsConfiguration(part[0]) && (n == 2 ==> IsConfiguration(part[1]));
  }

  lemma SplitSound(tags: seq<FlvTag>, w: Window, part: seq<FlvTag>, n: nat, i: nat)
    requires Split(tags, w, part, n) && w.gate <= i < w.end
    ensures AudioHeaderBefore(part, n + i - w.gate) <==> AudioHeaderBefore(tags, i)
  {
    hide PartTags, LatestAvc, LatestAudio, ChangesAt;
    LatestAudioIsFound(tags[..w.gate]);
    HeaderKinds(tags, w, part, n);
    var k := n + i - w.gate;
    if AudioHeaderBefore(part, k) {
      var j :| 0 <= j < k && IsAudioConfiguration(part[j]);
      if j < n {
        var e :| 0 <= e < w.gate && IsAudioConfiguration(tags[..w.gate][e]);
        assert IsAudioConfiguration(tags[e]);
      } else {
        assert part[n + (j - n + w.gate) - w.gate] == tags[j - n + w.gate];
      }
    }
    if AudioHeaderBefore(tags, i) {
      var j :| 0 <= j < i && IsAudioConfiguration(tags[j]);
      if j < w.gate {
        assert IsAudioConfiguration(tags[..w.gate][j]);
        assert n == 2 && IsAudioConfiguration(part[1]);
      } else {
        assert IsAudioConfiguration(part[n + j - w.gate]);
      }
    }
  }

  lemma HeaderKinds(tags: seq<FlvTag>, w: Window, part: seq<FlvTag>, n: nat)
    requires Split(tags, w, part, n)
    ensures IsAvcConfiguration(part[0]) && !IsAudioConfiguration(part[0]) && (n == 2 ==> IsAudioConfiguration(part[1]))
  {
  }

  /** Every part the writer retains is accepted, except exactly when its AVC header is too short
      to hold a decoder configuration or sound precedes every sound header of the stream. */
  lemma RetainedIsStructured(tags: seq<FlvTag>, w: Window)
    requires w in Windows(tags)
    ensures Structured(RebasedAll(PartTags(tags, w), tags[w.gate].timestamp)) <==>
            HeaderIsWhole(tags, w) && SoundIsIntroduced(tags, w)
  {
    hide PartTags, LatestAvc, LatestAudio, Configuration, Windows, AudioHeaderBefore, FirstMedia, Structured;
    var part, base := PartTags(tags, w), tags[w.gate].timestamp;
    var n := SplitOf(tags, w);
    RebasingKeepsStructure(part, base);
    HeaderKinds(tags, w, part, n);
    SplitMedia(tags, w, part, n);
    forall k | 0 < k < |part| && IsAvcConfiguration(part[k]) ensures Configuration(part[k]) == Configuration(part[0]) {
      SplitConfigurations(tags, w, part, n, k);
    }
    forall i | w.gate <= i < w.end
      ensures part[n + i - w.gate] == tags[i] && (AudioHeaderBefore(part, n + i - w.gate) <==> AudioHeaderBefore(tags, i))
    {
      SplitSound(tags, w, part, n, i);
    }
    SoundInPart(tags, w, part, n);
  }

  lemma SoundInPart(tags: seq<FlvTag>, w: Window, part: seq<FlvTag>, n: nat)
    requires Split(tags, w, part, n)
    requires forall i | w.gate <= i < w.end :: AudioHeaderBefore(part, n + i - w.gate) <==> AudioHeaderBefore(tags, i)
    ensures (forall k | 0 < k < |part| && IsMedia(part[k]) && part[k].tagType == AUDIO :: AudioHeaderBefore(part, k)) <==>
            SoundIsIntroduced(tags, w)
  {
    hide PartTags, LatestAvc, LatestAudio, AudioHeaderBefore, ChangesAt;
    HeaderKinds(tags, w, part, n);
    forall k | n <= k < |part| ensures part[k] == tags[k - n + w.gate]
                                       && (AudioHeaderBefore(part, k) <==> AudioHeaderBefore(tags, k - n + w.gate)) {
      var i := k - n + w.gate;
      assert n + i - w.gate == k;
    }
    if SoundIsIntroduced(tags, w) {
    } else {
      var i :| w.gate <= i < w.end && IsMedia(tags[i]) && tags[i].tagType == AUDIO && !AudioHeaderBefore(tags, i);
      assert part[n + i - w.gate] == tags[i];
    }
  }

  /** The file of a retained part: which tags it decodes to, and exactly when it is accepted. */
  lemma RetainedFileIsAccepted(tags: seq<FlvTag>, w: Window)
    requires w in Windows(tags) && AllFit(PartTags(tags, w))
    ensures var base := tags[w.gate].timestamp;
            var file := PartBytes(PartTags(tags, w), base);
            && ReadStream(file) == (RebasedAll(PartTags(tags, w), base), Clean)
            && (Accepted(file, None) <==> HeaderIsWhole(tags, w) && SoundIsIntroduced(tags, w))
  {
    hide Structured, HeaderIsWhole, SoundIsIntroduced, PartTags, Windows, EncodeAll, ReadStream;
    var part, base := PartTags(tags, w), tags[w.gate].timestamp;
    RebasedFits(part, base);
    WriterFileRoundTrips(RebasedAll(part, base));
    RetainedIsStructured(tags, w);
  }

  // ------------------------------------------------------------- a part cut by a crash

  lemma StructuredPrefix(tags: seq<FlvTag>, m: nat, i: nat)
    requires Structured(tags) && FirstMedia(tags, m) && i <= |tags|
    ensures Structured(tags[..i]) <==> m < i
  {
    forall j: nat ensures FirstMedia(tags, j) ==> j == m {}
    var p := tags[..i];
    forall k | 0 <= k <= i ensures AudioHeaderBefore(p, k) <==> AudioHeaderBefore(tags, k) {
      if AudioHeaderBefore(tags, k) {
        var j :| 0 <= j < k && IsAudioConfiguration(tags[j]);
        assert IsAudioConfiguration(p[j]);
      }
    }
    if m < i {
      assert IsConfiguration(tags[0]);
      assert FirstMedia(p, m);
    } else {
      assert forall j: nat :: !FirstMedia(p, j);
    }
  }

  /** A part cut anywhere past its header keeps its whole tags, and they are accepted exactly when
      the keyframe that opened the part is among them. */
  lemma CutPartIsAccepted(part: seq<FlvTag>, m: nat, cut: nat) returns (i: nat)
    requires AllFit(part) && Structured(part) && FirstMedia(part, m)
    requires 13 <= cut <= 13 + |EncodeAll(part)|
    ensures i <= |part|
    ensures var file := (WRITER_HEADER + EncodeAll(part))[..cut];
            && HasWriterHeader(file) && PrefixLength(file) == Boundary(part, i)
            && (i < |part| ==> cut < Boundary(part, i + 1))
            && (Accepted(file, Some(PrefixLength(file))) <==> m < i)
  {
    hide Structured, EncodeAll, ReadStream, PrefixLength, FirstMedia;
    i := CutKeepsLastBoundary(part, cut);
    var whole := WRITER_HEADER + EncodeAll(part);
    var kept := part[..i];
    EncodeAllConcat(kept, part[i..]);
    assert kept + part[i..] == part;
    var n := Boundary(part, i);
    assert whole[..cut][..n] == WRITER_HEADER + EncodeAll(kept);
    WriterFileRoundTrips(kept);
    StructuredPrefix(part, m, i);
  }
}
