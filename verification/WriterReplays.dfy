/** Backward source clocks inside one part: what the observer records, and what it should record. */
module WriterReplays {
  import opened Wrappers
  import opened Flv
  import opened WriterWindows

  // ------------------------------------------------------- one stream, declaratively

  /** One observed media tag of one stream: its ordinal in the part and its source timestamp. */
  datatype Seen = Seen(position: nat, timestamp: nat)

  function Peak(s: seq<Seen>): (m: nat)
    requires s != []
    ensures exists k :: 0 <= k < |s| && s[k].timestamp == m
    ensures forall k | 0 <= k < |s| :: s[k].timestamp <= m
  {
    var last := s[|s| - 1].timestamp;
    if |s| == 1 then last
    else
      var before := Peak(s[..|s| - 1]);
      if last > before then last else before
  }

  /** The clock runs strictly below its running maximum. */
  predicate Backward(s: seq<Seen>, k: nat) { 0 < k < |s| && s[k].timestamp < Peak(s[..k]) }

  function FirstBackward(s: seq<Seen>, from: nat): (k: nat)
    requires from <= |s|
    ensures from <= k <= |s| && (k < |s| ==> Backward(s, k)) && forall i | from <= i < k :: !Backward(s, i)
    decreases |s| - from
  {
    if from == |s| || Backward(s, from) then from else FirstBackward(s, from + 1)
  }

  function FirstAbove(s: seq<Seen>, from: nat, level: nat): (k: nat)
    requires from <= |s|
    ensures from <= k <= |s| && (k < |s| ==> s[k].timestamp > level)
    ensures forall i | from <= i < k :: s[i].timestamp <= level
    decreases |s| - from
  {
    if from == |s| || s[from].timestamp > level then from else FirstAbove(s, from + 1, level)
  }

  /** One maximal replay: it starts below the maximum and lasts until the maximum is exceeded. */
  datatype Interval = Interval(start: nat, end: nat)

  function Intervals(s: seq<Seen>, from: nat): (r: seq<Interval>)
    requires from <= |s|
    ensures forall i | i in r :: from <= i.start < i.end <= |s| && Backward(s, i.start)
    decreases |s| - from
  {
    var j := FirstBackward(s, from);
    if j == |s| then []
    else
      var e := FirstAbove(s, j, Peak(s[..j]));
      [Interval(j, e)] + Intervals(s, e)
  }

  ghost predicate MaximalReplay(s: seq<Seen>, i: Interval) {
    && i.start < i.end <= |s| && Backward(s, i.start)
    && (forall k | i.start <= k < i.end :: s[k].timestamp <= Peak(s[..i.start]))
    && (i.end < |s| ==> s[i.end].timestamp > Peak(s[..i.start]))
  }

  /** The intervals are maximal replays, in order and apart, and every backward tag lies in one. */
  lemma {:induction false} IntervalsAreTheReplays(s: seq<Seen>, from: nat, k: nat)
    requires from <= |s|
    ensures forall i | i in Intervals(s, from) :: MaximalReplay(s, i)
    ensures forall a, b | 0 <= a < b < |Intervals(s, from)| :: Intervals(s, from)[a].end <= Intervals(s, from)[b].start
    ensures from <= k && Backward(s, k) ==> exists i | i in Intervals(s, from) :: i.start <= k < i.end
  {
    IntervalsAreMaximal(s, from);
    IntervalsAreApart(s, from);
    if from <= k && Backward(s, k) { BackwardIsInside(s, from, k); }
  }

  /** The first replay, and those behind it. */
  lemma UnfoldIntervals(s: seq<Seen>, from: nat)
    requires from <= |s|
    ensures var j := FirstBackward(s, from);
            if j == |s| then Intervals(s, from) == []
            else
              var e := FirstAbove(s, j, Peak(s[..j]));
              j < e <= |s| && Intervals(s, from) == [Interval(j, e)] + Intervals(s, e) && MaximalReplay(s, Interval(j, e))
  {
  }

  lemma {:induction false} IntervalsAreMaximal(s: seq<Seen>, from: nat)
    requires from <= |s|
    ensures forall i | i in Intervals(s, from) :: MaximalReplay(s, i)
    decreases |s| - from
  {
    hide Intervals, Peak, MaximalReplay;
    UnfoldIntervals(s, from);
    var j := FirstBackward(s, from);
    if j < |s| { IntervalsAreMaximal(s, FirstAbove(s, j, Peak(s[..j]))); }
  }

  lemma {:induction false} IntervalsAreApart(s: seq<Seen>, from: nat)
    requires from <= |s|
    ensures forall a, b | 0 <= a < b < |Intervals(s, from)| :: Intervals(s, from)[a].end <= Intervals(s, from)[b].start
    decreases |s| - from
  {
    hide Intervals, Peak, MaximalReplay, Backward;
    UnfoldIntervals(s, from);
    var j := FirstBackward(s, from);
    if j < |s| {
      var e := FirstAbove(s, j, Peak(s[..j]));
      var r, rest := Intervals(s, from), Intervals(s, e);
      IntervalsAreApart(s, e);
      forall a, b | 0 <= a < b < |r| ensures r[a].end <= r[b].start {
        assert r[b] == rest[b - 1] && rest[b - 1] in rest;
        if a > 0 { assert r[a] == rest[a - 1]; }
      }
    }
  }

  lemma {:induction false} BackwardIsInside(s: seq<Seen>, from: nat, k: nat)
    requires from <= k && from <= |s| && Backward(s, k)
    ensures exists i | i in Intervals(s, from) :: i.start <= k < i.end
    decreases |s| - from
  {
    hide Intervals, Peak, MaximalReplay;
    UnfoldIntervals(s, from);
    var j := FirstBackward(s, from);
    assert j <= k < |s|;
    var e := FirstAbove(s, j, Peak(s[..j]));
    if k < e {
      assert Interval(j, e) in Intervals(s, from);
    } else {
      BackwardIsInside(s, e, k);
      var i :| i in Intervals(s, e) && i.start <= k < i.end;
      assert i in Intervals(s, from);
    }
  }

  // ----------------------------------------------------------- one stream, step by step

  datatype Pending = Pending(position: nat, previous: nat, timestamp: nat, count: nat)
  datatype Replay = Replay(stream: Byte, position: nat, previous: nat, timestamp: nat, magnitude: int, count: nat,
                           recovered: bool)
  datatype Clock = Clock(last: Option<nat>, pending: Option<Pending>, replays: seq<Replay>)

  function Event(stream: Byte, p: Pending, recovered: bool): Replay {
    Replay(stream, p.position, p.previous, p.timestamp, p.previous - p.timestamp, p.count, recovered)
  }

  function Tick(stream: Byte, c: Clock, x: Seen): Clock {
    if c.pending.Some? && x.timestamp <= c.pending.value.previous then
      c.(pending := Some(c.pending.value.(count := c.pending.value.count + 1)))
    else
      var settled := if c.pending.Some?
                     then c.(pending := None, replays := c.replays + [Event(stream, c.pending.value, true)]) else c;
      if c.last.Some? && x.timestamp < c.last.value then
        settled.(pending := Some(Pending(x.position, c.last.value, x.timestamp, 1)))
      else settled.(last := Some(x.timestamp))
  }

  function Ticks(stream: Byte, s: seq<Seen>): Clock {
    if s == [] then Clock(None, None, []) else Tick(stream, Ticks(stream, s[..|s| - 1]), s[|s| - 1])
  }

  function RecordOf(stream: Byte, s: seq<Seen>, i: Interval): Replay
    requires i.start < i.end <= |s| && 0 < i.start
  {
    var previous := Peak(s[..i.start]);
    Replay(stream, s[i.start].position, previous, s[i.start].timestamp, previous - s[i.start].timestamp,
           i.end - i.start, i.end < |s|)
  }

  function Records(stream: Byte, s: seq<Seen>, intervals: seq<Interval>): (r: seq<Replay>)
    requires forall i | i in intervals :: 0 < i.start < i.end <= |s|
    ensures |r| == |intervals| && forall k | 0 <= k < |intervals| :: r[k] == RecordOf(stream, s, intervals[k])
  {
    seq(|intervals|, k requires 0 <= k < |intervals| => RecordOf(stream, s, intervals[k]))
  }

  /** The replays a part reports for a stream: those recovered, and at close the one still pending. */
  function Reported(stream: Byte, c: Clock): seq<Replay> {
    c.replays + if c.pending.Some? then [Event(stream, c.pending.value, false)] else []
  }

  /** A replay is still open when its maximum was never exceeded. */
  predicate OpenAtEnd(s: seq<Seen>, r: seq<Interval>) { r != [] && r[|r| - 1].end == |s| }

  /** What the clock holds after a stream of tags. */
  ghost predicate ClockMeans(stream: Byte, c: Clock, s: seq<Seen>) {
    var r := Intervals(s, 0);
    && c.last == (if s == [] then None else Some(Peak(s)))
    && (if OpenAtEnd(s, r) then
          && c.replays == Records(stream, s, r[..|r| - 1])
          && var open := r[|r| - 1];
             c.pending == Some(Pending(s[open.start].position, Peak(s[..open.start]), s[open.start].timestamp,
                                       open.end - open.start))
             && Peak(s) == Peak(s[..open.start])
        else c.replays == Records(stream, s, r) && c.pending.None?)
  }

  lemma PeakOfPrefix(s: seq<Seen>, x: Seen, k: nat)
    requires k <= |s|
    ensures (s + [x])[..k] == s[..k]
    ensures k < |s| ==> (Backward(s + [x], k) <==> Backward(s, k))
    ensures k == |s| ==> (Backward(s + [x], k) <==> s != [] && x.timestamp < Peak(s))
    ensures k == |s| ==> Peak(s + [x]) == if s == [] || x.timestamp > Peak(s) then x.timestamp else Peak(s)
  {
    assert (s + [x])[..k] == s[..k];
    if k == |s| { assert (s + [x])[..k] == s; }
  }

  lemma {:induction false} SnocFirstBackward(s: seq<Seen>, x: Seen, from: nat)
    requires from <= |s|
    ensures var j := FirstBackward(s, from);
            FirstBackward(s + [x], from) ==
            if j < |s| then j else if Backward(s + [x], |s|) then |s| else |s| + 1
    decreases |s| - from
  {
    hide Backward, Peak;
    PeakOfPrefix(s, x, from);
    if from < |s| {
      if !Backward(s, from) { SnocFirstBackward(s, x, from + 1); }
    } else {
      assert FirstBackward(s + [x], from + 1) == from + 1;
    }
  }

  lemma {:induction false} SnocFirstAbove(s: seq<Seen>, x: Seen, from: nat, level: nat)
    requires from <= |s|
    ensures var e := FirstAbove(s, from, level);
            FirstAbove(s + [x], from, level) == if e < |s| then e else if x.timestamp > level then |s| else |s| + 1
    decreases |s| - from
  {
    if from < |s| {
      if s[from].timestamp <= level { SnocFirstAbove(s, x, from + 1, level); }
    } else {
      assert FirstAbove(s + [x], from + 1, level) == from + 1;
    }
  }

  function Extended(s: seq<Seen>, x: Seen, r: seq<Interval>): seq<Interval>
    requires forall i | i in r :: 0 < i.start < i.end <= |s|
  {
    if OpenAtEnd(s, r) then
      var open := r[|r| - 1];
      if x.timestamp <= Peak(s[..open.start]) then r[..|r| - 1] + [Interval(open.start, |s| + 1)] else r
    else if s != [] && x.timestamp < Peak(s) then r + [Interval(|s|, |s| + 1)]
    else r
  }

  lemma {:induction false} EmptyIntervals(s: seq<Seen>)
    ensures Intervals(s, |s|) == []
  {
  }

  lemma {:induction false} PeakStays(s: seq<Seen>, j: nat)
    requires 0 < j <= |s| && forall k | j <= k < |s| :: s[k].timestamp <= Peak(s[..j])
    ensures Peak(s) == Peak(s[..j])
    decreases |s| - j
  {
    if j == |s| {
      assert s[..j] == s;
    } else {
      assert s[..j + 1][..j] == s[..j];
      assert Peak(s[..j + 1]) == Peak(s[..j]);
      PeakStays(s, j + 1);
    }
  }

  lemma IntervalsAt(s: seq<Seen>, from: nat)
    requires from <= |s|
    ensures var j := FirstBackward(s, from);
            Intervals(s, from) ==
            if j == |s| then [] else [Interval(j, FirstAbove(s, j, Peak(s[..j])))] + Intervals(s, FirstAbove(s, j, Peak(s[..j])))
  {
  }

  /** With no replay left in `s`, one more tag opens at most the replay it begins itself. */
  lemma SnocNoInterval(s: seq<Seen>, x: Seen, from: nat)
    requires from <= |s| && FirstBackward(s, from) == |s|
    ensures Intervals(s + [x], from) == Extended(s, x, [])
  {
    hide Backward, Intervals, FirstBackward, FirstAbove, Peak;
    var t, n := s + [x], |s|;
    SnocFirstBackward(s, x, from);
    PeakOfPrefix(s, x, n);
    IntervalsAt(t, from);
    if Backward(t, n) {
      SnocFirstAbove(s, x, n, Peak(s));
      EmptyIntervals(t);
    }
  }

  lemma ExtendedBehind(s: seq<Seen>, x: Seen, first: Interval, rest: seq<Interval>)
    requires 0 < first.start < first.end < |s| && forall i | i in rest :: 0 < i.start < i.end <= |s|
    ensures Extended(s, x, [first] + rest) == [first] + Extended(s, x, rest)
  {
    hide Peak;
    if rest != [] {
      assert ([first] + rest)[|rest|] == rest[|rest| - 1];
      assert ([first] + rest)[..|rest|] == [first] + rest[..|rest| - 1];
    }
  }

  /** How one more tag changes the list of replays. */
  lemma {:induction false} SnocIntervals(s: seq<Seen>, x: Seen, from: nat)
    requires from <= |s|
    ensures Intervals(s + [x], from) == Extended(s, x, Intervals(s, from))
    decreases |s| - from
  {
    hide Backward, Intervals, FirstBackward, FirstAbove, Peak, Extended;
    var t, n, j := s + [x], |s|, FirstBackward(s, from);
    IntervalsAt(s, from);
    if j == n {
      SnocNoInterval(s, x, from);
    } else {
      SnocFirstBackward(s, x, from);
      PeakOfPrefix(s, x, j);
      IntervalsAt(t, from);
      var level := Peak(s[..j]);
      var e := FirstAbove(s, j, level);
      BackwardMeans(s, j);
      SnocFirstAbove(s, x, j, level);
      if e < n {
        SnocIntervals(s, x, e);
        ExtendedBehind(s, x, Interval(j, e), Intervals(s, e));
      } else {
        EmptyIntervals(s);
        EmptyIntervals(t);
        PeakStays(s, j);
        SnocOpenInterval(s, x, j);
        assert [Interval(j, e)] + Intervals(s, e) == [Interval(j, e)];
        var e2 := FirstAbove(t, j, level);
        assert Intervals(t, e2) == [];
        assert [Interval(j, e2)] + Intervals(t, e2) == [Interval(j, e2)];
      }
    }
  }

  lemma BackwardMeans(s: seq<Seen>, j: nat)
    requires j < |s| && Backward(s, j)
    ensures 0 < j && s[j].timestamp <= Peak(s[..j])
  {
  }

  /** A replay open at the end of `s` goes on, or is exceeded and then nothing new begins. */
  lemma SnocOpenInterval(s: seq<Seen>, x: Seen, j: nat)
    requires 0 < j < |s| && Peak(s) == Peak(s[..j])
    ensures Extended(s, x, [Interval(j, |s|)]) ==
            if x.timestamp <= Peak(s) then [Interval(j, |s| + 1)] else [Interval(j, |s|)]
    ensures x.timestamp > Peak(s) ==> Intervals(s + [x], |s|) == []
  {
    hide Peak;
    var r := [Interval(j, |s|)];
    assert r[..|r| - 1] == [];
    PeakOfPrefix(s, x, |s|);
    EmptyIntervals(s + [x]);
    assert FirstBackward(s + [x], |s| + 1) == |s| + 1;
  }

  // ------------------------------------------------------------ the two agree

  lemma RecordsPrefix(stream: Byte, s: seq<Seen>, x: Seen, r: seq<Interval>)
    requires forall i | i in r :: 0 < i.start < i.end < |s|
    ensures Records(stream, s + [x], r) == Records(stream, s, r)
  {
    forall k | 0 <= k < |r| ensures RecordOf(stream, s + [x], r[k]) == RecordOf(stream, s, r[k]) {
      PeakOfPrefix(s, x, r[k].start);
    }
  }

  /** Only the last replay can reach the end. */
  lemma EarlierAreClosed(s: seq<Seen>)
    ensures var r := Intervals(s, 0); forall k | 0 <= k < |r| - 1 :: r[k].end < |s|
    ensures var r := Intervals(s, 0); forall i | i in r :: 0 < i.start < i.end <= |s|
  {
    IntervalsAreTheReplays(s, 0, 0);
    var r := Intervals(s, 0);
    forall k | 0 <= k < |r| - 1 ensures r[k].end < |s| {
      assert r[k].end <= r[|r| - 1].start;
      assert r[|r| - 1] in r;
    }
  }

  lemma RecordsSnoc(stream: Byte, s: seq<Seen>, r: seq<Interval>, i: Interval)
    requires (forall x | x in r :: 0 < x.start < x.end <= |s|) && 0 < i.start < i.end <= |s|
    ensures Records(stream, s, r + [i]) == Records(stream, s, r) + [RecordOf(stream, s, i)]
  {
  }

  function HighestOf(s: seq<Seen>): Option<nat> { if s == [] then None else Some(Peak(s)) }

  function ReportsOf(stream: Byte, s: seq<Seen>, shut: seq<Interval>): seq<Replay>
    requires forall i | i in shut :: 0 < i.start < i.end <= |s|
  {
    Records(stream, s, shut)
  }

  function PendingOf(s: seq<Seen>, i: Interval): Pending
    requires 0 < i.start < i.end <= |s|
  {
    Pending(s[i.start].position, Peak(s[..i.start]), s[i.start].timestamp, i.end - i.start)
  }

  /** The clock's fields for a list of closed replays, and one that may still be open behind them. */
  ghost predicate Holds(stream: Byte, c: Clock, s: seq<Seen>, shut: seq<Interval>, open: Option<Interval>)
    requires forall i | i in shut :: 0 < i.start < i.end <= |s|
    requires open.Some? ==> 0 < open.value.start < open.value.end == |s|
  {
    && c.last == HighestOf(s) && c.replays == ReportsOf(stream, s, shut)
    && match open
       case None => c.pending.None?
       case Some(i) => HighestOf(s) == HighestOf(s[..i.start]) && c.pending == Some(PendingOf(s, i))
  }

  lemma HighestSnoc(s: seq<Seen>, x: Seen)
    ensures HighestOf(s + [x]) == if s == [] || x.timestamp > Peak(s) then Some(x.timestamp) else HighestOf(s)
    ensures (s + [x])[..|s|] == s
  {
    PeakOfPrefix(s, x, |s|);
  }

  lemma ReportsSnoc(stream: Byte, s: seq<Seen>, x: Seen, shut: seq<Interval>)
    requires forall i | i in shut :: 0 < i.start < i.end < |s|
    ensures ReportsOf(stream, s + [x], shut) == ReportsOf(stream, s, shut)
  {
    RecordsPrefix(stream, s, x, shut);
  }

  /** A replay that goes on counts one tag more; one that begins counts its first. */
  lemma PendingSnoc(s: seq<Seen>, x: Seen, start: nat)
    requires 0 < start <= |s|
    ensures (s + [x])[..start] == s[..start]
    ensures PendingOf(s + [x], Interval(start, |s| + 1)) ==
            if start < |s| then PendingOf(s, Interval(start, |s|)).(count := |s| - start + 1)
            else Pending(x.position, Peak(s), x.timestamp, 1)
  {
    assert (s + [x])[..start] == s[..start];
    if start == |s| { assert s[..start] == s; }
  }

  /** The record of a replay that was exceeded is the event its pending part would report. */
  lemma ExceededSnoc(stream: Byte, s: seq<Seen>, x: Seen, shut: seq<Interval>, open: Interval)
    requires (forall i | i in shut :: 0 < i.start < i.end < |s|) && 0 < open.start < open.end == |s|
    ensures ReportsOf(stream, s + [x], shut + [open]) == ReportsOf(stream, s, shut) + [Event(stream, PendingOf(s, open), true)]
  {
    hide Peak;
    RecordsPrefix(stream, s, x, shut);
    PeakOfPrefix(s, x, open.start);
    RecordsSnoc(stream, s + [x], shut, open);
  }

  predicate Inside(s: seq<Seen>, r: seq<Interval>) { forall i | i in r :: 0 < i.start < i.end <= |s| }

  /** The clock's fields for all replays, of which only the last may be open. */
  ghost predicate HoldsAll(stream: Byte, c: Clock, s: seq<Seen>, r: seq<Interval>)
    requires Inside(s, r)
  {
    if OpenAtEnd(s, r) then Holds(stream, c, s, r[..|r| - 1], Some(r[|r| - 1])) else Holds(stream, c, s, r, None)
  }

  lemma HoldsOpen(stream: Byte, c: Clock, s: seq<Seen>, shut: seq<Interval>, open: Interval)
    requires Inside(s, shut) && 0 < open.start < open.end == |s|
    ensures Inside(s, shut + [open]) && (HoldsAll(stream, c, s, shut + [open]) <==> Holds(stream, c, s, shut, Some(open)))
  {
    hide Holds;
    assert (shut + [open])[..|shut|] == shut && (shut + [open])[|shut|] == open;
  }

  lemma MeansHolds(stream: Byte, c: Clock, s: seq<Seen>)
    ensures Inside(s, Intervals(s, 0))
    ensures ClockMeans(stream, c, s) <==> HoldsAll(stream, c, s, Intervals(s, 0))
  {
    hide Intervals, Peak, Records;
    EarlierAreClosed(s);
  }

  lemma Continues(stream: Byte, c: Clock, s: seq<Seen>, x: Seen, shut: seq<Interval>, open: Interval)
    requires (forall i | i in shut :: 0 < i.start < i.end < |s|) && 0 < open.start < open.end == |s|
    requires Holds(stream, c, s, shut, Some(open)) && x.timestamp <= Peak(s[..open.start])
    ensures Holds(stream, Tick(stream, c, x), s + [x], shut, Some(Interval(open.start, |s| + 1)))
  {
    hide Peak, ReportsOf;
    ReportsSnoc(stream, s, x, shut);
    PendingSnoc(s, x, open.start);
    HighestSnoc(s, x);
  }

  lemma Exceeds(stream: Byte, c: Clock, s: seq<Seen>, x: Seen, shut: seq<Interval>, open: Interval)
    requires (forall i | i in shut :: 0 < i.start < i.end < |s|) && 0 < open.start < open.end == |s|
    requires Holds(stream, c, s, shut, Some(open)) && x.timestamp > Peak(s[..open.start])
    ensures Holds(stream, Tick(stream, c, x), s + [x], shut + [open], None)
  {
    hide Peak, ReportsOf;
    ExceededSnoc(stream, s, x, shut, open);
    HighestSnoc(s, x);
  }

  lemma Begins(stream: Byte, c: Clock, s: seq<Seen>, x: Seen, shut: seq<Interval>)
    requires forall i | i in shut :: 0 < i.start < i.end < |s|
    requires Holds(stream, c, s, shut, None)
    ensures if s != [] && x.timestamp < Peak(s)
            then Holds(stream, Tick(stream, c, x), s + [x], shut, Some(Interval(|s|, |s| + 1)))
            else Holds(stream, Tick(stream, c, x), s + [x], shut, None)
  {
    hide Peak, ReportsOf, PendingOf;
    ReportsSnoc(stream, s, x, shut);
    HighestSnoc(s, x);
    if s != [] { PendingSnoc(s, x, |s|); }
  }

  lemma TickOpen(stream: Byte, c: Clock, s: seq<Seen>, x: Seen, shut: seq<Interval>, open: Interval)
    requires (forall i | i in shut :: 0 < i.start < i.end < |s|) && 0 < open.start < open.end == |s|
    requires Holds(stream, c, s, shut, Some(open))
    ensures var r := if x.timestamp <= Peak(s[..open.start]) then shut + [Interval(open.start, |s| + 1)] else shut + [open];
            Inside(s + [x], r) && HoldsAll(stream, Tick(stream, c, x), s + [x], r)
  {
    hide Holds, HoldsAll, Tick, Peak;
    if x.timestamp <= Peak(s[..open.start]) {
      Continues(stream, c, s, x, shut, open);
      HoldsOpen(stream, Tick(stream, c, x), s + [x], shut, Interval(open.start, |s| + 1));
    } else {
      Exceeds(stream, c, s, x, shut, open);
      HoldsShut(stream, Tick(stream, c, x), s + [x], shut + [open]);
    }
  }

  lemma HoldsShut(stream: Byte, c: Clock, s: seq<Seen>, r: seq<Interval>)
    requires forall i | i in r :: 0 < i.start < i.end < |s|
    ensures HoldsAll(stream, c, s, r) <==> Holds(stream, c, s, r, None)
  {
    hide Holds;
  }

  lemma TickShut(stream: Byte, c: Clock, s: seq<Seen>, x: Seen, shut: seq<Interval>)
    requires forall i | i in shut :: 0 < i.start < i.end < |s|
    requires Holds(stream, c, s, shut, None)
    ensures var r := if s != [] && x.timestamp < Peak(s) then shut + [Interval(|s|, |s| + 1)] else shut;
            Inside(s + [x], r) && HoldsAll(stream, Tick(stream, c, x), s + [x], r)
  {
    hide Holds, HoldsAll, Tick, Peak;
    Begins(stream, c, s, x, shut);
    if s != [] && x.timestamp < Peak(s) {
      HoldsOpen(stream, Tick(stream, c, x), s + [x], shut, Interval(|s|, |s| + 1));
    } else {
      HoldsShut(stream, Tick(stream, c, x), s + [x], shut);
    }
  }

  lemma OthersAreClosed(s: seq<Seen>)
    ensures var r := Intervals(s, 0);
            if OpenAtEnd(s, r) then
              0 < r[|r| - 1].start < |s| && forall i | i in r[..|r| - 1] :: 0 < i.start < i.end < |s|
            else forall i | i in r :: 0 < i.start < i.end < |s|
  {
    hide Intervals, Backward, Peak;
    EarlierAreClosed(s);
    var r := Intervals(s, 0);
    if r != [] {
      assert r == r[..|r| - 1] + [r[|r| - 1]] && r[|r| - 1] in r;
      forall i | i in r[..|r| - 1] ensures 0 < i.start < i.end < |s| {
        var k :| 0 <= k < |r| - 1 && r[k] == i;
        assert r[k] in r;
      }
    }
  }

  lemma TickMeans(stream: Byte, c: Clock, s: seq<Seen>, x: Seen)
    requires ClockMeans(stream, c, s)
    ensures ClockMeans(stream, Tick(stream, c, x), s + [x])
  {
    hide ClockMeans, Intervals, Peak, Holds, HoldsAll, Tick, Backward;
    var r := Intervals(s, 0);
    MeansHolds(stream, c, s);
    MeansHolds(stream, Tick(stream, c, x), s + [x]);
    OthersAreClosed(s);
    SnocIntervals(s, x, 0);
    if OpenAtEnd(s, r) {
      var shut, open := r[..|r| - 1], r[|r| - 1];
      assert r == shut + [open];
      HoldsOpen(stream, c, s, shut, open);
      TickOpen(stream, c, s, x, shut, open);
    } else {
      HoldsShut(stream, c, s, r);
      TickShut(stream, c, s, x, r);
    }
  }

  /** Step by step, the observer holds exactly the maximal replays of everything it saw. */
  lemma {:induction false} TicksMeanIntervals(stream: Byte, s: seq<Seen>)
    ensures ClockMeans(stream, Ticks(stream, s), s)
  {
    hide ClockMeans, Tick, Intervals;
    if s == [] {
      NothingSeen(stream);
    } else {
      var before, x := s[..|s| - 1], s[|s| - 1];
      assert before + [x] == s;
      TicksMeanIntervals(stream, before);
      TickMeans(stream, Ticks(stream, before), before, x);
    }
  }

  lemma NothingSeen(stream: Byte)
    ensures ClockMeans(stream, Ticks(stream, []), [])
  {
  }

  /** When a part closes, it has reported every maximal replay of the stream once, in order, with
      its exact count, and marked recovered exactly when its maximum was exceeded. */
  lemma ReportedAreTheReplays(stream: Byte, s: seq<Seen>)
    ensures (forall i | i in Intervals(s, 0) :: 0 < i.start < i.end <= |s|)
            && Reported(stream, Ticks(stream, s)) == Records(stream, s, Intervals(s, 0))
  {
    hide Intervals, Ticks, Peak, Backward, Records;
    EarlierAreClosed(s);
    TicksMeanIntervals(stream, s);
    var r := Intervals(s, 0);
    if OpenAtEnd(s, r) {
      assert r == r[..|r| - 1] + [r[|r| - 1]];
      RecordsSnoc(stream, s, r[..|r| - 1], r[|r| - 1]);
    }
  }
}
