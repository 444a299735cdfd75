/** The strict reader of a session's connection log. */
module ConnectionLog {
  import opened Wrappers

  datatype Range = Range(first: int, last: int)

  /** One whole line: a closed connection with the parts it retained, an explicit resume, or other evidence. */
  datatype Line = Connection(number: int, parts: Option<Range>, timings: seq<int>)
                | Resume(number: int, nextPart: int)
                | Evidence

  datatype Scan = Scan(logged: nat, reserved: nat, claimed: set<int>)

  const Unread := Scan(0, 0, {})

  function Count(s: Scan): nat { if s.logged < s.reserved then s.reserved else s.logged }

  predicate Within(r: Range, i: int) { r.first <= i <= r.last }

  function Span(r: Range): set<int> { set i | r.first <= i <= r.last && Within(r, i) }

  predicate TimingsFit(timings: seq<int>, parts: Option<Range>) {
    forall t | t in timings :: parts.Some? && parts.value.first <= t <= parts.value.last
  }

  /** One more line against the parts on disk, or a refusal. */
  function ReadLine(s: Scan, line: Line, parts: nat): Option<Scan> {
    match line
    case Evidence => Some(s)
    case Resume(number, nextPart) =>
      if number < 1 || number <= Count(s) || !(1 <= nextPart <= parts + 1) then None else Some(s.(reserved := number))
    case Connection(number, range, timings) =>
      if number < 1 || number <= s.logged || number < s.reserved || !TimingsFit(timings, range) then None
      else if range.None? then Some(s.(logged := number))
      else if !(1 <= range.value.first <= range.value.last <= parts) || s.claimed * Span(range.value) != {} then None
      else Some(Scan(number, s.reserved, s.claimed + Span(range.value)))
  }

  function ReadAll(log: seq<Line>, parts: nat): Option<Scan> {
    if log == [] then Some(Unread)
    else
      var before := ReadAll(log[..|log| - 1], parts);
      if before.None? then None else ReadLine(before.value, log[|log| - 1], parts)
  }

  predicate Readable(log: seq<Line>, parts: nat) { ReadAll(log, parts).Some? }

  lemma ReadSnoc(log: seq<Line>, line: Line, parts: nat)
    ensures ReadAll(log + [line], parts) ==
            if Readable(log, parts) then ReadLine(ReadAll(log, parts).value, line, parts) else None
  {
    assert (log + [line])[..|log|] == log;
  }

  /** Parts that appear later never make an old log unreadable. */
  lemma {:induction false} MorePartsReadTheSame(log: seq<Line>, parts: nat, more: nat)
    requires Readable(log, parts) && parts <= more
    ensures ReadAll(log, more) == ReadAll(log, parts)
  {
    if log != [] { MorePartsReadTheSame(log[..|log| - 1], parts, more); }
  }

  lemma {:induction false} ReadablePrefix(log: seq<Line>, parts: nat, n: nat)
    requires Readable(log, parts) && n <= |log|
    ensures Readable(log[..n], parts)
  {
    if n < |log| {
      ReadablePrefix(log[..|log| - 1], parts, n);
      assert log[..|log| - 1][..n] == log[..n];
    } else {
      assert log[..n] == log;
    }
  }

  /** Read the whole log, line by line. */
  method ReadConnections(log: seq<Line>, parts: nat) returns (r: Option<Scan>)
    ensures r == ReadAll(log, parts)
  {
    hide ReadAll;
    var logged: nat, reserved: nat, claimed: set<int> := 0, 0, {};
    var k := 0;
    assert ReadAll(log[..0], parts) == Some(Unread) by { Nothing(log, parts); }
    while k < |log|
      invariant 0 <= k <= |log| && ReadAll(log[..k], parts) == Some(Scan(logged, reserved, claimed))
    {
      var line := log[k];
      ReadSnoc(log[..k], line, parts);
      assert log[..k] + [line] == log[..k + 1];
      Refusal(log, parts, k + 1);
      match line {
        case Evidence =>
        case Resume(number, nextPart) =>
          if number < 1 || number <= logged || number <= reserved || !(1 <= nextPart <= parts + 1) { return None; }
          reserved := number;
        case Connection(number, range, timings) =>
          if number < 1 || number <= logged || number < reserved || !TimingsFit(timings, range) { return None; }
          if range.Some? {
            if !(1 <= range.value.first <= range.value.last <= parts) || claimed * Span(range.value) != {} { return None; }
            claimed := claimed + Span(range.value);
          }
          logged := number;
      }
      k := k + 1;
    }
    assert log[..k] == log;
    return Some(Scan(logged, reserved, claimed));
  }

  lemma Nothing(log: seq<Line>, parts: nat)
    ensures ReadAll(log[..0], parts) == Some(Unread)
  {
  }

  lemma Refusal(log: seq<Line>, parts: nat, k: nat)
    requires k <= |log|
    ensures ReadAll(log[..k], parts).None? ==> ReadAll(log, parts).None?
  {
    if Readable(log, parts) { ReadablePrefix(log, parts, k); }
  }

  // --------------------------------------------------------- what readable means

  predicate IsNumbered(line: Line) { !line.Evidence? }

  /** Everything a readable log claims lies below what its scan reports. */
  lemma {:induction false} NumbersAreBelow(log: seq<Line>, parts: nat, k: nat)
    requires Readable(log, parts) && k < |log|
    ensures var s := ReadAll(log, parts).value;
            && (IsNumbered(log[k]) ==> 1 <= log[k].number <= Count(s))
            && (log[k].Connection? ==> log[k].number <= s.logged)
            && (log[k].Connection? && log[k].parts.Some? ==> Span(log[k].parts.value) <= s.claimed)
    ensures forall p | p in ReadAll(log, parts).value.claimed :: 1 <= p <= parts
  {
    var n := |log| - 1;
    if k < n {
      assert log[..n][k] == log[k];
      NumbersAreBelow(log[..n], parts, k);
    } else if n > 0 {
      NumbersAreBelow(log[..n], parts, 0);
    }
  }

  /** In a readable log no two connections share a number or a part, numbers grow in log order, and
      the next number to give out is above every one that was logged or reserved. */
  lemma {:induction false} ReadableMeansDisjoint(log: seq<Line>, parts: nat, j: nat, k: nat)
    requires Readable(log, parts) && j < k < |log|
    ensures log[j].Connection? && log[k].Connection? ==> log[j].number < log[k].number
    ensures log[j].Connection? && log[k].Resume? ==> log[j].number < log[k].number
    ensures log[j].Resume? && log[k].Resume? ==> log[j].number < log[k].number
    ensures log[j].Resume? && log[k].Connection? ==> log[j].number <= log[k].number
    ensures log[j].Connection? && log[k].Connection? && log[j].parts.Some? && log[k].parts.Some? ==>
              Span(log[j].parts.value) !! Span(log[k].parts.value)
  {
    var n := |log| - 1;
    if k < n {
      assert log[..n][j] == log[j] && log[..n][k] == log[k];
      ReadableMeansDisjoint(log[..n], parts, j, k);
    } else {
      assert log[..n][j] == log[j];
      NumbersAreBelow(log[..n], parts, j);
      ReservedIsBelow(log[..n], parts, j);
      var s := ReadAll(log[..n], parts).value;
      assert ReadLine(s, log[k], parts).Some?;
      if log[j].Connection? && log[k].Connection? && log[j].parts.Some? && log[k].parts.Some? {
        var claims, mine := Span(log[j].parts.value), Span(log[k].parts.value);
        assert claims <= s.claimed && s.claimed * mine == {};
        forall i | i in claims ensures i !in mine { assert i !in s.claimed * mine; }
      }
    }
  }

  lemma {:induction false} ReservedIsBelow(log: seq<Line>, parts: nat, k: nat)
    requires Readable(log, parts) && k < |log|
    ensures log[k].Resume? ==> log[k].number <= ReadAll(log, parts).value.reserved
  {
    var n := |log| - 1;
    if k < n {
      assert log[..n][k] == log[k];
      ReservedIsBelow(log[..n], parts, k);
    }
  }
}
