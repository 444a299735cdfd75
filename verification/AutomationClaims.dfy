/** What keeps a live room from being recorded twice: the history, the durable state, the job slots. */
module AutomationClaims {
  import opened Wrappers

  type Creator = string
  type Room(==,!new)
  type Session(==,!new)
  type OutputPath(==,!new)

  /** One complete observation of one creator. */
  datatype Observation = Live(room: Room) | Offline | Unknown

  datatype Item = Item(creator: Creator, seen: Observation)

  /** A durable intention to start, spanning the window in which the service may crash. */
  datatype Claim = Claim(creator: Creator, room: Room, output: OutputPath, previous: Option<Session>)

  datatype State = State(consumed: map<Creator, Room>, claim: Option<Claim>)

  /** A controller slot's durable job; `current` says that it still owns work. */
  datatype Job = Idle | Job(session: Session, creator: Creator, output: OutputPath, room: Option<Room>, current: bool)

  predicate JobMatchesClaim(job: Job, claim: Claim) {
    job.Job? && job.creator == claim.creator && job.output == claim.output
  }

  predicate JobsMatchClaim(jobs: seq<Job>, claim: Claim) { exists s | 0 <= s < |jobs| :: JobMatchesClaim(jobs[s], claim) }

  predicate HasSession(jobs: seq<Job>, session: Session) {
    exists s | 0 <= s < |jobs| :: jobs[s].Job? && jobs[s].session == session
  }

  /** The slot the claim was made against is still as it was. */
  predicate JobsProveNoStart(jobs: seq<Job>, claim: Claim) {
    && !JobsMatchClaim(jobs, claim)
    && if claim.previous.None? then exists s | 0 <= s < |jobs| :: jobs[s].Idle?
       else HasSession(jobs, claim.previous.value)
  }

  predicate JobsMatchObservation(jobs: seq<Job>, creator: Creator, room: Room) {
    exists s | 0 <= s < |jobs| ::
      jobs[s].Job? && jobs[s].current && jobs[s].creator == creator && jobs[s].room == Some(room)
  }

  // ------------------------------------------------------------------- the history

  datatype Happening = Observed(creator: Creator, seen: Observation) | Started(creator: Creator, room: Room)

  /** An observation after which the room may be started again. */
  predicate Separates(e: Happening, creator: Creator, room: Room) {
    e.Observed? && e.creator == creator && (e.seen == Offline || (e.seen.Live? && e.seen.room != room))
  }

  /** The room was started and nothing observed since allows starting it again. */
  ghost predicate Guarded(h: seq<Happening>, creator: Creator, room: Room) {
    exists i :: 0 <= i < |h| && h[i] == Started(creator, room) && forall k | i < k < |h| :: !Separates(h[k], creator, room)
  }

  /** Two starts of one room of one creator are always separated. */
  ghost predicate Separated(h: seq<Happening>) {
    forall i, j | 0 <= i < j < |h| && h[i].Started? && h[i] == h[j] ::
      exists k | i < k < j :: Separates(h[k], h[i].creator, h[i].room)
  }

  lemma GuardedSnoc(h: seq<Happening>, e: Happening, creator: Creator, room: Room)
    ensures Guarded(h + [e], creator, room) <==>
              e == Started(creator, room) || (Guarded(h, creator, room) && !Separates(e, creator, room))
  {
    var all := h + [e];
    assert all[|h|] == e;
    if Guarded(all, creator, room) {
      var i :| 0 <= i < |all| && all[i] == Started(creator, room) && forall k | i < k < |all| :: !Separates(all[k], creator, room);
      if i < |h| {
        assert h[i] == Started(creator, room) && !Separates(all[|h|], creator, room);
        forall k | i < k < |h| ensures !Separates(h[k], creator, room) { assert all[k] == h[k]; }
      }
    }
    if Guarded(h, creator, room) && !Separates(e, creator, room) {
      var i :| 0 <= i < |h| && h[i] == Started(creator, room) && forall k | i < k < |h| :: !Separates(h[k], creator, room);
      assert all[i] == h[i];
      forall k | i < k < |all| ensures !Separates(all[k], creator, room) { if k < |h| { assert all[k] == h[k]; } }
    }
    if e == Started(creator, room) { assert all[|h|] == Started(creator, room); }
  }

  lemma SeparatedSnoc(h: seq<Happening>, e: Happening)
    requires Separated(h) && (e.Started? ==> !Guarded(h, e.creator, e.room))
    ensures Separated(h + [e])
  {
    var all := h + [e];
    forall i, j | 0 <= i < j < |all| && all[i].Started? && all[i] == all[j]
      ensures exists k | i < k < j :: Separates(all[k], all[i].creator, all[i].room)
    {
      if j < |h| {
        assert h[i] == h[j] && h[i].Started?;
        var k :| i < k < j && Separates(h[k], h[i].creator, h[i].room);
        assert Separates(all[k], all[i].creator, all[i].room);
      } else {
        assert h[i] == e && !Guarded(h, e.creator, e.room);
        var k :| i < k < |h| && Separates(h[k], e.creator, e.room);
        assert Separates(all[k], all[i].creator, all[i].room);
      }
    }
  }

  // ------------------------------------------------------------------ the invariant

  /** Every guarded room is consumed, or claimed by a claim that its job proves accepted. */
  ghost predicate Covers(disk: State, jobs: seq<Job>, h: seq<Happening>) {
    && (forall c, r | Guarded(h, c, r) :: Covered(disk, jobs, c, r))
    && (disk.claim.Some? ==> forall r | Guarded(h, disk.claim.value.creator, r) :: r == disk.claim.value.room)
  }

  ghost predicate Covered(disk: State, jobs: seq<Job>, c: Creator, r: Room) {
    || (c in disk.consumed && disk.consumed[c] == r)
    || (disk.claim.Some? && disk.claim.value.creator == c && disk.claim.value.room == r && JobsMatchClaim(jobs, disk.claim.value))
  }

  /** A state whose consumed rooms cover by themselves needs no job. */
  lemma ClearedCovers(disk: State, jobs: seq<Job>, h: seq<Happening>)
    requires Covers(disk, jobs, h)
    requires disk.claim.Some? ==> !JobsMatchClaim(jobs, disk.claim.value)
    ensures Covers(State(disk.consumed, None), jobs, h)
  {
    forall c, r | Guarded(h, c, r) ensures Covered(State(disk.consumed, None), jobs, c, r) {
      assert Covered(disk, jobs, c, r);
    }
  }

  /** A claim whose job proves it accepted becomes a consumed room. */
  lemma PromotedCovers(disk: State, jobs: seq<Job>, h: seq<Happening>)
    requires Covers(disk, jobs, h) && disk.claim.Some?
    ensures Covers(State(disk.consumed[disk.claim.value.creator := disk.claim.value.room], None), jobs, h)
  {
    var after := State(disk.consumed[disk.claim.value.creator := disk.claim.value.room], None);
    forall c, r | Guarded(h, c, r) ensures Covered(after, jobs, c, r) {
      assert Covered(disk, jobs, c, r);
    }
  }

  /** A claim is made for a room that is not guarded, of a creator observed in that room. */
  lemma ClaimedCovers(consumed: map<Creator, Room>, jobs: seq<Job>, h: seq<Happening>, claim: Claim)
    requires Covers(State(consumed, None), jobs, h)
    requires forall r | Guarded(h, claim.creator, r) :: r == claim.room
    ensures Covers(State(consumed, Some(claim)), jobs, h)
  {
    forall c, r | Guarded(h, c, r) ensures Covered(State(consumed, Some(claim)), jobs, c, r) {
      assert Covered(State(consumed, None), jobs, c, r);
    }
  }

  /** A start accepted under its claim is covered by its job. */
  lemma StartedCovers(disk: State, jobs: seq<Job>, jobsAfter: seq<Job>, h: seq<Happening>)
    requires Covers(disk, jobs, h) && disk.claim.Some? && JobsMatchClaim(jobsAfter, disk.claim.value)
    ensures var claim := disk.claim.value; Covers(disk, jobsAfter, h + [Started(claim.creator, claim.room)])
  {
    var claim := disk.claim.value;
    forall c, r | Guarded(h + [Started(claim.creator, claim.room)], c, r) ensures Covered(disk, jobsAfter, c, r) {
      GuardedSnoc(h, Started(claim.creator, claim.room), c, r);
      if Guarded(h, c, r) { assert Covered(disk, jobs, c, r); }
    }
    forall r | Guarded(h + [Started(claim.creator, claim.room)], claim.creator, r) ensures r == claim.room {
      GuardedSnoc(h, Started(claim.creator, claim.room), claim.creator, r);
    }
  }

  /** One observation, with the change to the consumed rooms that it causes. */
  function Rearmed(consumed: map<Creator, Room>, item: Item, jobs: seq<Job>): map<Creator, Room> {
    if item.seen.Live? && JobsMatchObservation(jobs, item.creator, item.seen.room)
    then consumed[item.creator := item.seen.room]
    else if item.seen == Offline then consumed - {item.creator}
    else consumed
  }

  /** A whole cycle's observations, in order. */
  function RearmedAll(consumed: map<Creator, Room>, items: seq<Item>, jobs: seq<Job>): map<Creator, Room> {
    if items == [] then consumed
    else Rearmed(RearmedAll(consumed, items[..|items| - 1], jobs), items[|items| - 1], jobs)
  }

  function ObservationsOf(items: seq<Item>): (h: seq<Happening>)
    ensures |h| == |items| && forall i | 0 <= i < |items| :: h[i] == Observed(items[i].creator, items[i].seen)
  {
    seq(|items|, i requires 0 <= i < |items| => Observed(items[i].creator, items[i].seen))
  }

  lemma ObservedCovers(consumed: map<Creator, Room>, jobs: seq<Job>, h: seq<Happening>, item: Item)
    requires Covers(State(consumed, None), jobs, h)
    ensures Covers(State(Rearmed(consumed, item, jobs), None), jobs, h + [Observed(item.creator, item.seen)])
    ensures item.seen.Live? ==>
              forall r | Guarded(h + [Observed(item.creator, item.seen)], item.creator, r) :: r == item.seen.room
  {
    var e := Observed(item.creator, item.seen);
    var after := State(Rearmed(consumed, item, jobs), None);
    forall c, r | Guarded(h + [e], c, r) ensures Covered(after, jobs, c, r) {
      GuardedSnoc(h, e, c, r);
      assert Covered(State(consumed, None), jobs, c, r);
    }
    forall r | item.seen.Live? && Guarded(h + [e], item.creator, r) ensures r == item.seen.room {
      GuardedSnoc(h, e, item.creator, r);
    }
  }

  /** Jobs only matter while a claim is pending, and then only by still matching it. */
  lemma JobsChangeCovers(disk: State, jobs: seq<Job>, jobsAfter: seq<Job>, h: seq<Happening>)
    requires Covers(disk, jobs, h)
    requires disk.claim.Some? && JobsMatchClaim(jobs, disk.claim.value) ==> JobsMatchClaim(jobsAfter, disk.claim.value)
    ensures Covers(disk, jobsAfter, h)
  {
    forall c, r | Guarded(h, c, r) ensures Covered(disk, jobsAfter, c, r) { assert Covered(disk, jobs, c, r); }
  }

  /** Observations alone only ever free rooms. */
  lemma ObservedKeeps(disk: State, jobs: seq<Job>, h: seq<Happening>, e: Happening)
    requires Covers(disk, jobs, h) && e.Observed?
    ensures Covers(disk, jobs, h + [e])
  {
    forall c, r | Guarded(h + [e], c, r) ensures Covered(disk, jobs, c, r) { GuardedSnoc(h, e, c, r); }
    if disk.claim.Some? {
      forall r | Guarded(h + [e], disk.claim.value.creator, r) ensures r == disk.claim.value.room {
        GuardedSnoc(h, e, disk.claim.value.creator, r);
      }
    }
  }
}
