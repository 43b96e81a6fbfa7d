/**
 Leader election over the sentinel row: one worker's bid against the store, the exact moment
 a bid may steal, and the order of all wins over a whole fleet.
 */
module Leadership {
  import opened Types
  import opened LeaseTable
  import opened LeaseStore
  import opened Taker
  import opened Coordinator

  // ---- One bid -----------------------------------------------------------------------

  /** The sentinel as a scan shows it, if it has a row. */
  function Sentinel(rows: map<Key, Row>): Option<RawLease> {
    if LeaderKey in rows then
      Some(RawLease(LeaderKey, rows[LeaderKey].owner, rows[LeaderKey].counter, rows[LeaderKey].completed))
    else None
  }

  function SentinelRows(row: Option<RawLease>): seq<RawLease> {
    if row.Some? then [row.value] else []
  }

  /** What a bid may do, given the sentinel it scanned and whether its owner looks dead. */
  datatype Bid = Renewal(counter: nat) | Creation | Steal(seen: nat) | NoBid

  function BidFor(row: Option<RawLease>, me: Worker, takeable: bool): Bid {
    if row.Some? && row.value.owner == Some(me) then Renewal(row.value.counter)
    else if row.None? then Creation
    else if takeable then Steal(row.value.counter)
    else NoBid
  }

  predicate BidLands(rows: map<Key, Row>, me: Worker, bid: Bid) {
    match bid
    case Renewal(c) => LeaseTable.Held(rows, LeaderKey, me, c)
    case Creation => LeaderKey !in rows
    case Steal(c) => LeaderKey in rows && rows[LeaderKey].counter == c
    case NoBid => false
  }

  function Bidden(rows: map<Key, Row>, me: Worker, bid: Bid): map<Key, Row> {
    match bid
    case Renewal(c) => Renewed(rows, LeaderKey, me, c)
    case Creation => CreatedOwned(rows, LeaderKey, me)
    case Steal(c) => Claimed(rows, LeaderKey, me, c)
    case NoBid => rows
  }

  class Leadership {
    const owner: Worker
    const coord: LeaseCoordinator
    var counter: nat

    ghost predicate Valid()
      reads this, coord
    {
      coord.Valid() && coord.me == owner && coord.maxTake == 1
    }

    constructor (owner: Worker, leaseDuration: nat)
      ensures Valid() && coord.scans == [] && fresh(coord) && this.owner == owner
      ensures coord.leaseDuration == leaseDuration
    {
      this.owner, counter := owner, 0;
      coord := new LeaseCoordinator(owner, 1, leaseDuration);
    }

    /** Hold or win leadership for this cycle; `row` is the sentinel of an earlier scan. */
    method Step(store: LeaseStore, row: Option<RawLease>, now: nat) returns (leads: bool)
      requires Valid() && (row.Some? ==> row.value.key == LeaderKey)
      modifies this, coord, store
      ensures Valid() && coord.scans == old(coord.scans) + [Scan(SentinelRows(row), now)]
      ensures var bid := BidFor(row, owner,
                row.Some? && StealDue(coord.scans, owner, coord.leaseDuration, row.value));
              && store.rows == Bidden(old(store.rows), owner, bid) && leads == BidLands(old(store.rows), owner, bid)
      ensures leads ==> LeaseTable.Held(store.rows, LeaderKey, owner, counter)
      ensures !leads ==> store.rows == old(store.rows) && counter == old(counter)
      // One's own sentinel: kept, one up, if it is still as scanned.
      ensures row.Some? && row.value.owner == Some(owner) ==>
        (leads <==> LeaseTable.Held(old(store.rows), LeaderKey, owner, row.value.counter))
      // No sentinel: created, if there is still none.
      ensures row.None? ==> (leads <==> LeaderKey !in old(store.rows))
      // Another's or nobody's: taken over if the steal is due and nothing was written since the scan.
      ensures row.Some? && row.value.owner != Some(owner) ==>
        (leads <==>
          && StealDue(coord.scans, owner, coord.leaseDuration, row.value)
          && LeaderKey in old(store.rows) && old(store.rows)[LeaderKey].counter == row.value.counter)
      ensures leads ==> store.rows == old(store.rows)[LeaderKey :=
        if row.None? then Row(Some(owner), 1, 0, false, [])
        else old(store.rows)[LeaderKey].(owner := Some(owner), counter := row.value.counter + 1)]
    {
      hide IsTake, Views, SeenAfter, OwnerExpired, SentinelRows;
      var take := coord.Tick(SentinelRows(row), now);
      TakeableExactly(coord.seen, row, owner, coord.leaseDuration, now, take);
      assert coord.seen == SeenAfter(coord.scans, owner);
      var takeable := LeaderKey in take;
      if row.Some? && row.value.owner == Some(owner) {
        var c := store.Renew(LeaderKey, owner, row.value.counter);
        if c.Some? {
          counter := c.value;
        }
        leads := c.Some?;
      } else if row.None? {
        var c := store.TryAcquireLeadership(owner, None);
        if c.Some? {
          counter := c.value;
        }
        leads := c.Some?;
      } else if takeable {
        var c := store.TryAcquireLeadership(owner, Some(row.value.counter));
        if c.Some? {
          counter := c.value;
        }
        leads := c.Some?;
      } else {
        leads := false;
      }
    }
  }

  // ---- When a bid may steal ----------------------------------------------------------

  /** The sentinel is released, or its owner's record is stale, in the bidder's own view. */
  predicate StealDue(scans: seq<Scan>, me: Worker, duration: nat, row: RawLease)
    requires scans != []
  {
    && !row.completed
    && (row.owner.None? || OwnerExpired(SeenAfter(scans, me), row.owner, me, duration, scans[|scans| - 1].now))
  }

  lemma LoneRow(l: Snapshot, p: Snapshot -> bool)
    ensures Filter([l], p) == if p(l) then [l] else []
  {
    assert [l][..0] == [];
  }

  lemma LoneSort(l: Snapshot)
    ensures Sort([l]) == [l] && Keys(Sort([l])[..1]) == [l.key]
  {
    assert [l][..0] == [];
    assert Sort([l])[..1] == [l];
    assert Keys([l]) == [l.key];
  }

  /** A lone lease of nobody, or of a dead owner, is taken. */
  lemma LoneFree(l: Snapshot, me: Worker, take: seq<Key>)
    requires IsTake([l], me, 1, take) && !l.completed && AvailableTo(me)(l)
    ensures l.key in take
  {
    LoneRow(l, Active);
    LoneRow(l, AvailableTo(me));
    LoneRow(l, LiveFor(me));
    LoneSort(l);
    assert LiveOwners([l]) == {} && {} + {me} == {me};
  }

  lemma LoneShare(l: Snapshot, me: Worker, v: Worker)
    requires l.owner == Some(v) && !l.expired && v != me
    ensures Holds([l], v) <= Target([l], me)
  {
    LoneRow(l, LiveFor(v));
    assert LiveOwners([l]) == {v};
    assert |{v, me}| == 2 && {v} + {me} == {v, me};
  }

  /** A lone live lease of another worker is not taken. */
  lemma LoneLive(l: Snapshot, me: Worker, take: seq<Key>)
    requires IsTake([l], me, 1, take) && (l.completed || !AvailableTo(me)(l))
    ensures l.key !in take
  {
    LoneRow(l, Active);
    if l.owner.Some? && !l.expired && l.owner.value != me {
      LoneShare(l, me, l.owner.value);
    }
    if l.key in take {
      hide IsTake, Target, Holds, MostLoaded, Filter;
      var r := TakenWhy([l], me, 1, take, l.key);
    }
  }

  lemma NoRowsNoTake(views: seq<Snapshot>, me: Worker, take: seq<Key>)
    requires views == [] && IsTake(views, me, 1, take)
    ensures take == []
  {
    assert Filter([], Active) == [];
  }

  lemma LoneView(seen: Freshness, row: Option<RawLease>, me: Worker, duration: nat, now: nat)
    requires row.Some? ==> row.value.key == LeaderKey
    ensures Views(seen, SentinelRows(row), me, duration, now) ==
            if row.Some? then [View(seen, row.value, me, duration, now)] else []
  {
    if row.Some? {
      assert [row.value][..0] == [];
    }
  }

  lemma TakeableExactly(seen: Freshness, row: Option<RawLease>, me: Worker, duration: nat, now: nat, take: seq<Key>)
    requires row.Some? ==> row.value.key == LeaderKey
    requires IsTake(Views(seen, SentinelRows(row), me, duration, now), me, 1, take)
    ensures row.None? ==> LeaderKey !in take
    ensures row.Some? && row.value.owner != Some(me) ==>
      (LeaderKey in take <==>
       && !row.value.completed
       && (row.value.owner.None? || OwnerExpired(seen, row.value.owner, me, duration, now)))
  {
    hide IsTake, Views;
    LoneView(seen, row, me, duration, now);
    if row.Some? {
      var l := View(seen, row.value, me, duration, now);
      if !l.completed && AvailableTo(me)(l) {
        LoneFree(l, me, take);
      } else {
        LoneLive(l, me, take);
      }
    } else {
      NoRowsNoTake([], me, take);
    }
  }

  // ---- A leader that renews is stolen from all the same ------------------------------

  /** The scans a bidder's coordinator is fed: the sentinel or nothing. */
  ghost predicate SentinelScans(scans: seq<Scan>) {
    forall i :: 0 <= i < |scans| ==>
      |scans[i].rows| <= 1 && forall r :: r in scans[i].rows ==> r.key == LeaderKey
  }

  /** From scan `i` on, every scan shows `w` in office. */
  ghost predicate InOffice(scans: seq<Scan>, w: Worker, i: nat) {
    i < |scans| && forall k :: i <= k < |scans| ==> HoldsLease(scans[k].rows, w)
  }

  lemma SentinelsHaveNoBeat(scans: seq<Scan>, w: Worker)
    requires SentinelScans(scans)
    ensures AllFromStore(scans)
    ensures forall k :: 0 <= k < |scans| ==> Reading(scans[k].rows, w) == None
  {
    forall k | 0 <= k < |scans| ensures Reading(scans[k].rows, w) == None {
      ReadingMeans(scans[k].rows, w);
    }
  }

  /** The bidder's record of the leader dates from the start of its unbroken time in office. */
  lemma {:induction false} RecordIsTenure(scans: seq<Scan>, me: Worker, w: Worker) returns (i: nat)
    requires w != me && SentinelScans(scans) && scans != [] && HoldsLease(scans[|scans| - 1].rows, w)
    ensures w in SeenAfter(scans, me) && InOffice(scans, w, i) && scans[i].now == SeenAfter(scans, me)[w].lastChange
    ensures i > 0 ==> !HoldsLease(scans[i - 1].rows, w)
    decreases |scans|
  {
    var before, scan := scans[..|scans| - 1], scans[|scans| - 1];
    SentinelsHaveNoBeat(scans, w);
    TickTracks(SeenAfter(before, me), scan, me, w);
    i := |before|;
    if before != [] {
      if HoldsLease(before[|before| - 1].rows, w) {
        i := RecordIsTenure(before, me, w);
        assert forall k :: 0 <= k < |before| ==> scans[k] == before[k];
      } else {
        SentinelsHaveNoBeat(before, w);
        TickTracks(SeenAfter(before[..|before| - 1], me), before[|before| - 1], me, w);
      }
    }
  }

  /**
   When a sitting leader is stolen from: exactly when it has been in office longer than the
   lease duration in the bidder's view. Its renewals, the counters, play no part.
   */
  lemma LeaderStolenExactly(scans: seq<Scan>, me: Worker, w: Worker, gap: nat, duration: nat, row: RawLease)
    requires w != me && SentinelScans(scans) && scans != [] && InOrder(scans, gap)
    requires scans[|scans| - 1].rows == [row] && row.owner == Some(w) && !row.completed
    ensures StealDue(scans, me, duration, row)
            <==> exists i: nat :: InOffice(scans, w, i) && scans[|scans| - 1].now > scans[i].now + duration
  {
    assert LeaseOf(row, w) && row in scans[|scans| - 1].rows;
    var j := RecordIsTenure(scans, me, w);
    if i: nat :| InOffice(scans, w, i) && scans[|scans| - 1].now > scans[i].now + duration {
      ClockRuns(scans, gap, j, i);
    }
  }

  /** So a leader that renewed between two scans is stolen from: here, 1001 ms apart. */
  lemma RenewingLeaderIsStolen()
    ensures var scans := [Scan([RawLease(LeaderKey, Some(7), 1, false)], 0),
                          Scan([RawLease(LeaderKey, Some(7), 2, false)], 1001)];
            StealDue(scans, 8, 1000, scans[1].rows[0])
  {
    var early, late := RawLease(LeaderKey, Some(7), 1, false), RawLease(LeaderKey, Some(7), 2, false);
    var scans := [Scan([early], 0), Scan([late], 1001)];
    assert early in scans[0].rows && late in scans[1].rows && LeaseOf(early, 7) && LeaseOf(late, 7);
    LeaderStolenExactly(scans, 8, 7, 1001, 1000, late);
    assert InOffice(scans, 7, 0);
  }

  // ---- All bids of a fleet -----------------------------------------------------------

  /** What a worker saw when it scanned, and how many writes the sentinel had had by then. */
  datatype Look = Look(row: Option<RawLease>, writes: nat)

  /** A bid that landed and was heard: who, with which counter, as which write, after which scan. */
  datatype Win = Win(worker: Worker, counter: nat, write: nat, look: nat)

  /** `writes` and `wins` are history. */
  datatype Race = Race(rows: map<Key, Row>, looks: map<Worker, Look>, writes: nat, wins: seq<Win>)

  datatype Move =
    | Scans(w: Worker)
    | Bids(w: Worker, takeable: bool, lands: bool, heard: bool)
    | Resigns(w: Worker, lands: bool)
    | Elsewhere(rows: map<Key, Row>)

  ghost predicate SameSentinel(a: map<Key, Row>, b: map<Key, Row>) {
    Sentinel(a) == Sentinel(b)
  }

  ghost predicate Can(r: Race, m: Move) {
    match m
    case Scans(w) => true
    case Bids(w, takeable, lands, heard) =>
      w in r.looks && (lands ==> BidLands(r.rows, w, BidFor(r.looks[w].row, w, takeable)))
    case Resigns(w, lands) =>
      && w in r.looks && r.looks[w].row.Some? && r.looks[w].row.value.owner == Some(w)
      && (lands ==> LeaseTable.Held(r.rows, LeaderKey, w, r.looks[w].row.value.counter))
    case Elsewhere(rows) => SameSentinel(rows, r.rows)
  }

  ghost function Do(r: Race, m: Move): Race
    requires Can(r, m)
  {
    match m
    case Scans(w) => r.(looks := r.looks[w := Look(Sentinel(r.rows), r.writes)])
    case Bids(w, takeable, lands, heard) =>
      var done := r.(looks := r.looks - {w});
      if !lands then done
      else
        var rows := Bidden(r.rows, w, BidFor(r.looks[w].row, w, takeable));
        done.(rows := rows, writes := r.writes + 1,
              wins := if heard then r.wins + [Win(w, rows[LeaderKey].counter, r.writes + 1, r.looks[w].writes)]
                      else r.wins)
    case Resigns(w, lands) =>
      var done := r.(looks := r.looks - {w});
      if !lands then done
      else done.(rows := LeaseTable.Released(r.rows, LeaderKey, w, r.looks[w].row.value.counter), writes := r.writes + 1)
    case Elsewhere(rows) => r.(rows := rows)
  }

  /** The sentinel's counter is the number of writes it ever had, in the table and in every look. */
  ghost predicate Counted(row: Option<RawLease>, writes: nat) {
    match row
    case None => writes == 0
    case Some(l) => l.counter == writes && writes > 0
  }

  ghost predicate RaceInv(r: Race) {
    && Counted(Sentinel(r.rows), r.writes)
    && (forall w :: w in r.looks ==> Counted(r.looks[w].row, r.looks[w].writes))
    && (forall i :: 0 <= i < |r.wins| ==>
          r.wins[i].counter == r.wins[i].write == r.wins[i].look + 1 && r.wins[i].write <= r.writes)
    && (forall i, j :: 0 <= i < j < |r.wins| ==> r.wins[i].write < r.wins[j].write)
  }

  /** Every write that lands raises the counter by one, on the counter its author saw. */
  lemma LandedBid(r: Race, w: Worker, takeable: bool)
    requires RaceInv(r) && w in r.looks && BidLands(r.rows, w, BidFor(r.looks[w].row, w, takeable))
    ensures var rows := Bidden(r.rows, w, BidFor(r.looks[w].row, w, takeable));
            LeaderKey in rows && rows[LeaderKey].counter == r.writes + 1 && r.looks[w].writes == r.writes
  {
  }

  lemma StepKeepsRace(r: Race, m: Move)
    requires RaceInv(r) && Can(r, m)
    ensures RaceInv(Do(r, m)) && (LeaderKey in r.rows ==> LeaderKey in Do(r, m).rows)
    ensures r.wins <= Do(r, m).wins
  {
    if m.Bids? && m.lands {
      LandedBid(r, m.w, m.takeable);
    }
    if m.Elsewhere? {
      assert Sentinel(m.rows).Some? <==> LeaderKey in m.rows;
    }
  }

  ghost predicate RaceRuns(r: Race, moves: seq<Move>)
    decreases |moves|
  {
    moves == [] || (Can(r, moves[0]) && RaceRuns(Do(r, moves[0]), moves[1..]))
  }

  ghost function RaceEnd(r: Race, moves: seq<Move>): Race
    requires RaceRuns(r, moves)
    decreases |moves|
  {
    if moves == [] then r else RaceEnd(Do(r, moves[0]), moves[1..])
  }

  lemma {:induction false} RaceAlways(r: Race, moves: seq<Move>)
    requires RaceInv(r) && RaceRuns(r, moves)
    ensures RaceInv(RaceEnd(r, moves)) && (LeaderKey in r.rows ==> LeaderKey in RaceEnd(r, moves).rows)
    decreases |moves|
  {
    if moves != [] {
      StepKeepsRace(r, moves[0]);
      RaceAlways(Do(r, moves[0]), moves[1..]);
    }
  }

  /**
   Wins of a whole fleet are lined up by the counter: strictly increasing in the order they
   were written, and between a winner's scan and its winning write no other write fell.
   */
  lemma WinsAreLinear(r: Race, moves: seq<Move>)
    requires LeaderKey !in r.rows && r.looks == map[] && r.writes == 0 && r.wins == []
    requires RaceRuns(r, moves)
    ensures var wins := RaceEnd(r, moves).wins;
            && (forall i, j :: 0 <= i < j < |wins| ==> wins[i].counter < wins[j].counter && wins[i].write < wins[j].write)
            && (forall i :: 0 <= i < |wins| ==> wins[i].look + 1 == wins[i].write)
  {
    RaceAlways(r, moves);
  }

  /** The sentinel, once there, is there for good. */
  lemma SentinelStays(r: Race, moves: seq<Move>, more: seq<Move>)
    requires LeaderKey !in r.rows && r.looks == map[] && r.writes == 0 && r.wins == []
    requires RaceRuns(r, moves) && LeaderKey in RaceEnd(r, moves).rows && RaceRuns(RaceEnd(r, moves), more)
    ensures LeaderKey in RaceEnd(RaceEnd(r, moves), more).rows
  {
    RaceAlways(r, moves);
    RaceAlways(RaceEnd(r, moves), more);
  }
}
