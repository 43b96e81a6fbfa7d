/**
 The lease coordinator: judges each owner alive from its heartbeat counter over time, and
 turns one scan of the lease table into a take decision.
 */
module Coordinator {
  import opened Types
  import opened Taker

  /** A lease-table row as a scan returns it, less what the coordinator ignores. */
  datatype RawLease = RawLease(key: Key, owner: Option<Worker>, counter: nat, completed: bool)

  /** The last counter seen for a worker and when it was first seen at that value. */
  datatype Seen = Seen(counter: nat, lastChange: nat)

  type Freshness = map<Worker, Seen>

  /** One scan of the table and the clock reading it is processed at. */
  datatype Scan = Scan(rows: seq<RawLease>, now: nat)

  // ---- One tick ----------------------------------------------------------------------

  predicate BeatOf(r: RawLease, w: Worker) {
    r.key.HeartbeatKey? && r.owner == Some(w)
  }

  predicate LeaseOf(r: RawLease, w: Worker) {
    !r.key.HeartbeatKey? && r.owner == Some(w)
  }

  function Beat(seen: Freshness, r: RawLease, now: nat): Freshness {
    if r.key.HeartbeatKey? && r.owner.Some? then
      var w := r.owner.value;
      if w in seen && seen[w].counter == r.counter then seen else seen[w := Seen(r.counter, now)]
    else seen
  }

  /** Every heartbeat row of a scan, in order. */
  function Beats(seen: Freshness, rows: seq<RawLease>, now: nat): Freshness {
    if rows == [] then seen else Beat(Beats(seen, rows[..|rows| - 1], now), rows[|rows| - 1], now)
  }

  function Grace(seen: Freshness, r: RawLease, me: Worker, now: nat): Freshness {
    if !r.key.HeartbeatKey? && r.owner.Some? && r.owner.value != me && r.owner.value !in seen then
      seen[r.owner.value := Seen(0, now)]
    else seen
  }

  /** A grace clock for every lease owner that was never heard of. */
  function Graces(seen: Freshness, rows: seq<RawLease>, me: Worker, now: nat): Freshness {
    if rows == [] then seen else Grace(Graces(seen, rows[..|rows| - 1], me, now), rows[|rows| - 1], me, now)
  }

  function Mentioned(rows: seq<RawLease>): set<Worker> {
    set r | r in rows && r.owner.Some? :: r.owner.value
  }

  function Retained(seen: Freshness, workers: set<Worker>): Freshness {
    map w | w in seen && w in workers :: seen[w]
  }

  /** The freshness map after one scan. */
  function Ticked(seen: Freshness, scan: Scan, me: Worker): Freshness {
    Retained(Graces(Beats(seen, scan.rows, scan.now), scan.rows, me, scan.now), Mentioned(scan.rows))
  }

  /** The subtraction saturates: a clock that ran backwards expires nobody. */
  predicate OwnerExpired(seen: Freshness, owner: Option<Worker>, me: Worker, duration: nat, now: nat) {
    && owner.Some? && owner.value != me && owner.value in seen
    && now > seen[owner.value].lastChange + duration
  }

  function View(seen: Freshness, r: RawLease, me: Worker, duration: nat, now: nat): Snapshot {
    Snapshot(r.key, r.owner, OwnerExpired(seen, r.owner, me, duration, now), r.completed)
  }

  /** The leases of a scan as the taker sees them; heartbeat rows are not leases. */
  function Views(seen: Freshness, rows: seq<RawLease>, me: Worker, duration: nat, now: nat): seq<Snapshot> {
    if rows == [] then []
    else
      var r := rows[|rows| - 1];
      Views(seen, rows[..|rows| - 1], me, duration, now)
      + if r.key.HeartbeatKey? then [] else [View(seen, r, me, duration, now)]
  }

  /** The freshness map after a sequence of scans, from nothing. */
  function SeenAfter(scans: seq<Scan>, me: Worker): Freshness {
    if scans == [] then map[] else Ticked(SeenAfter(scans[..|scans| - 1], me), scans[|scans| - 1], me)
  }

  class LeaseCoordinator {
    const me: Worker
    const maxTake: nat
    const leaseDuration: nat
    var seen: Freshness
    ghost var scans: seq<Scan>

    ghost predicate Valid()
      reads this
    {
      seen == SeenAfter(scans, me)
    }

    constructor (me: Worker, maxTake: nat, leaseDuration: nat)
      ensures Valid() && scans == []
      ensures this.me == me && this.maxTake == maxTake && this.leaseDuration == leaseDuration
    {
      this.me, this.maxTake, this.leaseDuration, seen, scans := me, maxTake, leaseDuration, map[], [];
    }

    method Tick(rows: seq<RawLease>, now: nat) returns (take: seq<Key>)
      requires Valid()
      modifies this
      ensures Valid() && scans == old(scans) + [Scan(rows, now)]
      ensures IsTake(Views(seen, rows, me, leaseDuration, now), me, maxTake, take)
    {
      hide IsTake;
      Refresh(rows, now);
      scans := scans + [Scan(rows, now)];
      assert scans[..|scans| - 1] == old(scans);
      var snapshot: seq<Snapshot> := [];
      for i := 0 to |rows|
        invariant snapshot == Views(seen, rows[..i], me, leaseDuration, now)
        invariant Valid() && scans == old(scans) + [Scan(rows, now)]
      {
        assert rows[..i + 1][..i] == rows[..i];
        if !rows[i].key.HeartbeatKey? {
          snapshot := snapshot + [View(seen, rows[i], me, leaseDuration, now)];
        }
      }
      assert rows[..|rows|] == rows;
      take := ComputeLeasesToTake(snapshot, me, maxTake);
    }

    /** Fold one scan into the freshness map: heartbeats first, then grace clocks, then forget. */
    method Refresh(rows: seq<RawLease>, now: nat)
      modifies this
      ensures seen == Ticked(old(seen), Scan(rows, now), me) && scans == old(scans)
    {
      for i := 0 to |rows|
        invariant seen == Beats(old(seen), rows[..i], now) && scans == old(scans)
      {
        assert rows[..i + 1][..i] == rows[..i];
        var r := rows[i];
        if r.key.HeartbeatKey? && r.owner.Some? {
          var w := r.owner.value;
          if w in seen {
            if r.counter != seen[w].counter {
              seen := seen[w := Seen(r.counter, now)];
            }
          } else {
            seen := seen[w := Seen(r.counter, now)];
          }
        }
      }
      assert rows[..|rows|] == rows;
      ghost var beaten := seen;
      for i := 0 to |rows|
        invariant seen == Graces(beaten, rows[..i], me, now) && scans == old(scans)
      {
        assert rows[..i + 1][..i] == rows[..i];
        var r := rows[i];
        if !r.key.HeartbeatKey? && r.owner.Some? {
          var o := r.owner.value;
          if o != me && o !in seen {
            seen := seen[o := Seen(0, now)];
          }
        }
      }
      var workers := Mentioned(rows);
      seen := map w | w in seen && w in workers :: seen[w];
    }
  }

  // ---- One worker, seen through many scans -------------------------------------------

  /** What the store guarantees of a scan: one row per key, heartbeat rows owned by their worker. */
  ghost predicate FromStore(rows: seq<RawLease>) {
    && (forall i, j :: 0 <= i < j < |rows| ==> rows[i].key != rows[j].key)
    && (forall r :: r in rows && r.key.HeartbeatKey? ==> r.owner == Some(r.key.worker))
  }

  ghost predicate AllFromStore(scans: seq<Scan>) {
    forall i :: 0 <= i < |scans| ==> FromStore(scans[i].rows)
  }

  /** The heartbeat counter a scan shows for `w`, if it has a heartbeat row. */
  function Reading(rows: seq<RawLease>, w: Worker): Option<nat> {
    if rows == [] then None
    else if BeatOf(rows[|rows| - 1], w) then Some(rows[|rows| - 1].counter)
    else Reading(rows[..|rows| - 1], w)
  }

  ghost predicate HoldsLease(rows: seq<RawLease>, w: Worker) {
    exists r :: r in rows && LeaseOf(r, w)
  }

  function Entry(seen: Freshness, w: Worker): Option<Seen> {
    if w in seen then Some(seen[w]) else None
  }

  function Refreshed(e: Option<Seen>, counter: nat, now: nat): Option<Seen> {
    if e.Some? && e.value.counter == counter then e else Some(Seen(counter, now))
  }

  /** What one scan does to the record of one worker, whatever the other rows are. */
  ghost function Track(e: Option<Seen>, scan: Scan, w: Worker): Option<Seen> {
    var reading := Reading(scan.rows, w);
    if reading.Some? then Refreshed(e, reading.value, scan.now)
    else if !HoldsLease(scan.rows, w) then None
    else if e.Some? then e
    else Some(Seen(0, scan.now))
  }

  lemma FromStoreFront(rows: seq<RawLease>)
    requires FromStore(rows) && rows != []
    ensures FromStore(rows[..|rows| - 1])
  {
  }

  lemma {:induction false} ReadingMeans(rows: seq<RawLease>, w: Worker)
    ensures Reading(rows, w).Some? <==> exists r :: r in rows && BeatOf(r, w)
    ensures Reading(rows, w).Some? ==> exists r :: r in rows && BeatOf(r, w) && r.counter == Reading(rows, w).value
    decreases |rows|
  {
    if rows != [] {
      assert rows == rows[..|rows| - 1] + [rows[|rows| - 1]];
      ReadingMeans(rows[..|rows| - 1], w);
    }
  }

  lemma {:induction false} BeatsFor(seen: Freshness, rows: seq<RawLease>, now: nat, w: Worker)
    requires FromStore(rows)
    ensures Reading(rows, w).None? ==> Entry(Beats(seen, rows, now), w) == Entry(seen, w)
    ensures Reading(rows, w).Some? ==> Entry(Beats(seen, rows, now), w) == Refreshed(Entry(seen, w), Reading(rows, w).value, now)
    decreases |rows|
  {
    if rows != [] {
      var rest, r := rows[..|rows| - 1], rows[|rows| - 1];
      FromStoreFront(rows);
      BeatsFor(seen, rest, now, w);
      if BeatOf(r, w) {
        ReadingMeans(rest, w);
        assert forall q :: q in rest ==> !BeatOf(q, w);
      }
    }
  }

  lemma {:induction false} GracesFor(seen: Freshness, rows: seq<RawLease>, me: Worker, now: nat, w: Worker)
    requires w != me
    ensures Entry(Graces(seen, rows, me, now), w) ==
      if w !in seen && HoldsLease(rows, w) then Some(Seen(0, now)) else Entry(seen, w)
    decreases |rows|
  {
    if rows != [] {
      assert rows == rows[..|rows| - 1] + [rows[|rows| - 1]];
      GracesFor(seen, rows[..|rows| - 1], me, now, w);
      assert HoldsLease(rows, w) <==> HoldsLease(rows[..|rows| - 1], w) || LeaseOf(rows[|rows| - 1], w);
    }
  }

  /** The coordinator keeps, for every other worker, just what `Track` says. */
  lemma TickTracks(seen: Freshness, scan: Scan, me: Worker, w: Worker)
    requires w != me && FromStore(scan.rows)
    ensures Entry(Ticked(seen, scan, me), w) == Track(Entry(seen, w), scan, w)
  {
    var beaten := Beats(seen, scan.rows, scan.now);
    BeatsFor(seen, scan.rows, scan.now, w);
    GracesFor(beaten, scan.rows, me, scan.now, w);
    ReadingMeans(scan.rows, w);
    assert w in Mentioned(scan.rows) <==> (exists r :: r in scan.rows && BeatOf(r, w)) || HoldsLease(scan.rows, w) by {
      if w in Mentioned(scan.rows) {
        var r :| r in scan.rows && r.owner == Some(w);
        assert BeatOf(r, w) || LeaseOf(r, w);
      }
    }
  }

  // ---- A live owner is never declared dead -------------------------------------------

  /** The heartbeat row of `w` is there whenever `w` is mentioned at all. */
  ghost predicate Beating(scans: seq<Scan>, w: Worker) {
    forall i :: 0 <= i < |scans| && HoldsLease(scans[i].rows, w) ==> Reading(scans[i].rows, w).Some?
  }

  /** From scan `i` on every scan shows the heartbeat counter `c`. */
  ghost predicate StuckSince(scans: seq<Scan>, w: Worker, i: nat, c: nat) {
    i < |scans| && forall k :: i <= k < |scans| ==> Reading(scans[k].rows, w) == Some(c)
  }

  /** Scan `i` starts the stretch of scans that show the counter the last one shows. */
  ghost predicate StretchStarts(scans: seq<Scan>, w: Worker, i: nat, c: nat) {
    StuckSince(scans, w, i, c) && (i > 0 ==> Reading(scans[i - 1].rows, w) != Some(c))
  }

  /** The stretch goes on, or a new one starts. */
  lemma StretchGoesOn(scans: seq<Scan>, w: Worker, j: nat, c: nat)
    requires scans != [] && StretchStarts(scans[..|scans| - 1], w, j, c)
    requires Reading(scans[|scans| - 1].rows, w) == Some(c)
    ensures StretchStarts(scans, w, j, c) && scans[j] == scans[..|scans| - 1][j]
  {
    var before := scans[..|scans| - 1];
    hide Reading;
    assert forall k :: 0 <= k < |before| ==> scans[k] == before[k];
  }

  lemma StretchOpens(scans: seq<Scan>, w: Worker, c: nat)
    requires scans != [] && Reading(scans[|scans| - 1].rows, w) == Some(c)
    requires |scans| > 1 ==> Reading(scans[|scans| - 2].rows, w) != Some(c)
    ensures StretchStarts(scans, w, |scans| - 1, c)
  {
    hide Reading;
  }

  /** The record kept for `w` is the start of the stretch that lasts until now. */
  lemma {:induction false} RecordIsStretch(scans: seq<Scan>, me: Worker, w: Worker) returns (i: nat)
    requires w != me && AllFromStore(scans) && Beating(scans, w) && w in SeenAfter(scans, me)
    ensures StretchStarts(scans, w, i, SeenAfter(scans, me)[w].counter)
    ensures scans[i].now == SeenAfter(scans, me)[w].lastChange
    decreases |scans|
  {
    var before, scan := scans[..|scans| - 1], scans[|scans| - 1];
    var e := Entry(SeenAfter(before, me), w);
    TickTracks(SeenAfter(before, me), scan, me, w);
    var c := Reading(scan.rows, w).value;
    hide Reading, Ticked, StretchStarts, StuckSince, HoldsLease;
    i := |scans| - 1;
    if e.Some? {
      var j := RecordIsStretch(before, me, w);
      if e.value.counter == c {
        StretchGoesOn(scans, w, j, c);
        i := j;
      } else {
        StretchEnds(before, w, j, e.value.counter);
        StretchOpens(scans, w, c);
      }
    } else {
      if before != [] {
        NoRecordNoBeat(before, me, w);
      }
      StretchOpens(scans, w, c);
    }
  }

  lemma StretchEnds(scans: seq<Scan>, w: Worker, j: nat, c: nat)
    requires StretchStarts(scans, w, j, c)
    ensures scans != [] && Reading(scans[|scans| - 1].rows, w) == Some(c)
  {
  }

  lemma NoRecordNoBeat(scans: seq<Scan>, me: Worker, w: Worker)
    requires w != me && AllFromStore(scans) && scans != [] && w !in SeenAfter(scans, me)
    ensures Reading(scans[|scans| - 1].rows, w) == None
  {
    TickTracks(SeenAfter(scans[..|scans| - 1], me), scans[|scans| - 1], me, w);
  }

  lemma BeatLeavesRecord(scans: seq<Scan>, me: Worker, w: Worker)
    requires w != me && AllFromStore(scans) && scans != [] && Reading(scans[|scans| - 1].rows, w).Some?
    ensures w in SeenAfter(scans, me)
    ensures SeenAfter(scans, me)[w].counter == Reading(scans[|scans| - 1].rows, w).value
  {
    TickTracks(SeenAfter(scans[..|scans| - 1], me), scans[|scans| - 1], me, w);
  }

  /**
   Expiry, exactly: an owner with a heartbeat row is reported dead when, and only when, its
   counter has stood still over a stretch of scans longer than the lease duration.
   */
  lemma ExpiredExactly(scans: seq<Scan>, me: Worker, w: Worker, gap: nat, duration: nat)
    requires scans != [] && w != me && AllFromStore(scans) && InOrder(scans, gap) && Beating(scans, w)
    requires Reading(scans[|scans| - 1].rows, w).Some?
    ensures OwnerExpired(SeenAfter(scans, me), Some(w), me, duration, scans[|scans| - 1].now)
            <==> exists i: nat, c: nat :: StuckSince(scans, w, i, c) && scans[|scans| - 1].now > scans[i].now + duration
  {
    BeatLeavesRecord(scans, me, w);
    var j := RecordIsStretch(scans, me, w);
    if i: nat, c: nat :| StuckSince(scans, w, i, c) && scans[|scans| - 1].now > scans[i].now + duration {
      assert Reading(scans[|scans| - 1].rows, w) == Some(c);
      assert j > 0 ==> Reading(scans[j - 1].rows, w) != Some(c);
      ClockRuns(scans, gap, j, i);
    }
  }

  /** Two scans more than `duration` apart never show the same heartbeat counter. */
  ghost predicate KeepsMoving(scans: seq<Scan>, w: Worker, duration: nat) {
    forall i, j :: 0 <= i < j < |scans| && scans[j].now > scans[i].now + duration ==>
      Reading(scans[j].rows, w).None? || Reading(scans[j].rows, w) != Reading(scans[i].rows, w)
  }

  /** No false expiry: an owner whose heartbeat keeps moving keeps all its leases. */
  lemma LiveOwnerKeepsLeases(scans: seq<Scan>, me: Worker, w: Worker, duration: nat)
    requires scans != [] && w != me && AllFromStore(scans)
    requires Beating(scans, w) && KeepsMoving(scans, w, duration)
    ensures !OwnerExpired(SeenAfter(scans, me), Some(w), me, duration, scans[|scans| - 1].now)
  {
    if w in SeenAfter(scans, me) {
      var i := RecordIsStretch(scans, me, w);
      assert Reading(scans[i].rows, w) == Reading(scans[|scans| - 1].rows, w) != None;
    }
  }

  // ---- A dead owner is found out in time ---------------------------------------------

  ghost predicate InOrder(scans: seq<Scan>, gap: nat) {
    forall i :: 0 < i < |scans| ==> scans[i - 1].now <= scans[i].now <= scans[i - 1].now + gap
  }

  /** From scan `k` on `w` still holds leases, and its heartbeat no longer moves. */
  ghost predicate SilentFrom(scans: seq<Scan>, w: Worker, k: nat) {
    forall i :: k <= i < |scans| ==>
      HoldsLease(scans[i].rows, w) && Reading(scans[i].rows, w) == Reading(scans[k].rows, w)
  }

  lemma {:induction false} ClockRuns(scans: seq<Scan>, gap: nat, i: nat, j: nat)
    requires InOrder(scans, gap) && i <= j < |scans|
    ensures scans[i].now <= scans[j].now
    decreases j
  {
    if i < j {
      ClockRuns(scans, gap, i, j - 1);
    }
  }

  lemma {:induction false} LastChangePast(scans: seq<Scan>, me: Worker, w: Worker, gap: nat)
    requires w != me && AllFromStore(scans) && InOrder(scans, gap)
    ensures w in SeenAfter(scans, me) ==>
      scans != [] && SeenAfter(scans, me)[w].lastChange <= scans[|scans| - 1].now
    decreases |scans|
  {
    if scans != [] {
      var before := scans[..|scans| - 1];
      LastChangePast(before, me, w, gap);
      TickTracks(SeenAfter(before, me), scans[|scans| - 1], me, w);
      if before != [] {
        assert scans[|before| - 1] == before[|before| - 1];
      }
    }
  }

  lemma {:induction false} SilenceFreezes(scans: seq<Scan>, me: Worker, w: Worker, gap: nat, k: nat)
    requires w != me && AllFromStore(scans) && InOrder(scans, gap)
    requires k < |scans| && SilentFrom(scans, w, k)
    ensures w in SeenAfter(scans, me) && SeenAfter(scans, me)[w].lastChange <= scans[k].now
    ensures Reading(scans[k].rows, w).Some? ==> SeenAfter(scans, me)[w].counter == Reading(scans[k].rows, w).value
    decreases |scans|
  {
    var before, scan := scans[..|scans| - 1], scans[|scans| - 1];
    TickTracks(SeenAfter(before, me), scan, me, w);
    if k == |scans| - 1 {
      LastChangePast(scans, me, w, gap);
      assert HoldsLease(scans[k].rows, w);
    } else {
      SilenceFreezes(before, me, w, gap, k);
      assert HoldsLease(scan.rows, w) && Reading(scan.rows, w) == Reading(scans[k].rows, w);
    }
  }

  /** Once the first scan at or after its death is `duration` old, all its leases are expired. */
  lemma DeadOwnerExpires(scans: seq<Scan>, me: Worker, w: Worker, gap: nat, duration: nat, died: nat, k: nat)
    requires w != me && AllFromStore(scans) && InOrder(scans, gap)
    requires k < |scans| && SilentFrom(scans, w, k)
    requires k > 0 ==> scans[k - 1].now <= died
    requires k == 0 ==> scans[0].now <= died + gap
    requires scans[|scans| - 1].now > died + duration + gap
    ensures OwnerExpired(SeenAfter(scans, me), Some(w), me, duration, scans[|scans| - 1].now)
  {
    SilenceFreezes(scans, me, w, gap, k);
  }

  lemma {:induction false} FirstAfter(scans: seq<Scan>, gap: nat, t: nat) returns (j: nat)
    requires InOrder(scans, gap) && scans != [] && scans[0].now <= t < scans[|scans| - 1].now
    ensures 0 < j < |scans| && t < scans[j].now <= t + gap
    decreases |scans|
  {
    j := |scans| - 1;
    if scans[j - 1].now > t {
      j := FirstAfter(scans[..j], gap, t);
    }
  }

  /**
   A worker that stops for good at time `died` is found out by `died + duration + 2 * gap`
   when scans are at most `gap` apart: some scan by then reports every lease of it expired.
   */
  lemma DeadOwnerFoundInTime(scans: seq<Scan>, me: Worker, w: Worker, gap: nat, duration: nat, died: nat, k: nat)
    returns (j: nat)
    requires w != me && AllFromStore(scans) && InOrder(scans, gap)
    requires 0 < k < |scans| && SilentFrom(scans, w, k) && scans[k - 1].now <= died
    requires scans[|scans| - 1].now > died + duration + gap
    ensures j < |scans| && scans[j].now <= died + duration + 2 * gap
    ensures OwnerExpired(SeenAfter(scans[..j + 1], me), Some(w), me, duration, scans[j].now)
  {
    ClockRuns(scans, gap, 0, k - 1);
    j := FirstAfter(scans, gap, died + duration + gap);
    if j < k {
      ClockRuns(scans, gap, j, k - 1);
    }
    var early := scans[..j + 1];
    assert early[j] == scans[j];
    DeadOwnerExpires(early, me, w, gap, duration, died, k);
  }

  // ---- What is taken from another worker ---------------------------------------------

  lemma {:induction false} ViewsAreRows(seen: Freshness, rows: seq<RawLease>, me: Worker, duration: nat, now: nat, l: Snapshot)
    returns (r: RawLease)
    requires l in Views(seen, rows, me, duration, now)
    ensures r in rows && !r.key.HeartbeatKey? && l == View(seen, r, me, duration, now)
    decreases |rows|
  {
    r := rows[|rows| - 1];
    if r.key.HeartbeatKey? || l != View(seen, r, me, duration, now) {
      r := ViewsAreRows(seen, rows[..|rows| - 1], me, duration, now, l);
    }
  }

  /**
   A lease is only ever taken from another worker when that worker's record is stale beyond
   the lease duration, or when it is a most loaded worker above the fair share.
   */
  lemma TakenForCause(seen: Freshness, rows: seq<RawLease>, me: Worker, duration: nat, now: nat, max: nat,
                      take: seq<Key>, k: Key) returns (r: RawLease)
    requires IsTake(Views(seen, rows, me, duration, now), me, max, take) && k in take
    ensures r in rows && r.key == k && !k.HeartbeatKey? && !r.completed && r.owner != Some(me)
    ensures r.owner.Some? ==>
      (var active := Filter(Views(seen, rows, me, duration, now), Active);
       || OwnerExpired(seen, r.owner, me, duration, now)
       || (MostLoaded(active, me, r.owner.value) && Holds(active, r.owner.value) > Target(active, me)))
  {
    var l := TakenWhy(Views(seen, rows, me, duration, now), me, max, take, k);
    r := ViewsAreRows(seen, rows, me, duration, now, l);
  }
}
