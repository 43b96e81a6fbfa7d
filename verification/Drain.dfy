/**
 The coordination cycle of a worker that is alone: lead, publish, collect, heartbeat, claim,
 re-list and run a pass over every eligible shard it owns, until the forest is drained. The
 store, the bid for leadership and the coordinator are the objects of their own modules, so
 this is the whole cycle as the worker runs it, on the table it shares with nobody. What the
 same procedures do amid other workers is the subject of the fleet's modules.
 */
module Drain {
  import opened Types
  import opened LeaseTable
  import opened LeaseStore
  import opened SoleFleet
  import Fleet
  import Cleanup
  import Coordinator
  import Leadership
  import Scheduler
  import Taker

  // ---- Shard rows inside the table ---------------------------------------------------

  lemma ShardRowsPut(rows: map<Key, Row>, s: ShardId, row: Row)
    ensures Cleanup.ShardRows(rows[ShardKey(s) := row]) == Cleanup.ShardRows(rows)[s := row]
  {
  }

  lemma ShardRowsOther(rows: map<Key, Row>, k: Key, row: Row)
    requires !k.ShardKey?
    ensures Cleanup.ShardRows(rows[k := row]) == Cleanup.ShardRows(rows)
  {
  }

  lemma ShardRowsSwept(rows: map<Key, Row>, gone: set<ShardId>)
    requires forall s :: s in gone && ShardKey(s) in rows ==> rows[ShardKey(s)].completed
    ensures Cleanup.ShardRows(Cleanup.Swept(rows, gone)) == Cleanup.ShardRows(rows) - gone
  {
  }

  lemma PublishedMore(lin: Lineage, rows: map<ShardId, Row>, a: set<ShardId>, s: ShardId)
    ensures PublishedAll(lin, PublishedAll(lin, rows, a), {s}) == PublishedAll(lin, rows, a + {s})
  {
  }

  lemma PublishedNone(lin: Lineage, rows: map<ShardId, Row>)
    ensures PublishedAll(lin, rows, {}) == rows
  {
  }

  function PulseOf(rows: map<Key, Row>, w: Worker): nat {
    if HeartbeatKey(w) in rows then rows[HeartbeatKey(w)].counter else 0
  }

  lemma PulseElsewhere(rows: map<Key, Row>, k: Key, row: Row, w: Worker)
    requires !k.HeartbeatKey?
    ensures PulseOf(rows[k := row], w) == PulseOf(rows, w)
  {
  }

  /** One's own heartbeat row counts for nothing but the pulse. */
  lemma BeatKeeps(rows: map<Key, Row>, me: Worker, row: Row)
    requires TableOk(rows, me) && row.owner == Some(me)
    requires row.counter == (if HeartbeatKey(me) in rows then rows[HeartbeatKey(me)].counter else 0) + 1
    ensures var after := rows[HeartbeatKey(me) := row];
            && TableOk(after, me) && Cleanup.ShardRows(after) == Cleanup.ShardRows(rows)
            && PulseOf(after, me) == PulseOf(rows, me) + 1
  {
    ShardRowsOther(rows, HeartbeatKey(me), row);
  }

  lemma SentinelHasNoPulse(rows: map<Key, Row>, row: Row, w: Worker)
    ensures PulseOf(rows[LeaderKey := row], w) == PulseOf(rows, w)
  {
  }

  lemma CollectableMeans(rows: map<Key, Row>)
    ensures forall s :: Fleet.SafeToDelete(Cleanup.ShardRows(rows), s) ==> s in Cleanup.Collectable(rows)
  {
  }

  lemma PulseSwept(rows: map<Key, Row>, gone: set<ShardId>, w: Worker)
    ensures PulseOf(Cleanup.Swept(rows, gone), w) == PulseOf(rows, w)
  {
  }

  /** The table of a fleet of one: the worker holds or leaves every row, and leads. */
  ghost predicate TableOk(rows: map<Key, Row>, me: Worker) {
    && Alone(rows, me)
    && (LeaderKey in rows ==> rows[LeaderKey].owner == Some(me))
  }

  function IdsOf(metas: seq<ShardMeta>): set<ShardId> {
    set m | m in metas :: m.id
  }

  ghost predicate Distinct(s: seq<ShardId>) {
    forall i, j :: 0 <= i < j < |s| ==> s[i] != s[j]
  }

  function Elements(s: seq<ShardId>): set<ShardId> {
    set x | x in s
  }

  lemma NoElements()
    ensures Elements([]) == {}
  {
  }

  lemma ElementsPush(s: seq<ShardId>, x: ShardId)
    ensures Elements(s + [x]) == Elements(s) + {x}
  {
  }

  /** How many records of a shard a run has told between two passes: all or none. */
  function Whole(lin: Lineage, done: set<ShardId>, s: ShardId): nat {
    if s in done && s in lin.len then lin.len[s] else 0
  }

  function UpTo(lin: Lineage, done: set<ShardId>, s: ShardId, to: nat, t: ShardId): nat {
    if t == s then to else Whole(lin, done, t)
  }

  /** Every record of a completed shard was told once and in order, and no record of any other. */
  ghost predicate ToldDone(lin: Lineage, events: seq<Scheduler.Event>, done: set<ShardId>) {
    forall s: ShardId :: Scheduler.InOrderOnce(events, s, 0, Whole(lin, done, s))
  }

  lemma FreshStart(lin: Lineage, me: Worker)
    ensures Steady(lin, me, Cleanup.ShardRows(map[]), {}, Elements([]), {}) && ToldDone(lin, [], {})
    ensures TableOk(map[], me) && Cleanup.ShardRows(map[]) == map[]
  {
  }

  class SoleWorker {
    const me: Worker
    const maxLeases: nat
    const lin: Lineage
    const store: LeaseStore
    const leadership: Leadership.Leadership
    const coordinator: Coordinator.LeaseCoordinator
    var seeded: bool
    var childSynced: set<ShardId>
    var cuts: seq<Scheduler.Cut>
    // History: publications in order, describe calls, completed shards, deliveries.
    ghost const rank: map<ShardId, nat>
    ghost var published: seq<ShardId>
    ghost var describes: nat
    ghost var done: set<ShardId>
    ghost var events: seq<Scheduler.Event>

    ghost function Rows(): map<ShardId, Row>
      reads this, store
    {
      Cleanup.ShardRows(store.rows)
    }

    /** The counter of the worker's own heartbeat row. */
    ghost function Pulse(): nat
      reads this, store
    {
      PulseOf(store.rows, me)
    }

    ghost predicate Parts()
      reads this, leadership, leadership.coord, coordinator
    {
      && coordinator != leadership.coord && maxLeases >= 1
      && leadership.Valid() && leadership.owner == me
      && coordinator.Valid() && coordinator.me == me && coordinator.maxTake == maxLeases
      && Forest(lin, rank)
    }

    /** The table and the sync state fit what was published and completed. */
    ghost predicate Fits(synced: set<ShardId>)
      reads this, store
    {
      && TableOk(store.rows, me) && Distinct(published) && ToldDone(lin, events, done)
      && Steady(lin, me, Rows(), synced, Elements(published), done)
    }

    ghost predicate Valid()
      reads this, store, leadership, leadership.coord, coordinator
    {
      && Parts() && Fits(childSynced)
      && (seeded ==> Seeded(lin, Rows(), Elements(published)))
      && (!seeded ==> Rows() == map[] && published == [] && done == {} && childSynced == {})
      && describes == |childSynced| + (if seeded then 1 else 0)
    }

    constructor (me: Worker, maxLeases: nat, leaseDuration: nat, lin: Lineage, cuts: seq<Scheduler.Cut>,
                 ghost rank: map<ShardId, nat>)
      requires maxLeases >= 1 && Forest(lin, rank)
      ensures Valid() && done == {} && published == [] && events == [] && describes == 0
      ensures this.lin == lin && fresh(store) && fresh(leadership) && fresh(leadership.coord) && fresh(coordinator)
    {
      hide Steady, ToldDone, TableOk, Forest, Cleanup.ShardRows, Elements, Seeded, Coordinator.SeenAfter;
      this.me, this.maxLeases, this.lin, this.cuts, this.rank := me, maxLeases, lin, cuts, rank;
      store := new LeaseStore();
      leadership := new Leadership.Leadership(me, leaseDuration);
      coordinator := new Coordinator.LeaseCoordinator(me, maxLeases, leaseDuration);
      seeded, childSynced := false, {};
      published, describes, done, events := [], 0, {}, [];
      new;
      FreshStart(lin, me);
    }

    // ---- The source ------------------------------------------------------------------

    /** Every shard of the stream with its parents. */
    method DescribeShards() returns (metas: seq<ShardMeta>)
      modifies this`describes
      ensures describes == old(describes) + 1
      ensures IdsOf(metas) == lin.parent.Keys && Distinct(Ids(metas))
      ensures forall m :: m in metas ==> m.parents == ParentsIn(lin, m.id)
    {
      describes := describes + 1;
      metas := Collect(lin.parent.Keys);
    }

    /** The children of one shard. */
    method DescribeChildShards(p: ShardId) returns (metas: seq<ShardMeta>)
      modifies this`describes
      ensures describes == old(describes) + 1
      ensures forall c :: c in IdsOf(metas) <==> IsChildOf(lin, c, p)
      ensures Distinct(Ids(metas)) && forall m :: m in metas ==> m.parents == ParentsIn(lin, m.id)
    {
      describes := describes + 1;
      metas := Collect(set c | c in lin.parent && IsChildOf(lin, c, p));
    }

    method Collect(ids: set<ShardId>) returns (metas: seq<ShardMeta>)
      ensures IdsOf(metas) == ids && Distinct(Ids(metas))
      ensures forall m :: m in metas ==> m.parents == ParentsIn(lin, m.id)
    {
      metas := [];
      var left := ids;
      while left != {}
        invariant left <= ids && IdsOf(metas) == ids - left && Distinct(Ids(metas))
        invariant forall m :: m in metas ==> m.parents == ParentsIn(lin, m.id)
        decreases |left|
      {
        var s :| s in left;
        IdsPush(metas, ShardMeta(s, ParentsIn(lin, s)));
        metas := metas + [ShardMeta(s, ParentsIn(lin, s))];
        left := left - {s};
      }
    }

    // ---- Publishing ------------------------------------------------------------------

    /** Publish one new shard. */
    method Publish(m: ShardMeta)
      requires TableOk(store.rows, me) && m.parents == ParentsIn(lin, m.id)
      requires m.id !in Rows() && m.id !in published && Distinct(published)
      modifies store, this`published
      ensures TableOk(store.rows, me) && Rows() == PublishedAll(lin, old(Rows()), {m.id})
      ensures published == old(published) + [m.id] && Distinct(published)
      ensures Pulse() == old(Pulse())
    {
      PulseElsewhere(store.rows, ShardKey(m.id), Row(None, 0, 0, false, m.parents), me);
      store.CreateShardLease(ShardKey(m.id), m.parents, 0);
      ShardRowsPut(old(store.rows), m.id, Row(None, 0, 0, false, m.parents));
      published := published + [m.id];
    }

    /** Publish the new ones of a list, `gated` on complete parents, each once. */
    method PublishNew(metas: seq<ShardMeta>, gated: bool, completed: set<ShardId>, existing: set<ShardId>,
                      ghost novel: set<ShardId>)
      requires TableOk(store.rows, me) && Distinct(published) && Distinct(Ids(metas))
      requires forall m :: m in metas ==> m.parents == ParentsIn(lin, m.id)
      requires forall m :: m in metas ==>
        (m.id in novel <==> (gated ==> forall p :: p in m.parents ==> p in completed) && m.id !in existing)
      requires novel <= IdsOf(metas) && novel !! Elements(published) && novel !! Rows().Keys
      modifies store, this`published
      ensures TableOk(store.rows, me) && Rows() == PublishedAll(lin, old(Rows()), novel)
      ensures Distinct(published) && Elements(published) == old(Elements(published)) + novel
      ensures Pulse() == old(Pulse())
    {
      hide TableOk, ParentsIn, Cleanup.ShardRows, PulseOf;
      ghost var rows := Rows();
      PublishedNone(lin, rows);
      assert metas[..0] == [] && IdsOf([]) * novel == {};
      for i := 0 to |metas|
        invariant TableOk(store.rows, me) && Distinct(published) && Pulse() == old(Pulse())
        invariant Rows() == PublishedAll(lin, rows, IdsOf(metas[..i]) * novel)
        invariant Elements(published) == old(Elements(published)) + IdsOf(metas[..i]) * novel
      {
        var m := metas[i];
        assert metas[..i + 1] == metas[..i] + [m];
        assert m.id !in IdsOf(metas[..i]) by {
          DistinctFrom(metas, i);
        }
        ghost var before := IdsOf(metas[..i]) * novel;
        assert IdsOf(metas[..i + 1]) == IdsOf(metas[..i]) + {m.id};
        if (gated ==> forall p :: p in m.parents ==> p in completed) && m.id !in existing {
          assert m.id in novel && IdsOf(metas[..i + 1]) * novel == before + {m.id};
          PublishedMore(lin, rows, before, m.id);
          ElementsPush(published, m.id);
          Publish(m);
        } else {
          assert IdsOf(metas[..i + 1]) * novel == before;
        }
      }
      assert metas[..|metas|] == metas;
      assert IdsOf(metas) * novel == novel;
    }

    // ---- Leader-only shard sync ------------------------------------------------------

    /** The one-time seed: publish the roots. */
    method Seed(items: seq<Item>, ghost seen: map<Key, Row>)
      requires Valid() && !seeded && ScanOf(items, seen) && Cleanup.ShardRows(seen) == Rows()
      modifies store, this`published, this`describes, this`seeded
      ensures Valid() && seeded && done == old(done) && done <= childSynced && Pulse() == old(Pulse())
    {
      hide Steady, ToldDone, TableOk, Forest, Seeded, Cleanup.ShardRows, PulseOf, PublishedAll, ParentsIn, ScanOf, IdsOf, Elements, Distinct;
      var completed, existing := CompletedIn(items), ExistingIn(items);
      ScanSets(items, seen);
      assert completed == {} && existing == {};
      var metas := DescribeShards();
      ghost var roots := Roots(lin);
      RootsAreUngated(lin, metas);
      NoElements();
      PublishNew(metas, true, completed, existing, roots);
      seeded := true;
      SeedSteady(lin, rank, me);
      assert Elements(published) == roots;
    }

    /** Sync one completed parent whose children are not out: publish every child. */
    method SyncParent(p: ShardId, existing: set<ShardId>, ghost synced: set<ShardId>)
      requires Forest(lin, rank) && Fits(synced) && p in done && p !in synced
      requires existing <= Elements(published)
      modifies store, this`published, this`describes
      ensures Fits(synced + {p}) && done == old(done) && describes == old(describes) + 1
      ensures Elements(old(published)) <= Elements(published) && old(Rows()).Keys <= Rows().Keys
      ensures Pulse() == old(Pulse())
    {
      hide TableOk, ToldDone, Cleanup.ShardRows, ParentsIn, PulseOf;
      var metas := DescribeChildShards(p);
      ghost var children := IdsOf(metas);
      SyncKeeps(lin, me, Rows(), synced, Elements(published), done, p, children);
      hide Steady;
      assert children !! Rows().Keys by {
        RowsArePublished(lin, me, Rows(), synced, Elements(published), done);
      }
      PublishNew(metas, false, {}, existing, children);
    }

    /** Fetch the children of each newly completed parent, once; the parents synced are returned. */
    method SyncCompleted(items: seq<Item>, existing: set<ShardId>, withChildren: set<ShardId>) returns (newly: set<ShardId>)
      requires Forest(lin, rank) && Fits(childSynced) && existing <= Elements(published)
      requires forall i, j :: 0 <= i < j < |items| ==> items[i].key != items[j].key
      requires forall x :: x in items && IsCompleted(x) ==> x.key.id in done
      requires forall x :: x in items && IsCompleted(x) && x.key.id in withChildren ==> x.key.id in childSynced
      modifies store, this`published, this`describes
      ensures Fits(childSynced + newly) && newly !! childSynced && describes == old(describes) + |newly|
      ensures old(Rows()).Keys <= Rows().Keys && Elements(old(published)) <= Elements(published)
      ensures forall j :: 0 <= j < |items| && IsCompleted(items[j]) ==> items[j].key.id in childSynced + newly
      ensures Pulse() == old(Pulse())
    {
      hide Steady, ToldDone, TableOk, Forest, Cleanup.ShardRows, PulseOf, Elements, Distinct;
      newly := {};
      assert childSynced + newly == childSynced;
      for i := 0 to |items|
        invariant Fits(childSynced + newly) && newly !! childSynced && describes == old(describes) + |newly|
        invariant Pulse() == old(Pulse())
        invariant old(Rows()).Keys <= Rows().Keys && existing <= Elements(old(published)) <= Elements(published)
        invariant forall s :: s in newly ==> exists j :: 0 <= j < i && items[j].key == ShardKey(s)
        invariant forall j :: 0 <= j < i && IsCompleted(items[j]) ==> items[j].key.id in childSynced + newly
      {
        var x := items[i];
        if IsCompleted(x) && x.key.id !in childSynced && x.key.id !in withChildren {
          var p := x.key.id;
          assert p !in newly;
          ghost var before := childSynced + newly;
          SyncParent(p, existing, before);
          newly := newly + {p};
          assert childSynced + newly == before + {p};
        }
      }
    }

    /** Discovery: seed once; then only ever ask for the children of completed shards. */
    method LeaderShardSync(items: seq<Item>, ghost seen: map<Key, Row>)
      requires Valid() && ScanOf(items, seen) && Cleanup.ShardRows(seen) == Rows()
      modifies store, this`published, this`describes, this`seeded, this`childSynced
      ensures Valid() && seeded && done == old(done) && done <= childSynced && Pulse() == old(Pulse())
      ensures old(Rows()).Keys <= Rows().Keys && Elements(old(published)) <= Elements(published)
    {
      hide Steady, ToldDone, TableOk, Forest, Seeded, Cleanup.ShardRows, PulseOf;
      if !seeded {
        Seed(items, seen);
        return;
      }
      ghost var synced, rows, known := childSynced, Rows(), Elements(published);
      ScanSets(items, seen);
      RowsArePublished(lin, me, rows, synced, known, done);
      ParentsOfRows(lin, me, items, seen, synced, known, done);
      var newly := SyncCompleted(items, ExistingIn(items), WithChildren(items));
      AllSynced(lin, me, items, seen, synced, known, done, childSynced + newly);
      SeededStays(lin, rows, known, Rows(), Elements(published));
      childSynced := childSynced + newly;
    }

    // ---- One cycle -------------------------------------------------------------------

    /** Collect what the scan shows to be safe. */
    method CollectRows(items: seq<Item>, ghost seen: map<Key, Row>)
      requires Valid() && seeded && done <= childSynced && ScanOf(items, seen)
      requires ScannedBefore(lin, me, Cleanup.ShardRows(seen), Rows(), Elements(published), done)
      modifies store
      ensures Valid() && Pulse() == old(Pulse())
      ensures Rows() == old(Rows()) - Cleanup.Collectable(seen)
    {
      hide Steady, ToldDone, TableOk, Forest, Seeded, ScannedBefore, Cleanup.ShardRows, Cleanup.Swept, Cleanup.Collectable, PulseOf;
      ghost var gone, rows := Cleanup.Collectable(seen), Rows();
      Cleanup.CleanupCompletedLeases(store, items, seen);
      SweepKeeps(lin, rank, me, seen, old(store.rows), childSynced, Elements(published), done);
      PulseSwept(old(store.rows), gone, me);
    }

    /** Bid for leadership, which a worker that is alone always wins; then discover and collect. */
    method Lead(now: nat)
      requires Valid()
      modifies store, leadership, leadership.coord, this`published, this`describes, this`seeded, this`childSynced
      ensures Valid() && seeded && done == old(done) && done <= childSynced && Pulse() == old(Pulse())
      ensures forall s :: Fleet.SafeToDelete(old(Rows()), s) ==> s !in Rows()
    {
      hide Steady, ToldDone, TableOk, Forest, Seeded, ScannedBefore, Cleanup.ShardRows, ScanOf, Leadership.Sentinel, PulseOf;
      var items := store.List();
      ghost var seen, rows, known := store.rows, Rows(), Elements(published);
      SentinelScanned(items, seen);
      SoleLeads(seen, me);
      var leads := leadership.Step(store, SentinelIn(items), now);
      assert leads && Rows() == rows;
      SentinelHasNoPulse(seen, store.rows[LeaderKey], me);
      if leads {
        LeaderShardSync(items, seen);
        ScanIsBefore(lin, me, rows, old(childSynced), known, done, Rows(), Elements(published));
        CollectRows(items, seen);
        CollectableMeans(seen);
      }
    }

    /** Take a fair share, which is everything, as far as one cycle may take. */
    method Claim(items: seq<Item>, now: nat) returns (take: seq<Key>)
      requires Valid() && ScanOf(items, store.rows)
      modifies store, coordinator
      ensures Valid() && Rows().Keys == old(Rows()).Keys
      ensures (exists s :: s in Rows() && s !in done) ==> exists s :: s in Rows() && s !in done && Rows()[s].owner == Some(me)
      ensures Pulse() == old(Pulse())
      // What the taker decides on the scan is acquired, all of it.
      ensures Taker.IsTake(Coordinator.Views(coordinator.seen, RawRows(items), me, coordinator.leaseDuration, now), me, maxLeases, take)
      ensures forall k :: k in take ==> k in store.rows && store.rows[k].owner == Some(me)
    {
      hide Steady, ToldDone, Forest, Seeded, Cleanup.ShardRows, PulseOf, SoleView, Taker.IsTake, Coordinator.Views;
      take := coordinator.Tick(RawRows(items), now);
      ghost var seen := store.rows;
      ghost var views := Coordinator.Views(coordinator.seen, RawRows(items), me, coordinator.leaseDuration, now);
      SoleViewOf(items, seen, coordinator.seen, me, coordinator.leaseDuration, now);
      forall k | k in take ensures k in seen && k.ShardKey? {
        TakesIncomplete(views, seen, me, maxLeases, take, k);
      }
      TakeAll(take);
      SameShards(seen, store.rows, me);
      if s :| s in Rows() && s !in done {
        HasWork(lin, seen, store.rows, views, me, maxLeases, take, childSynced, Elements(published), done, s);
      }
    }

    method TakeAll(take: seq<Key>)
      requires Valid() && forall k :: k in take ==> k in store.rows && k.ShardKey?
      modifies store
      ensures Valid() && ClaimedSome(old(store.rows), store.rows, me)
      ensures forall k :: k in take ==> k in store.rows && store.rows[k].owner == Some(me)
      ensures Pulse() == old(Pulse())
    {
      hide Steady, ToldDone, Forest, Seeded, Cleanup.ShardRows, TableOk, PulseOf;
      for i := 0 to |take|
        invariant Valid() && ClaimedSome(old(store.rows), store.rows, me) && Pulse() == old(Pulse())
        invariant forall j :: 0 <= j < i ==> take[j] in store.rows && store.rows[take[j]].owner == Some(me)
      {
        assert take[i] in take;
        Take(take[i]);
      }
    }

    /** Acquire one lease. */
    method Take(key: Key)
      requires Valid() && key in store.rows && key.ShardKey?
      modifies store
      ensures Valid() && ClaimedSome(old(store.rows), store.rows, me)
      ensures key in store.rows && store.rows[key].owner == Some(me) && Pulse() == old(Pulse())
    {
      hide Steady, ToldDone, Forest;
      ghost var row := store.rows[key].(owner := Some(me), counter := store.rows[key].counter + 1);
      PulseElsewhere(store.rows, key, row, me);
      ShardRowsPut(store.rows, key.id, row);
      ClaimKeeps(lin, me, Rows(), childSynced, Elements(published), done, key.id, row.counter);
      var counter := store.Acquire(key, me, Undisturbed, Undisturbed);
    }

    /** One poll after a position: at least one record, or the end. */
    method GetRecords(s: ShardId, after: nat) returns (count: nat, end: bool)
      requires s in lin.len && after <= lin.len[s]
      modifies this`cuts
      ensures after + count <= lin.len[s] && (count == 0 ==> end) && (end ==> after + count == lin.len[s])
    {
      var cut := if cuts == [] then Scheduler.Cut(0, true) else cuts[0];
      cuts := if cuts == [] then [] else cuts[1..];
      count := Min(cut.size + 1, lin.len[s] - after);
      end := after + count == lin.len[s] && (count == 0 || cut.endsToo);
    }

    /** A pass over one shard: deliver and checkpoint batch by batch, complete at the end. */
    method Pass(s: ShardId, leased: nat)
      requires Valid() && s in Rows() && s !in done
      requires Rows()[s].owner == Some(me) && Rows()[s].counter == leased
      modifies store, this`cuts, this`events, this`done
      ensures Valid() && done == old(done) + {s}
      ensures Rows().Keys == old(Rows()).Keys
      ensures forall t :: t in Rows() && t != s ==> Rows()[t] == old(Rows())[t]
      ensures Pulse() == old(Pulse())
    {
      hide Steady, ToldDone, Forest, Seeded, TableOk, Scheduler.InOrderOnce, PulseOf;
      ghost var rows, table := Rows(), store.rows;
      RowFitsAt(lin, me, rows, childSynced, Elements(published), done, s);
      ToldNothing(lin, events, done, s);
      var counter, after, end := leased, 0, false;
      while !end
        invariant done == old(done) && after <= lin.len[s] && (end ==> after == lin.len[s])
        invariant store.rows == table[ShardKey(s) := rows[s].(counter := counter, checkpoint := after)]
        invariant ToldUpTo(lin, events, done, s, after)
        decreases lin.len[s] - after, !end
      {
        var count;
        count, end := GetRecords(s, after);
        if count > 0 {
          ToldMore(lin, events, done, s, after, count);
          events := events + [Scheduler.Records(s, after, after + count)];
          var next := store.Checkpoint(ShardKey(s), me, counter, after + count);
          counter, after := next.value, after + count;
        }
      }
      var ok := store.MarkComplete(ShardKey(s), me, counter);
      ghost var row := rows[s].(counter := counter, checkpoint := after, completed := true);
      assert store.rows == table[ShardKey(s) := row];
      ShardRowsPut(table, s, row);
      PulseElsewhere(table, ShardKey(s), row, me);
      CompletesRow(lin, me, rows, childSynced, Elements(published), done, s, row);
      KeepsTable(table, me, s, row);
      SeededStays(lin, rows, Elements(published), rows[s := row], Elements(published));
      ToldWhole(lin, events, done, s);
      done := done + {s};
    }

    /** Run a pass over every shard that the scan shows as owned and eligible. */
    method Work(items: seq<Item>)
      requires Valid() && ScanOf(items, store.rows)
      modifies store, this`cuts, this`events, this`done
      ensures Valid() && old(done) <= done
      ensures forall s :: s in old(Rows()) && s !in old(done) && old(Rows())[s].owner == Some(me) ==> s in done
      ensures Pulse() == old(Pulse()) && Rows().Keys == old(Rows()).Keys
    {
      hide Steady, ToldDone, Forest, Seeded, TableOk, Cleanup.ShardRows, ShardEligible, PulseOf;
      ghost var rows, table, before := Rows(), store.rows, done;
      ScanShards(items, table);
      AllEligible(lin, me, items, table, childSynced, Elements(published), before);
      WorkThrough(items, CompletedIn(items), ExistingIn(items));
      forall s | s in rows && s !in before && rows[s].owner == Some(me) ensures s in done {
        OwnedIsDue(lin, me, items, table, childSynced, Elements(published), before, s);
      }
    }

    method WorkThrough(items: seq<Item>, completed: set<ShardId>, existing: set<ShardId>)
      requires Valid() && forall i, j :: 0 <= i < j < |items| ==> items[i].key != items[j].key
      requires forall x :: x in items && Due(x, me) ==> x.key.id in Rows() && x.row == Rows()[x.key.id]
      requires forall x :: x in items && Due(x, me) ==> x.key.id !in done && ShardEligible(x, completed, existing)
      modifies store, this`cuts, this`events, this`done
      ensures Valid() && old(done) <= done
      ensures forall x :: x in items && Due(x, me) ==> x.key.id in done
      ensures Pulse() == old(Pulse()) && Rows().Keys == old(Rows()).Keys
    {
      hide Steady, ToldDone, Forest, Seeded, TableOk, Cleanup.ShardRows, ShardEligible, KeysOf, PulseOf;
      ghost var worked: set<ShardId> := {};
      KeysOfNone();
      for i := 0 to |items|
        invariant Valid() && done == old(done) + worked && Rows().Keys == old(Rows()).Keys && Pulse() == old(Pulse())
        invariant forall s :: s in Rows() && s !in worked ==> Rows()[s] == old(Rows())[s]
        invariant forall s :: s in worked ==> ShardKey(s) in KeysOf(items[..i])
        invariant forall j :: 0 <= j < i && Due(items[j], me) ==> items[j].key.id in done
      {
        var x := items[i];
        assert x in items;
        NewKey(items, i);
        if Due(x, me) && ShardEligible(x, completed, existing) {
          Pass(x.key.id, x.row.counter);
          worked := worked + {x.key.id};
        }
      }
    }

    /** One coordination cycle; true means that every listed shard is complete. */
    method RunCycle(now: nat) returns (complete: bool)
      requires Valid()
      modifies this, store, leadership, leadership.coord, coordinator
      ensures Valid() && old(done) <= done && done <= lin.parent.Keys
      ensures complete ==> done == lin.parent.Keys
      ensures !complete ==> old(done) < done
      ensures Pulse() == old(Pulse()) + 1
      ensures forall s :: Fleet.SafeToDelete(old(Rows()), s) ==> s !in Rows()
    {
      hide Steady, ToldDone, Forest, Seeded, TableOk, Cleanup.ShardRows, ScanOf, PulseOf;
      Lead(now);
      Beat();
      var items := store.List();
      var taken := Claim(items, now);
      items := store.List();
      CycleEnds(lin, rank, me, items, store.rows, childSynced, Elements(published), done);
      if AllCompleteIn(items) {
        return true;
      }
      Work(items);
      DoneIsKnown(lin, me, Rows(), childSynced, Elements(published), done);
      complete := false;
    }

    /** The one liveness write of a cycle. */
    method Beat()
      requires Valid()
      modifies store
      ensures Valid() && Rows() == old(Rows()) && Pulse() == old(Pulse()) + 1
    {
      hide Steady, ToldDone, Forest, Seeded, TableOk, Cleanup.ShardRows, PulseOf;
      ghost var row := if HeartbeatKey(me) in store.rows
        then store.rows[HeartbeatKey(me)].(owner := Some(me), counter := store.rows[HeartbeatKey(me)].counter + 1)
        else Row(Some(me), 1, 0, false, []);
      BeatKeeps(store.rows, me, row);
      var counter := store.Heartbeat(me);
      assert store.rows == old(store.rows)[HeartbeatKey(me) := row];
    }

    /**
     Cycle until complete. One more cycle than there are shards is always enough: then the
     whole forest is complete, every record was delivered once and in order, every shard was
     published once, and discovery was asked at most once per completed shard and once more.
     */
    method RunUntilComplete(maxCycles: nat, clock: nat -> nat) returns (complete: bool)
      requires Valid() && done == {}
      modifies this, store, leadership, leadership.coord, coordinator
      ensures Valid() && (complete ==> done == lin.parent.Keys)
      ensures maxCycles > |lin.parent| ==> complete
      ensures Distinct(published) && describes <= 1 + |done|
      ensures complete ==> Elements(published) == lin.parent.Keys
      ensures complete ==> forall s :: s in lin.parent ==> Scheduler.InOrderOnce(events, s, 0, lin.len[s])
    {
      hide Steady, Forest, Seeded, TableOk, Cleanup.ShardRows, ToldDone;
      complete := false;
      var cycle := 0;
      assert |lin.parent| == |lin.parent.Keys|;
      DoneIsKnown(lin, me, Rows(), childSynced, Elements(published), done);
      while cycle < maxCycles && !complete
        invariant Valid() && done <= lin.parent.Keys && (complete ==> done == lin.parent.Keys)
        invariant !complete ==> cycle <= |done|
        decreases maxCycles - cycle
      {
        ghost var before := done;
        complete := RunCycle(clock(cycle));
        if !complete {
          Grows(before, done);
        }
        cycle := cycle + 1;
      }
      SubsetSize(done, lin.parent.Keys);
      DoneIsKnown(lin, me, Rows(), childSynced, Elements(published), done);
      SubsetSize(childSynced, done);
      if complete {
        AllTold(lin, rank, events, done);
      }
    }
  }

  predicate AllCompleteIn(items: seq<Item>) {
    (exists x :: x in items && x.key.ShardKey?) && forall x :: x in items && x.key.ShardKey? ==> x.row.completed
  }

  /** The early exit is right, and without it there is work left. */
  lemma CycleEnds(lin: Lineage, rank: map<ShardId, nat>, me: Worker, items: seq<Item>, rows: map<Key, Row>,
                  synced: set<ShardId>, published: set<ShardId>, done: set<ShardId>)
    requires ScanOf(items, rows) && Forest(lin, rank)
    requires Steady(lin, me, Cleanup.ShardRows(rows), synced, published, done)
    requires Seeded(lin, Cleanup.ShardRows(rows), published) && done <= synced
    ensures done <= lin.parent.Keys
    ensures AllCompleteIn(items) ==> done == lin.parent.Keys
    ensures !AllCompleteIn(items) ==> exists s :: s in Cleanup.ShardRows(rows) && s !in done
  {
    var table := Cleanup.ShardRows(rows);
    DoneIsKnown(lin, me, table, synced, published, done);
    ScanShards(items, rows);
    if AllCompleteIn(items) {
      forall t | t in table ensures table[t].completed {
        var j: nat :| j < |items| && items[j].key == ShardKey(t) && items[j].row == table[t];
        assert items[j] in items;
      }
      forall s | s in lin.parent ensures s in done {
        AllDone(lin, rank, me, table, synced, published, done, s);
      }
    } else {
      var any :| any in table;
      var j: nat :| j < |items| && items[j].key == ShardKey(any) && items[j].row == table[any];
      assert items[j] in items;
      var x :| x in items && x.key.ShardKey? && !x.row.completed;
      var i :| 0 <= i < |items| && items[i] == x;
      RowFitsAt(lin, me, table, synced, published, done, x.key.id);
    }
  }

  lemma DoneIsKnown(lin: Lineage, me: Worker, rows: map<ShardId, Row>, synced: set<ShardId>, published: set<ShardId>,
                    done: set<ShardId>)
    requires Steady(lin, me, rows, synced, published, done)
    ensures synced <= done <= published <= lin.parent.Keys
  {
    forall s | s in published ensures s in lin.parent {
      assert Gated(lin, s, done);
    }
  }

  lemma Grows(a: set<ShardId>, b: set<ShardId>)
    requires a < b
    ensures |a| < |b|
  {
    assert b == a + (b - a) && b - a != {};
  }

  lemma SubsetSize(a: set<ShardId>, b: set<ShardId>)
    requires a <= b
    ensures |a| <= |b|
  {
    assert b == a + (b - a);
  }

  lemma AllTold(lin: Lineage, rank: map<ShardId, nat>, events: seq<Scheduler.Event>, done: set<ShardId>)
    requires Forest(lin, rank) && ToldDone(lin, events, done) && done == lin.parent.Keys
    ensures forall s :: s in lin.parent ==> Scheduler.InOrderOnce(events, s, 0, lin.len[s])
  {
    hide Scheduler.InOrderOnce;
    forall s: ShardId | s in lin.parent ensures Scheduler.InOrderOnce(events, s, 0, lin.len[s]) {
      assert Scheduler.InOrderOnce(events, s, 0, Whole(lin, done, s));
    }
  }

  /** Everything is told as it should be, and of shard `s` the first `to` records. */
  ghost predicate ToldUpTo(lin: Lineage, events: seq<Scheduler.Event>, done: set<ShardId>, s: ShardId, to: nat) {
    forall t: ShardId :: Scheduler.InOrderOnce(events, t, 0, UpTo(lin, done, s, to, t))
  }

  lemma ToldNothing(lin: Lineage, events: seq<Scheduler.Event>, done: set<ShardId>, s: ShardId)
    requires ToldDone(lin, events, done) && s !in done
    ensures ToldUpTo(lin, events, done, s, 0)
  {
    hide Scheduler.InOrderOnce;
    forall t: ShardId ensures Scheduler.InOrderOnce(events, t, 0, UpTo(lin, done, s, 0, t)) {
      assert Scheduler.InOrderOnce(events, t, 0, Whole(lin, done, t));
    }
  }

  lemma ToldMore(lin: Lineage, events: seq<Scheduler.Event>, done: set<ShardId>, s: ShardId, to: nat, count: nat)
    requires ToldUpTo(lin, events, done, s, to) && count > 0
    ensures ToldUpTo(lin, events + [Scheduler.Records(s, to, to + count)], done, s, to + count)
  {
    hide Scheduler.InOrderOnce;
    var e, next := Scheduler.Records(s, to, to + count), to + count;
    var after := events + [e];
    forall t: ShardId ensures Scheduler.InOrderOnce(after, t, 0, UpTo(lin, done, s, next, t)) {
      assert Scheduler.InOrderOnce(events, t, 0, UpTo(lin, done, s, to, t));
      if t == s {
        Scheduler.PushRecords(events, s, 0, to, count);
      } else {
        Scheduler.PushOther(events, e, t, 0, Whole(lin, done, t));
      }
    }
  }

  lemma ToldWhole(lin: Lineage, events: seq<Scheduler.Event>, done: set<ShardId>, s: ShardId)
    requires s in lin.len && ToldUpTo(lin, events, done, s, lin.len[s])
    ensures ToldDone(lin, events, done + {s})
  {
    hide Scheduler.InOrderOnce;
    forall t: ShardId ensures Scheduler.InOrderOnce(events, t, 0, Whole(lin, done + {s}, t)) {
      assert Scheduler.InOrderOnce(events, t, 0, UpTo(lin, done, s, lin.len[s], t));
    }
  }

  lemma RowFitsAt(lin: Lineage, me: Worker, rows: map<ShardId, Row>, synced: set<ShardId>, published: set<ShardId>,
                  done: set<ShardId>, s: ShardId)
    requires Steady(lin, me, rows, synced, published, done) && s in rows
    ensures RowFits(lin, me, s, rows[s], done)
  {
  }

  lemma CompletesRow(lin: Lineage, me: Worker, rows: map<ShardId, Row>, synced: set<ShardId>, published: set<ShardId>,
                     done: set<ShardId>, s: ShardId, row: Row)
    requires Steady(lin, me, rows, synced, published, done) && s in rows && s !in done && s in lin.len
    requires row == rows[s].(counter := row.counter, checkpoint := lin.len[s], completed := true)
    ensures Steady(lin, me, rows[s := row], synced, published, done + {s})
  {
    RowFitsAt(lin, me, rows, synced, published, done, s);
    PassKeeps(lin, me, rows, synced, published, done, s, row);
  }

  lemma KeepsTable(table: map<Key, Row>, me: Worker, s: ShardId, row: Row)
    requires TableOk(table, me) && row.owner == Some(me)
    ensures TableOk(table[ShardKey(s) := row], me)
  {
  }

  function KeysOf(items: seq<Item>): set<Key> {
    set x | x in items :: x.key
  }

  lemma KeysOfNone()
    ensures KeysOf([]) == {}
  {
  }

  lemma NewKey(items: seq<Item>, i: nat)
    requires i < |items| && forall i, j :: 0 <= i < j < |items| ==> items[i].key != items[j].key
    ensures KeysOf(items[..i + 1]) == KeysOf(items[..i]) + {items[i].key} && items[i].key !in KeysOf(items[..i])
  {
    assert items[..i + 1] == items[..i] + [items[i]];
  }

  /** A row the worker owns and has not completed. */
  predicate Due(x: Item, me: Worker) {
    x.key.ShardKey? && x.row.owner == Some(me) && !x.row.completed
  }

  /** The parent gate as the cycle computes it: complete, or no longer there. */
  predicate ShardEligible(x: Item, completed: set<ShardId>, existing: set<ShardId>)
    requires x.key.ShardKey?
  {
    x.key.id !in completed && forall p :: p in x.row.parents ==> p in completed || p !in existing
  }

  lemma ScanShards(items: seq<Item>, rows: map<Key, Row>)
    requires ScanOf(items, rows)
    ensures forall j :: 0 <= j < |items| && items[j].key.ShardKey? ==>
      items[j].key.id in Cleanup.ShardRows(rows) && Cleanup.ShardRows(rows)[items[j].key.id] == items[j].row
    ensures forall s :: s in Cleanup.ShardRows(rows) ==>
      exists j: nat :: j < |items| && items[j].key == ShardKey(s) && items[j].row == Cleanup.ShardRows(rows)[s]
  {
    forall j | 0 <= j < |items| ensures items[j].key in rows && rows[items[j].key] == items[j].row {
      assert items[j] in items;
    }
    forall s | s in Cleanup.ShardRows(rows)
      ensures exists j: nat :: j < |items| && items[j].key == ShardKey(s) && items[j].row == Cleanup.ShardRows(rows)[s]
    {
      var x :| x in items && x.key == ShardKey(s);
      var j: nat :| j < |items| && items[j] == x;
    }
  }

  /** On any scan, the cycle's gate over two sets of ids is the step system's gate over rows. */
  lemma GateOnScan(items: seq<Item>, rows: map<Key, Row>, x: Item)
    requires ScanOf(items, rows) && x in items && x.key.ShardKey?
    ensures ShardEligible(x, CompletedIn(items), ExistingIn(items)) <==> Fleet.Eligible(Cleanup.ShardRows(rows), x.key.id)
  {
    ScanSets(items, rows);
    var table := Cleanup.ShardRows(rows);
    assert x.key.id in table && table[x.key.id] == x.row;
  }

  /** The gate of the cycle is the gate of the step system, and lets every incomplete row pass. */
  lemma AllEligible(lin: Lineage, me: Worker, items: seq<Item>, rows: map<Key, Row>, synced: set<ShardId>,
                    published: set<ShardId>, done: set<ShardId>)
    requires ScanOf(items, rows) && Steady(lin, me, Cleanup.ShardRows(rows), synced, published, done)
    ensures forall x :: x in items && x.key.ShardKey? ==>
      (ShardEligible(x, CompletedIn(items), ExistingIn(items)) <==> Fleet.Eligible(Cleanup.ShardRows(rows), x.key.id))
    ensures forall x :: x in items && x.key.ShardKey? && !x.row.completed ==>
      x.key.id !in done && ShardEligible(x, CompletedIn(items), ExistingIn(items))
  {
    ScanSets(items, rows);
    var table := Cleanup.ShardRows(rows);
    forall x | x in items && x.key.ShardKey? && !x.row.completed
      ensures x.key.id !in done && Fleet.Eligible(table, x.key.id)
    {
      RowFitsAt(lin, me, table, synced, published, done, x.key.id);
      IncompleteIsEligible(lin, me, table, synced, published, done, x.key.id);
    }
  }

  lemma OwnedIsDue(lin: Lineage, me: Worker, items: seq<Item>, rows: map<Key, Row>, synced: set<ShardId>,
                   published: set<ShardId>, done: set<ShardId>, s: ShardId)
    requires ScanOf(items, rows) && Steady(lin, me, Cleanup.ShardRows(rows), synced, published, done)
    requires s in Cleanup.ShardRows(rows) && s !in done && Cleanup.ShardRows(rows)[s].owner == Some(me)
    ensures exists x :: x in items && Due(x, me) && x.key == ShardKey(s)
  {
    RowFitsAt(lin, me, Cleanup.ShardRows(rows), synced, published, done, s);
    var x :| x in items && x.key == ShardKey(s);
    assert Due(x, me);
  }

  /** A scan of shard rows that still describes published shards, now with perhaps more rows around. */
  ghost predicate ScannedBefore(lin: Lineage, me: Worker, seen: map<ShardId, Row>, rows: map<ShardId, Row>,
                                published: set<ShardId>, done: set<ShardId>)
  {
    seen.Keys <= rows.Keys && forall s :: s in seen ==> s in published && RowFits(lin, me, s, seen[s], done)
  }

  lemma ScanIsBefore(lin: Lineage, me: Worker, seen: map<ShardId, Row>, synced: set<ShardId>, known: set<ShardId>,
                     done: set<ShardId>, rows: map<ShardId, Row>, published: set<ShardId>)
    requires Steady(lin, me, seen, synced, known, done) && seen.Keys <= rows.Keys && known <= published
    ensures ScannedBefore(lin, me, seen, rows, published, done)
  {
  }

  /** Collecting keeps everything in order and leaves rows. */
  lemma SweepKeeps(lin: Lineage, rank: map<ShardId, nat>, me: Worker, seen: map<Key, Row>, table: map<Key, Row>,
                   synced: set<ShardId>, published: set<ShardId>, done: set<ShardId>)
    requires Forest(lin, rank) && TableOk(table, me)
    requires Steady(lin, me, Cleanup.ShardRows(table), synced, published, done)
    requires Seeded(lin, Cleanup.ShardRows(table), published)
    requires ScannedBefore(lin, me, Cleanup.ShardRows(seen), Cleanup.ShardRows(table), published, done)
    ensures var after := Cleanup.Swept(table, Cleanup.Collectable(seen));
            && TableOk(after, me) && Steady(lin, me, Cleanup.ShardRows(after), synced, published, done)
            && Seeded(lin, Cleanup.ShardRows(after), published)
            && Cleanup.ShardRows(after) == Cleanup.ShardRows(table) - Cleanup.Collectable(seen)
  {
    hide Steady, Seeded, TableOk, ScannedBefore, Cleanup.ShardRows, Cleanup.Swept, Cleanup.Collectable, Forest;
    var gone, rows, before := Cleanup.Collectable(seen), Cleanup.ShardRows(table), Cleanup.ShardRows(seen);
    GoneAreComplete(lin, me, seen, table, synced, published, done);
    CollectKeeps(lin, me, before, rows, synced, published, done, gone);
    ShardRowsSwept(table, gone);
    SweptTable(table, me, gone);
    SweepLeaves(lin, rank, me, before, rows, published, done, gone);
  }

  /** What is collectable on the scan is safe there, and still complete. */
  lemma GoneAreComplete(lin: Lineage, me: Worker, seen: map<Key, Row>, table: map<Key, Row>, synced: set<ShardId>,
                        published: set<ShardId>, done: set<ShardId>)
    requires Steady(lin, me, Cleanup.ShardRows(table), synced, published, done)
    requires ScannedBefore(lin, me, Cleanup.ShardRows(seen), Cleanup.ShardRows(table), published, done)
    ensures var before, gone := Cleanup.ShardRows(seen), Cleanup.Collectable(seen);
            && (forall s :: s in before ==> s in published && RowFits(lin, me, s, before[s], done))
            && (forall s :: s in gone ==> Fleet.SafeToDelete(before, s))
            && (forall s :: s in gone && ShardKey(s) in table ==> table[ShardKey(s)].completed)
  {
    var before, rows := Cleanup.ShardRows(seen), Cleanup.ShardRows(table);
    forall s | s in Cleanup.Collectable(seen) && ShardKey(s) in table ensures table[ShardKey(s)].completed {
      assert s in rows;
      RowFitsAt(lin, me, rows, synced, published, done, s);
      assert RowFits(lin, me, s, before[s], done);
    }
  }

  lemma SweptTable(table: map<Key, Row>, me: Worker, gone: set<ShardId>)
    requires TableOk(table, me)
    ensures TableOk(Cleanup.Swept(table, gone), me)
  {
  }

  lemma SweepLeaves(lin: Lineage, rank: map<ShardId, nat>, me: Worker, before: map<ShardId, Row>,
                    rows: map<ShardId, Row>, published: set<ShardId>, done: set<ShardId>, gone: set<ShardId>)
    requires Forest(lin, rank) && Seeded(lin, rows, published)
    requires ScannedBefore(lin, me, before, rows, published, done)
    requires forall s :: s in gone ==> Fleet.SafeToDelete(before, s)
    ensures Seeded(lin, rows - gone, published)
  {
    if before == map[] {
      assert gone == {} && rows - gone == rows;
    } else {
      var top := CollectLeavesRows(lin, rank, me, before, done, gone);
      assert top in rows - gone;
    }
  }

  function SentinelIn(items: seq<Item>): Option<Coordinator.RawLease> {
    if items == [] then None
    else if items[|items| - 1].key == LeaderKey then Some(RawOf(items[|items| - 1]))
    else SentinelIn(items[..|items| - 1])
  }

  lemma {:induction false} SentinelInMeans(items: seq<Item>)
    ensures SentinelIn(items).None? ==> forall x :: x in items ==> x.key != LeaderKey
    ensures SentinelIn(items).Some? ==> exists x :: x in items && x.key == LeaderKey && SentinelIn(items) == Some(RawOf(x))
    decreases |items|
  {
    if items != [] {
      assert items == items[..|items| - 1] + [items[|items| - 1]];
      SentinelInMeans(items[..|items| - 1]);
    }
  }

  lemma SentinelScanned(items: seq<Item>, rows: map<Key, Row>)
    requires ScanOf(items, rows)
    ensures SentinelIn(items) == Leadership.Sentinel(rows)
  {
    SentinelInMeans(items);
  }

  /** A bid of a worker that is alone lands, and touches nothing but the sentinel. */
  lemma SoleLeads(rows: map<Key, Row>, me: Worker)
    requires TableOk(rows, me)
    ensures forall takeable :: Leadership.BidLands(rows, me, Leadership.BidFor(Leadership.Sentinel(rows), me, takeable))
    ensures forall takeable ::
      var after := Leadership.Bidden(rows, me, Leadership.BidFor(Leadership.Sentinel(rows), me, takeable));
      TableOk(after, me) && Cleanup.ShardRows(after) == Cleanup.ShardRows(rows)
    ensures var row := Leadership.Sentinel(rows); row.Some? ==> row.value.key == LeaderKey
  {
  }

  /** Some rows were taken over by `me`; nothing else changed. */
  ghost predicate ClaimedSome(seen: map<Key, Row>, rows: map<Key, Row>, me: Worker) {
    && seen.Keys == rows.Keys
    && forall k :: k in seen ==>
         rows[k] == seen[k] || rows[k] == seen[k].(owner := Some(me), counter := rows[k].counter)
  }

  lemma SameShards(seen: map<Key, Row>, rows: map<Key, Row>, me: Worker)
    requires ClaimedSome(seen, rows, me)
    ensures Cleanup.ShardRows(rows).Keys == Cleanup.ShardRows(seen).Keys
  {
  }

  /** After claiming, an incomplete shard is held if there is one at all. */
  lemma HasWork(lin: Lineage, seen: map<Key, Row>, rows: map<Key, Row>, views: seq<Taker.Snapshot>, me: Worker, max: nat,
                take: seq<Key>, synced: set<ShardId>, published: set<ShardId>, done: set<ShardId>, s: ShardId)
    requires SoleView(views, seen, me) && Taker.IsTake(views, me, max, take) && max >= 1
    requires ClaimedSome(seen, rows, me) && Steady(lin, me, Cleanup.ShardRows(rows), synced, published, done)
    requires forall k :: k in take ==> k in rows && rows[k].owner == Some(me)
    requires s in Cleanup.ShardRows(rows) && s !in done
    ensures exists t :: t in Cleanup.ShardRows(rows) && t !in done && Cleanup.ShardRows(rows)[t].owner == Some(me)
  {
    hide SoleView, Taker.IsTake;
    var table := Cleanup.ShardRows(rows);
    assert RowFits(lin, me, s, table[s], done);
    var k := SoleWorkerHasWork(views, seen, me, max, take, s);
    var t := k.id;
    assert t in table && RowFits(lin, me, t, table[t], done);
  }

  /** A completed parent with a child row has been synced. */
  lemma ParentsOfRows(lin: Lineage, me: Worker, items: seq<Item>, rows: map<Key, Row>, synced: set<ShardId>,
                      published: set<ShardId>, done: set<ShardId>)
    requires ScanOf(items, rows) && Steady(lin, me, Cleanup.ShardRows(rows), synced, published, done)
    ensures forall x :: x in items && IsCompleted(x) ==> x.key.id in done
    ensures forall x :: x in items && IsCompleted(x) && x.key.id in WithChildren(items) ==> x.key.id in synced
  {
    var table := Cleanup.ShardRows(rows);
    forall x | x in items && IsCompleted(x)
      ensures x.key.id in done && (x.key.id in WithChildren(items) ==> x.key.id in synced)
    {
      var p := x.key.id;
      assert table[p] == x.row && RowFits(lin, me, p, table[p], done);
      if p in WithChildren(items) {
        var y :| y in items && y.key.ShardKey? && p in y.row.parents;
        var c := y.key.id;
        assert table[c] == y.row && RowFits(lin, me, c, table[c], done);
        assert IsChildOf(lin, c, p) && c in published;
      }
    }
  }

  /** Every completed shard is either synced already or has a row the scan shows complete. */
  lemma AllSynced(lin: Lineage, me: Worker, items: seq<Item>, rows: map<Key, Row>, synced: set<ShardId>,
                  published: set<ShardId>, done: set<ShardId>, all: set<ShardId>)
    requires ScanOf(items, rows) && Steady(lin, me, Cleanup.ShardRows(rows), synced, published, done)
    requires synced <= all
    requires forall j :: 0 <= j < |items| && IsCompleted(items[j]) ==> items[j].key.id in all
    ensures done <= all
  {
    var table := Cleanup.ShardRows(rows);
    forall p | p in done ensures p in all {
      if p !in synced {
        assert RowFits(lin, me, p, table[p], done);
        var x :| x in items && x.key == ShardKey(p);
        var j :| 0 <= j < |items| && items[j] == x;
      }
    }
  }

  lemma SeededStays(lin: Lineage, rows: map<ShardId, Row>, published: set<ShardId>,
                    rows': map<ShardId, Row>, published': set<ShardId>)
    requires Seeded(lin, rows, published) && rows.Keys <= rows'.Keys && published <= published'
    ensures Seeded(lin, rows', published')
  {
    var s :| s in rows;
    assert s in rows';
  }

  function Roots(lin: Lineage): set<ShardId> {
    set s | s in lin.parent && IsRoot(lin, s)
  }

  /** With nothing complete yet, just the roots pass the gate. */
  lemma RootsAreUngated(lin: Lineage, metas: seq<ShardMeta>)
    requires IdsOf(metas) == lin.parent.Keys && forall m :: m in metas ==> m.parents == ParentsIn(lin, m.id)
    ensures Roots(lin) <= IdsOf(metas)
    ensures forall m :: m in metas ==> (m.id in Roots(lin) <==> (true ==> forall p :: p in m.parents ==> p in {}) && m.id !in {})
  {
    forall m | m in metas ensures m.id in Roots(lin) <==> forall p :: p in m.parents ==> p in {} {
      assert m.id in IdsOf(metas);
      assert ParentsIn(lin, m.id) != [] ==> ParentsIn(lin, m.id)[0] in m.parents;
    }
  }

  lemma SeedSteady(lin: Lineage, rank: map<ShardId, nat>, me: Worker)
    requires Forest(lin, rank)
    ensures Steady(lin, me, PublishedAll(lin, map[], Roots(lin)), {}, Roots(lin), {})
    ensures Seeded(lin, PublishedAll(lin, map[], Roots(lin)), Roots(lin))
  {
    SeedKeeps(lin, me, Roots(lin));
    var any :| any in lin.parent;
    var r := RootExists(lin, rank, any);
    assert r in PublishedAll(lin, map[], Roots(lin));
  }

  /** Rows only of published shards. */
  lemma RowsArePublished(lin: Lineage, me: Worker, rows: map<ShardId, Row>, synced: set<ShardId>,
                         published: set<ShardId>, done: set<ShardId>)
    requires Steady(lin, me, rows, synced, published, done)
    ensures rows.Keys <= published
  {
  }

  predicate IsCompleted(x: Item) {
    x.key.ShardKey? && x.row.completed
  }

  function CompletedIn(items: seq<Item>): set<ShardId> {
    set x | x in items && x.key.ShardKey? && x.row.completed :: x.key.id
  }

  function ExistingIn(items: seq<Item>): set<ShardId> {
    set x | x in items && x.key.ShardKey? :: x.key.id
  }

  function WithChildren(items: seq<Item>): set<ShardId> {
    set x, p | x in items && x.key.ShardKey? && p in x.row.parents :: p
  }

  lemma ScanSets(items: seq<Item>, rows: map<Key, Row>)
    requires ScanOf(items, rows)
    ensures ExistingIn(items) == Cleanup.ShardRows(rows).Keys
    ensures forall s :: s in CompletedIn(items) <==> s in Cleanup.ShardRows(rows) && Cleanup.ShardRows(rows)[s].completed
  {
    var table := Cleanup.ShardRows(rows);
    forall s | s in table ensures s in ExistingIn(items) && (table[s].completed ==> s in CompletedIn(items)) {
      var x :| x in items && x.key == ShardKey(s);
    }
  }

  function Ids(metas: seq<ShardMeta>): (r: seq<ShardId>)
    ensures |r| == |metas| && forall i :: 0 <= i < |r| ==> r[i] == metas[i].id
  {
    seq(|metas|, i requires 0 <= i < |metas| => metas[i].id)
  }

  lemma IdsPush(metas: seq<ShardMeta>, m: ShardMeta)
    requires Distinct(Ids(metas)) && m.id !in IdsOf(metas)
    ensures Distinct(Ids(metas + [m])) && IdsOf(metas + [m]) == IdsOf(metas) + {m.id}
  {
    forall i | 0 <= i < |metas| ensures Ids(metas)[i] != m.id {
      assert metas[i] in metas;
    }
  }

  lemma DistinctFrom(metas: seq<ShardMeta>, i: nat)
    requires Distinct(Ids(metas)) && i < |metas|
    ensures metas[i].id !in IdsOf(metas[..i])
  {
    forall m | m in metas[..i] ensures m.id != metas[i].id {
      var j :| 0 <= j < i && metas[j] == m;
      assert Ids(metas)[j] == m.id;
    }
  }
}
