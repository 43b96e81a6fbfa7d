/**
 One worker drains a whole forest of closed shards: every cycle that does not report the
 end completes at least one more shard, although rows are published and collected all along.
 These are the lemmas on tables; the cycle itself is in Drain.
 */
module SoleFleet {
  import opened Types
  import opened LeaseTable
  import opened Fleet
  import opened Cleanup
  import Coordinator
  import Taker
  import Balance

  /** Single-parent lineage over closed logs, and how many records each holds. */
  datatype Lineage = Lineage(parent: map<ShardId, Option<ShardId>>, len: map<ShardId, nat>)

  function ParentsIn(lin: Lineage, s: ShardId): seq<ShardId> {
    if s in lin.parent && lin.parent[s].Some? then [lin.parent[s].value] else []
  }

  predicate IsRoot(lin: Lineage, s: ShardId) {
    s in lin.parent && lin.parent[s].None?
  }

  predicate IsChildOf(lin: Lineage, c: ShardId, p: ShardId) {
    c in lin.parent && lin.parent[c] == Some(p)
  }

  /** A finite, non-empty forest: parents are shards of it, and rank below their children. */
  ghost predicate Forest(lin: Lineage, rank: map<ShardId, nat>) {
    && lin.parent != map[] && lin.len.Keys == lin.parent.Keys == rank.Keys
    && forall c, p :: IsChildOf(lin, c, p) ==> p in lin.parent && rank[p] < rank[c]
  }

  // ---- What a sole worker's cycles keep ----------------------------------------------

  predicate RowFits(lin: Lineage, me: Worker, s: ShardId, row: Row, done: set<ShardId>) {
    && s in lin.parent && s in lin.len
    && (row.owner.None? || row.owner == Some(me)) && row.parents == ParentsIn(lin, s)
    && (row.completed <==> s in done) && row.checkpoint == if s in done then lin.len[s] else 0
  }

  predicate Gated(lin: Lineage, s: ShardId, done: set<ShardId>) {
    s in lin.parent && (lin.parent[s].Some? ==> lin.parent[s].value in done)
  }

  ghost predicate ChildrenOut(lin: Lineage, p: ShardId, published: set<ShardId>) {
    forall c :: IsChildOf(lin, c, p) ==> c in published
  }

  ghost predicate ChildrenIn(lin: Lineage, p: ShardId, published: set<ShardId>) {
    forall c :: IsChildOf(lin, c, p) ==> c !in published
  }

  /** What was ever published and completed, against the rows that are there now. */
  ghost predicate Steady(lin: Lineage, me: Worker, rows: map<ShardId, Row>, synced: set<ShardId>,
                         published: set<ShardId>, done: set<ShardId>)
  {
    && (forall s :: s in rows ==> s in published && RowFits(lin, me, s, rows[s], done))
    && (forall s :: s in published ==> Gated(lin, s, done) && (s in rows || s in done))
    && done <= published && synced <= done
    && (forall p :: p in synced ==> ChildrenOut(lin, p, published))
    && (forall p :: p in done && p !in synced ==> p in rows && ChildrenIn(lin, p, published))
  }

  ghost predicate Seeded(lin: Lineage, rows: map<ShardId, Row>, published: set<ShardId>) {
    rows != map[] && forall s :: IsRoot(lin, s) ==> s in published
  }

  // ---- Publishing --------------------------------------------------------------------

  /** The rows once the shards in `more` have been published. */
  function PublishedAll(lin: Lineage, rows: map<ShardId, Row>, more: set<ShardId>): map<ShardId, Row> {
    map s | s in rows.Keys + more :: if s in rows then rows[s] else Row(None, 0, 0, false, ParentsIn(lin, s))
  }

  lemma SeedKeeps(lin: Lineage, me: Worker, roots: set<ShardId>)
    requires lin.len.Keys == lin.parent.Keys && forall s :: s in roots <==> IsRoot(lin, s)
    ensures Steady(lin, me, PublishedAll(lin, map[], roots), {}, roots, {})
  {
  }

  lemma RootExists(lin: Lineage, rank: map<ShardId, nat>, s: ShardId) returns (r: ShardId)
    requires Forest(lin, rank) && s in lin.parent
    ensures IsRoot(lin, r)
    decreases rank[s]
  {
    if lin.parent[s].None? {
      r := s;
    } else {
      assert IsChildOf(lin, s, lin.parent[s].value);
      r := RootExists(lin, rank, lin.parent[s].value);
    }
  }

  /** Syncing one completed parent publishes all its children, none of which was out before. */
  lemma SyncKeeps(lin: Lineage, me: Worker, rows: map<ShardId, Row>, synced: set<ShardId>,
                  published: set<ShardId>, done: set<ShardId>, p: ShardId, children: set<ShardId>)
    requires Steady(lin, me, rows, synced, published, done) && p in done && p !in synced
    requires lin.len.Keys == lin.parent.Keys && forall c :: c in children <==> IsChildOf(lin, c, p)
    ensures children !! published
    ensures Steady(lin, me, PublishedAll(lin, rows, children), synced + {p}, published + children, done)
  {
    assert ChildrenIn(lin, p, published);
    var rows', published' := PublishedAll(lin, rows, children), published + children;
    forall c | c in children ensures c !in done && c !in rows && Gated(lin, c, done) {
      assert IsChildOf(lin, c, p);
    }
    forall q | q in done && q !in synced + {p} ensures q in rows' && ChildrenIn(lin, q, published') {
      assert ChildrenIn(lin, q, published);
    }
    forall q | q in synced + {p} ensures ChildrenOut(lin, q, published') {
      if q in synced {
        assert ChildrenOut(lin, q, published);
      }
    }
  }

  // ---- Collecting --------------------------------------------------------------------

  /** Only shards whose children are out are collected, so collecting keeps the balance. */
  lemma CollectKeeps(lin: Lineage, me: Worker, before: map<ShardId, Row>, rows: map<ShardId, Row>, synced: set<ShardId>,
                     published: set<ShardId>, done: set<ShardId>, gone: set<ShardId>)
    requires Steady(lin, me, rows, synced, published, done)
    requires forall s :: s in before ==> s in published && RowFits(lin, me, s, before[s], done)
    requires forall s :: s in gone ==> SafeToDelete(before, s)
    ensures Steady(lin, me, rows - gone, synced, published, done)
  {
    forall s | s in gone ensures s in done && s in synced {
      var c :| c in before && IsChild(before, s, c);
      assert RowFits(lin, me, c, before[c], done) && RowFits(lin, me, s, before[s], done);
      assert IsChildOf(lin, c, s);
      assert s !in synced ==> ChildrenIn(lin, s, published);
    }
    forall s | s in published ensures s in rows - gone || s in done {
    }
  }

  // ---- Completing --------------------------------------------------------------------

  lemma PassKeeps(lin: Lineage, me: Worker, rows: map<ShardId, Row>, synced: set<ShardId>,
                  published: set<ShardId>, done: set<ShardId>, s: ShardId, row: Row)
    requires Steady(lin, me, rows, synced, published, done) && s in rows && s !in done
    requires RowFits(lin, me, s, row, done + {s})
    ensures Steady(lin, me, rows[s := row], synced, published, done + {s})
  {
    var rows', done' := rows[s := row], done + {s};
    forall t | t in rows' ensures t in published && RowFits(lin, me, t, rows'[t], done') {
    }
    forall p | p in done' && p !in synced ensures p in rows' && ChildrenIn(lin, p, published) {
      if p == s {
        forall c | IsChildOf(lin, c, s) ensures c !in published {
          assert c in published ==> Gated(lin, c, done);
        }
      } else {
        assert ChildrenIn(lin, p, published);
      }
    }
  }

  /** Taking a lease changes nothing about the shard. */
  lemma ClaimKeeps(lin: Lineage, me: Worker, rows: map<ShardId, Row>, synced: set<ShardId>,
                   published: set<ShardId>, done: set<ShardId>, s: ShardId, counter: nat)
    requires Steady(lin, me, rows, synced, published, done) && s in rows
    ensures Steady(lin, me, rows[s := rows[s].(owner := Some(me), counter := counter)], synced, published, done)
  {
    var rows' := rows[s := rows[s].(owner := Some(me), counter := counter)];
    forall t | t in rows' ensures t in published && RowFits(lin, me, t, rows'[t], done) {
      assert RowFits(lin, me, t, rows[t], done);
    }
    forall p | p in done && p !in synced ensures p in rows' && ChildrenIn(lin, p, published) {
      assert ChildrenIn(lin, p, published);
    }
  }

  /** Every incomplete shard with a row may be worked at once: its parent is done. */
  lemma IncompleteIsEligible(lin: Lineage, me: Worker, rows: map<ShardId, Row>, synced: set<ShardId>,
                             published: set<ShardId>, done: set<ShardId>, s: ShardId)
    requires Steady(lin, me, rows, synced, published, done) && s in rows && s !in done
    ensures Eligible(rows, s)
  {
    assert RowFits(lin, me, s, rows[s], done) && Gated(lin, s, done);
    forall p | p in rows[s].parents && p in rows ensures rows[p].completed {
      assert RowFits(lin, me, p, rows[p], done);
    }
  }

  // ---- The end -----------------------------------------------------------------------

  /** When all is synced and every row is complete, the whole forest is complete. */
  lemma {:induction false} AllDone(lin: Lineage, rank: map<ShardId, nat>, me: Worker, rows: map<ShardId, Row>,
                                   synced: set<ShardId>, published: set<ShardId>, done: set<ShardId>, s: ShardId)
    requires Forest(lin, rank) && Steady(lin, me, rows, synced, published, done) && Seeded(lin, rows, published)
    requires done <= synced && (forall t :: t in rows ==> rows[t].completed)
    requires s in lin.parent
    ensures s in done
    decreases rank[s]
  {
    if lin.parent[s].None? {
      assert IsRoot(lin, s);
    } else {
      var p := lin.parent[s].value;
      assert IsChildOf(lin, s, p);
      AllDone(lin, rank, me, rows, synced, published, done, p);
      assert ChildrenOut(lin, p, published);
    }
    assert s in published && (s in rows ==> RowFits(lin, me, s, rows[s], done));
  }

  /** Collecting never empties the table, so the end is seen. */
  lemma CollectLeavesRows(lin: Lineage, rank: map<ShardId, nat>, me: Worker, before: map<ShardId, Row>,
                          done: set<ShardId>, gone: set<ShardId>) returns (top: ShardId)
    requires Forest(lin, rank) && before != map[]
    requires forall s :: s in before ==> RowFits(lin, me, s, before[s], done)
    requires forall s :: s in gone ==> SafeToDelete(before, s)
    ensures top in before && top !in gone
  {
    var any :| any in before;
    assert before.Keys <= rank.Keys by {
      forall s | s in before ensures s in rank {
        assert RowFits(lin, me, s, before[s], done);
      }
    }
    top := TopRow(before, rank, before.Keys);
    assert !SafeToDelete(before, top) by {
      forall c | c in before ensures !IsChild(before, top, c) {
        assert RowFits(lin, me, c, before[c], done);
        assert IsChild(before, top, c) ==> IsChildOf(lin, c, top);
      }
    }
  }

  // ---- The take of a sole worker -----------------------------------------------------

  /** The rows the coordinator is fed: all but the sentinel. */
  function RawRows(items: seq<Item>): seq<Coordinator.RawLease> {
    if items == [] then []
    else
      var x := items[|items| - 1];
      RawRows(items[..|items| - 1])
      + if x.key == LeaderKey then [] else [RawOf(x)]
  }

  function RawOf(x: Item): Coordinator.RawLease {
    Coordinator.RawLease(x.key, x.row.owner, x.row.counter, x.row.completed)
  }

  lemma {:induction false} RawRowsMean(items: seq<Item>)
    ensures forall r :: r in RawRows(items) <==> exists x :: x in items && x.key != LeaderKey && r == RawOf(x)
    decreases |items|
  {
    if items != [] {
      assert items == items[..|items| - 1] + [items[|items| - 1]];
      RawRowsMean(items[..|items| - 1]);
    }
  }

  ghost predicate DistinctRaw(raw: seq<Coordinator.RawLease>) {
    forall i, j :: 0 <= i < j < |raw| ==> raw[i].key != raw[j].key
  }

  lemma {:induction false} RawRowsDistinct(items: seq<Item>)
    requires forall i, j :: 0 <= i < j < |items| ==> items[i].key != items[j].key
    ensures DistinctRaw(RawRows(items))
    decreases |items|
  {
    if items != [] {
      var rest := items[..|items| - 1];
      RawRowsDistinct(rest);
      RawRowsMean(rest);
      var raw := RawRows(rest);
      forall i | 0 <= i < |raw| ensures raw[i].key != items[|items| - 1].key {
        assert raw[i] in raw;
        var x :| x in rest && x.key != LeaderKey && raw[i] == RawOf(x);
      }
    }
  }

  lemma {:induction false} ViewsMean(seen: Coordinator.Freshness, raw: seq<Coordinator.RawLease>, me: Worker, duration: nat, now: nat)
    requires DistinctRaw(raw)
    ensures var views := Coordinator.Views(seen, raw, me, duration, now);
            && (forall l :: l in views <==>
                  exists r :: r in raw && !r.key.HeartbeatKey? && l == Coordinator.View(seen, r, me, duration, now))
            && Balance.DistinctKeys(views)
    decreases |raw|
  {
    if raw != [] {
      var rest, last := raw[..|raw| - 1], raw[|raw| - 1];
      assert raw == rest + [last];
      ViewsMean(seen, rest, me, duration, now);
      var views := Coordinator.Views(seen, rest, me, duration, now);
      forall i | 0 <= i < |views| ensures views[i].key != last.key {
        assert views[i] in views;
        var r :| r in rest && !r.key.HeartbeatKey? && views[i] == Coordinator.View(seen, r, me, duration, now);
      }
    }
  }

  /** Nobody else holds anything. */
  ghost predicate Alone(rows: map<Key, Row>, me: Worker) {
    forall k :: k in rows ==> rows[k].owner.None? || rows[k].owner == Some(me)
  }

  /** What the taker sees of a table that no other worker has touched. */
  ghost predicate SoleView(views: seq<Taker.Snapshot>, rows: map<Key, Row>, me: Worker) {
    && Balance.DistinctKeys(views)
    && (forall l :: l in views ==>
          && l.key.ShardKey? && l.key in rows && !l.expired
          && l.owner == rows[l.key].owner && l.completed == rows[l.key].completed
          && (l.owner.None? || l.owner == Some(me)))
    && (forall k :: k in rows && k.ShardKey? ==> exists l :: l in views && l.key == k)
  }

  lemma SoleViewOf(items: seq<Item>, rows: map<Key, Row>, seen: Coordinator.Freshness, me: Worker, duration: nat, now: nat)
    requires ScanOf(items, rows) && Alone(rows, me)
    ensures SoleView(Coordinator.Views(seen, RawRows(items), me, duration, now), rows, me)
  {
    hide RawRows, DistinctRaw, Coordinator.Views, Balance.DistinctKeys;
    RawRowsMean(items);
    RawRowsDistinct(items);
    var raw := RawRows(items);
    ViewsMean(seen, raw, me, duration, now);
    forall k | k in rows && k.ShardKey? ensures exists l :: l in Coordinator.Views(seen, raw, me, duration, now) && l.key == k {
      var x :| x in items && x.key == k;
      assert RawOf(x) in raw;
      assert Coordinator.View(seen, RawOf(x), me, duration, now) in Coordinator.Views(seen, raw, me, duration, now);
    }
  }

  /** A lease that the taker counts as held by `me` is a row of `me`'s. */
  lemma HolderIsOwner(active: seq<Taker.Snapshot>, me: Worker, k: Key) returns (l: Taker.Snapshot)
    requires Balance.DistinctKeys(active) && k in Balance.Mine(Balance.AllocOf(active), me)
    ensures l in active && l.key == k && l.owner == Some(me)
  {
    l :| l in active && l.key == k;
    Balance.HolderOf(active, l);
  }

  lemma ShareIsPositive(m: Balance.Alloc, me: Worker)
    requires m != map[]
    ensures Balance.Share(m, me) >= 1
  {
    var n, d := |m|, |Balance.Owners(m) + {me}|;
    assert n >= 1 && d >= 1 by {
      assert me in Balance.Owners(m) + {me};
      assert m.Keys != {} && |m| == |m.Keys|;
    }
    assert (n + d - 1) / d >= 1;
  }

  lemma AllocHas(active: seq<Taker.Snapshot>, me: Worker, l: Taker.Snapshot)
    requires Balance.DistinctKeys(active) && l in active && !l.expired && (l.owner.None? || l.owner == Some(me))
    ensures l.key in Balance.AllocOf(active) && Balance.AllocOf(active)[l.key] == l.owner
    ensures l.owner.None? ==> l.key in Balance.Free(Balance.AllocOf(active))
    ensures l.owner.Some? ==> l.key in Balance.Mine(Balance.AllocOf(active), me)
  {
    Balance.HolderOf(active, l);
  }

  /** If some shard is incomplete, the worker holds an incomplete shard or takes one. */
  lemma SoleWorkerHasWork(views: seq<Taker.Snapshot>, rows: map<Key, Row>, me: Worker, max: nat, take: seq<Key>, s: ShardId)
    returns (k: Key)
    requires SoleView(views, rows, me) && Taker.IsTake(views, me, max, take) && max >= 1
    requires ShardKey(s) in rows && !rows[ShardKey(s)].completed
    ensures k in rows && k.ShardKey? && !rows[k].completed && (rows[k].owner == Some(me) || k in take)
  {
    var active := Filter(views, Taker.Active);
    FilterMembers(views, Taker.Active);
    Balance.FilterDistinct(views, Taker.Active);
    var m := Balance.AllocOf(active);
    Balance.TakeKeepsRules(views, me, max, take);
    var l :| l in views && l.key == ShardKey(s);
    AllocHas(active, me, l);
    if take != [] {
      k := take[0];
      var t := Taker.TakenWhy(views, me, max, take, k);
    } else {
      assert Balance.TakenSet(take) == {};
      ShareIsPositive(m, me);
      if l.owner == Some(me) {
        k := l.key;
      } else {
        assert l.key in Balance.Free(m);
        assert Balance.Hold(m, me) >= 1;
        k :| k in Balance.Mine(m, me);
        var t := HolderIsOwner(active, me, k);
      }
    }
  }

  lemma TakesIncomplete(views: seq<Taker.Snapshot>, rows: map<Key, Row>, me: Worker, max: nat, take: seq<Key>, k: Key)
    requires SoleView(views, rows, me) && Taker.IsTake(views, me, max, take) && k in take
    ensures k in rows && k.ShardKey? && !rows[k].completed
  {
    var t := Taker.TakenWhy(views, me, max, take, k);
  }
}
