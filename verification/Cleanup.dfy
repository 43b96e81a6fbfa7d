/**
 Collecting the rows of completed shards: which may go, and why nobody notices that they
 are gone.
 */
module Cleanup {
  import opened Types
  import opened LeaseTable
  import opened LeaseStore
  import opened Fleet

  datatype LeaseState = LeaseState(completed: bool, processing: bool)

  // ---- The selection -----------------------------------------------------------------

  ghost predicate Listed(shards: seq<ShardMeta>, id: ShardId) {
    exists m :: m in shards && m.id == id
  }

  /** A known shard, complete, with children that all have a row in progress or complete. */
  ghost predicate Safe(shards: seq<ShardMeta>, state: map<ShardId, LeaseState>, id: ShardId) {
    && Listed(shards, id)
    && id in state && state[id].completed
    && (exists c :: c in shards && id in c.parents)
    && forall c :: c in shards && id in c.parents ==>
         c.id in state && (state[c.id].processing || state[c.id].completed)
  }

  /** The ids of the shards that name `p` as a parent. */
  ghost predicate ChildrenOf(children: map<ShardId, seq<ShardId>>, shards: seq<ShardMeta>) {
    && (forall p, k :: p in children && k in children[p] ==> exists c :: c in shards && p in c.parents && c.id == k)
    && (forall p :: p in children ==> children[p] != [])
    && (forall c, p :: c in shards && p in c.parents ==> p in children && c.id in children[p])
  }

  method ChildrenByParent(shards: seq<ShardMeta>) returns (children: map<ShardId, seq<ShardId>>)
    ensures ChildrenOf(children, shards)
  {
    children := map[];
    for i := 0 to |shards|
      invariant ChildrenOf(children, shards[..i])
    {
      assert shards[..i + 1] == shards[..i] + [shards[i]];
      var s := shards[i];
      for j := 0 to |s.parents|
        invariant forall p, k :: p in children && k in children[p] ==>
          exists c :: c in shards[..i + 1] && p in c.parents && c.id == k
        invariant forall p :: p in children ==> children[p] != []
        invariant forall c, p :: c in shards[..i] && p in c.parents ==> p in children && c.id in children[p]
        invariant forall p :: p in s.parents[..j] ==> p in children && s.id in children[p]
      {
        var p := s.parents[j];
        assert s in shards[..i + 1];
        children := children[p := (if p in children then children[p] else []) + [s.id]];
      }
      assert s.parents[..|s.parents|] == s.parents;
    }
    assert shards[..|shards|] == shards;
  }

  predicate Sorted(s: seq<ShardId>) {
    forall i, j :: 0 <= i < j < |s| ==> s[i] <= s[j]
  }

  lemma PlacedAt(s: seq<ShardId>, i: nat, id: ShardId, k: nat)
    requires i <= |s| && k <= |s|
    ensures (s[..i] + [id] + s[i..])[k] == if k < i then s[k] else if k == i then id else s[k - 1]
  {
  }

  lemma PlacedSorted(s: seq<ShardId>, i: nat, id: ShardId)
    requires Sorted(s) && i <= |s|
    requires i > 0 ==> s[i - 1] <= id
    requires i < |s| ==> id < s[i]
    ensures Sorted(s[..i] + [id] + s[i..])
  {
    var r := s[..i] + [id] + s[i..];
    forall a, b | 0 <= a < b < |r| ensures r[a] <= r[b] {
      PlacedAt(s, i, id, a);
      PlacedAt(s, i, id, b);
      assert a < i <= b ==> s[a] <= s[i - 1];
      assert a <= i < b ==> s[i] <= s[b - 1];
    }
  }

  lemma PlacedHolds(s: seq<ShardId>, i: nat, id: ShardId, x: ShardId)
    requires i <= |s|
    ensures x in s[..i] + [id] + s[i..] <==> x in s || x == id
  {
    assert s == s[..i] + s[i..];
  }

  method Insert(sorted: seq<ShardId>, id: ShardId) returns (r: seq<ShardId>)
    requires Sorted(sorted)
    ensures Sorted(r) && |r| == |sorted| + 1 && forall x :: x in r <==> x in sorted || x == id
  {
    var i := |sorted|;
    while i > 0 && sorted[i - 1] > id
      invariant 0 <= i <= |sorted| && (i < |sorted| ==> sorted[i] > id)
    {
      i := i - 1;
    }
    r := sorted[..i] + [id] + sorted[i..];
    PlacedSorted(sorted, i, id);
    forall x ensures x in r <==> x in sorted || x == id {
      PlacedHolds(sorted, i, id, x);
    }
  }

  method IsSafe(s: ShardId, children: map<ShardId, seq<ShardId>>, state: map<ShardId, LeaseState>) returns (ok: bool)
    requires forall p :: p in children ==> children[p] != []
    ensures ok <==>
      && s in state && state[s].completed && s in children
      && forall k :: k in children[s] ==> k in state && (state[k].processing || state[k].completed)
  {
    if s !in state || !state[s].completed || s !in children {
      return false;
    }
    for i := 0 to |children[s]|
      invariant forall k :: k in children[s][..i] ==> k in state && (state[k].processing || state[k].completed)
    {
      var k := children[s][i];
      if k !in state || !(state[k].processing || state[k].completed) {
        return false;
      }
    }
    assert children[s][..|children[s]|] == children[s];
    return true;
  }

  /** The ids of all rows that may be deleted, in order, each as often as it is listed. */
  method LeasesSafeToDelete(shards: seq<ShardMeta>, state: map<ShardId, LeaseState>) returns (deletable: seq<ShardId>)
    ensures forall id :: id in deletable <==> Safe(shards, state, id)
    ensures Sorted(deletable)
    // Only what is complete and has children, all of them under way; and of those, everything.
    ensures forall id :: id in deletable ==> id in state && state[id].completed
    ensures forall id, c :: id in deletable && c in shards && id in c.parents ==>
      c.id in state && (state[c.id].processing || state[c.id].completed)
    ensures forall m, child :: (&& m in shards && m.id in state && state[m.id].completed && m.id !in deletable
                                && child in shards && m.id in child.parents) ==>
        exists c :: c in shards && m.id in c.parents && !(c.id in state && (state[c.id].processing || state[c.id].completed))
  {
    var children := ChildrenByParent(shards);
    deletable := [];
    for i := 0 to |shards|
      invariant forall id :: id in deletable <==> Safe(shards, state, id) && Listed(shards[..i], id)
      invariant Sorted(deletable)
    {
      hide Safe;
      assert shards[..i + 1] == shards[..i] + [shards[i]];
      var ok := IsSafe(shards[i].id, children, state);
      SafeByChildren(shards, state, children, shards[i]);
      if ok {
        deletable := Insert(deletable, shards[i].id);
      }
    }
    assert shards[..|shards|] == shards;
  }

  lemma SafeByChildren(shards: seq<ShardMeta>, state: map<ShardId, LeaseState>,
                       children: map<ShardId, seq<ShardId>>, s: ShardMeta)
    requires ChildrenOf(children, shards) && s in shards
    ensures Safe(shards, state, s.id) <==>
      && s.id in state && state[s.id].completed && s.id in children
      && forall k :: k in children[s.id] ==> k in state && (state[k].processing || state[k].completed)
  {
    if s.id in children {
      var k := children[s.id][0];
      assert k in children[s.id];
    }
  }

  // ---- The pass over the table -------------------------------------------------------

  /** The shard rows of a table. */
  function ShardRows(rows: map<Key, Row>): map<ShardId, Row> {
    map k | k in rows && k.ShardKey? :: k.id := rows[k]
  }

  /** Shard lineage as the rows carry it; the sentinel and heartbeats are no shards. */
  function MetasOf(items: seq<Item>): seq<ShardMeta> {
    if items == [] then []
    else
      var x := items[|items| - 1];
      MetasOf(items[..|items| - 1]) + if x.key.ShardKey? then [ShardMeta(x.key.id, x.row.parents)] else []
  }

  /** Progress of each shard: some record checkpointed, or complete. */
  function StatesOf(rows: map<ShardId, Row>): map<ShardId, LeaseState> {
    map s | s in rows :: LeaseState(rows[s].completed, rows[s].completed || rows[s].checkpoint > 0)
  }

  lemma {:induction false} MetasAreRows(items: seq<Item>)
    ensures forall m :: m in MetasOf(items) <==>
      exists x :: x in items && x.key.ShardKey? && m == ShardMeta(x.key.id, x.row.parents)
    decreases |items|
  {
    if items != [] {
      assert items == items[..|items| - 1] + [items[|items| - 1]];
      MetasAreRows(items[..|items| - 1]);
    }
  }

  lemma MetasOnScan(items: seq<Item>, rows: map<Key, Row>, m: ShardMeta)
    requires ScanOf(items, rows)
    ensures m in MetasOf(items) <==> m.id in ShardRows(rows) && m.parents == ShardRows(rows)[m.id].parents
  {
    MetasAreRows(items);
    if m.id in ShardRows(rows) {
      var x :| x in items && x.key == ShardKey(m.id);
    }
  }

  lemma SafeOnTable(metas: seq<ShardMeta>, table: map<ShardId, Row>, s: ShardId)
    requires forall m :: m in metas <==> m.id in table && m.parents == table[m.id].parents
    ensures Safe(metas, StatesOf(table), s) <==> SafeToDelete(table, s)
  {
    forall c | c in table ensures ShardMeta(c, table[c].parents) in metas {
    }
    if SafeToDelete(table, s) {
      var c :| c in table && IsChild(table, s, c);
      assert ShardMeta(c, table[c].parents) in metas;
    }
    if Safe(metas, StatesOf(table), s) {
      var c :| c in metas && s in c.parents;
      assert IsChild(table, s, c.id);
      forall c | IsChild(table, s, c) ensures table[c].completed || table[c].checkpoint > 0 {
        assert ShardMeta(c, table[c].parents) in metas;
      }
    }
  }

  /** On a scan the selection is the guard of the step system. */
  lemma SafeOnScan(items: seq<Item>, rows: map<Key, Row>, s: ShardId)
    requires ScanOf(items, rows)
    ensures Safe(MetasOf(items), StatesOf(ShardRows(rows)), s) <==> SafeToDelete(ShardRows(rows), s)
  {
    hide *;
    forall m: ShardMeta ensures m in MetasOf(items) <==> m.id in ShardRows(rows) && m.parents == ShardRows(rows)[m.id].parents {
      MetasOnScan(items, rows, m);
    }
    SafeOnTable(MetasOf(items), ShardRows(rows), s);
  }

  /** The rows of the shards in `gone` are deleted, where they are still complete. */
  function Swept(rows: map<Key, Row>, gone: set<ShardId>): map<Key, Row> {
    map k | k in rows && !(k.ShardKey? && k.id in gone && rows[k].completed) :: rows[k]
  }

  method DeleteAll(store: LeaseStore, ids: seq<ShardId>)
    modifies store
    ensures store.rows == Swept(old(store.rows), set s | s in ids)
  {
    for i := 0 to |ids|
      invariant store.rows == Swept(old(store.rows), set s | s in ids[..i])
    {
      assert ids[..i + 1] == ids[..i] + [ids[i]];
      var ok := store.DeleteLease(ShardKey(ids[i]));
    }
    assert ids[..|ids|] == ids;
  }

  ghost function Collectable(rows: map<Key, Row>): set<ShardId> {
    set s | s in ShardRows(rows) && SafeToDelete(ShardRows(rows), s)
  }

  /** Delete what an earlier scan shows to be safe; the sentinel and heartbeats are never touched. */
  method CleanupCompletedLeases(store: LeaseStore, items: seq<Item>, ghost seen: map<Key, Row>)
    requires ScanOf(items, seen)
    modifies store
    ensures store.rows == Swept(old(store.rows), Collectable(seen))
  {
    var metas, state := CollectStates(items);
    var deletable := LeasesSafeToDelete(metas, state);
    DeleteAll(store, deletable);
    assert (set s | s in deletable) == Collectable(seen) by {
      hide Safe, MetasOf, StateMap, ScanOf, ShardRows, StatesOf;
      StatesOnScan(items, seen);
      forall s ensures s in deletable <==> SafeToDelete(ShardRows(seen), s) {
        SafeOnScan(items, seen, s);
      }
    }
  }

  lemma SweepSparesSentinel(rows: map<Key, Row>, gone: set<ShardId>, k: Key)
    requires k in rows && !k.ShardKey?
    ensures k in Swept(rows, gone) && Swept(rows, gone)[k] == rows[k]
  {
  }

  function StateMap(items: seq<Item>): map<ShardId, LeaseState> {
    if items == [] then map[]
    else
      var x := items[|items| - 1];
      var rest := StateMap(items[..|items| - 1]);
      if x.key.ShardKey? then
        rest[x.key.id := LeaseState(x.row.completed, x.row.completed || x.row.checkpoint > 0)]
      else rest
  }

  method CollectStates(items: seq<Item>) returns (metas: seq<ShardMeta>, state: map<ShardId, LeaseState>)
    ensures metas == MetasOf(items) && state == StateMap(items)
  {
    metas, state := [], map[];
    for i := 0 to |items|
      invariant metas == MetasOf(items[..i]) && state == StateMap(items[..i])
    {
      assert items[..i + 1][..i] == items[..i];
      var x := items[i];
      if x.key.ShardKey? {
        metas := metas + [ShardMeta(x.key.id, x.row.parents)];
        state := state[x.key.id := LeaseState(x.row.completed, x.row.completed || x.row.checkpoint > 0)];
      }
    }
    assert items[..|items|] == items;
  }

  lemma {:induction false} StateMapMeans(items: seq<Item>)
    requires forall i, j :: 0 <= i < j < |items| ==> items[i].key != items[j].key
    ensures forall s :: s in StateMap(items) <==> exists x :: x in items && x.key == ShardKey(s)
    ensures forall x :: x in items && x.key.ShardKey? ==>
      x.key.id in StateMap(items) &&
      StateMap(items)[x.key.id] == LeaseState(x.row.completed, x.row.completed || x.row.checkpoint > 0)
    decreases |items|
  {
    if items != [] {
      assert items == items[..|items| - 1] + [items[|items| - 1]];
      StateMapMeans(items[..|items| - 1]);
    }
  }

  lemma StatesOnScan(items: seq<Item>, rows: map<Key, Row>)
    requires ScanOf(items, rows)
    ensures StateMap(items) == StatesOf(ShardRows(rows))
  {
    StateMapMeans(items);
    var table := ShardRows(rows);
    forall s | s in table ensures s in StateMap(items) && StateMap(items)[s] == StatesOf(table)[s] {
      var x :| x in items && x.key == ShardKey(s);
    }
  }

  // ---- Nobody notices ----------------------------------------------------------------

  /** The test that ends a cycle early: there are shards, and all are complete. */
  ghost predicate AllComplete(rows: map<ShardId, Row>) {
    rows != map[] && forall s :: s in rows ==> rows[s].completed
  }

  /** `rank` orders the lineage: a parent with a row ranks below its children. */
  ghost predicate Ranked(rows: map<ShardId, Row>, rank: map<ShardId, nat>) {
    rows.Keys <= rank.Keys && forall c, p :: c in rows && p in rows[c].parents && p in rows ==> rank[p] < rank[c]
  }

  /** Deleting one after another. */
  function DeletedAll(rows: map<ShardId, Row>, gone: seq<ShardId>): map<ShardId, Row> {
    if gone == [] then rows else Deleted(DeletedAll(rows, gone[..|gone| - 1]), gone[|gone| - 1])
  }

  lemma {:induction false} DeletedAllRows(rows: map<ShardId, Row>, gone: seq<ShardId>)
    ensures DeletedAll(rows, gone) == map s | s in rows && !(s in gone && rows[s].completed) :: rows[s]
    decreases |gone|
  {
    if gone != [] {
      assert gone == gone[..|gone| - 1] + [gone[|gone| - 1]];
      DeletedAllRows(rows, gone[..|gone| - 1]);
    }
  }

  lemma TopRow(rows: map<ShardId, Row>, rank: map<ShardId, nat>, left: set<ShardId>) returns (top: ShardId)
    requires left <= rows.Keys <= rank.Keys && left != {}
    ensures top in left && forall s :: s in left ==> rank[s] <= rank[top]
    decreases |left|
  {
    top :| top in left;
    if left != {top} {
      var best := TopRow(rows, rank, left - {top});
      if rank[best] > rank[top] {
        top := best;
      }
    }
  }

  /**
   Collection is transparent: deleting any of the safe rows, in any order, changes no other
   row, nor which remaining shard is eligible, nor, while rows are left, whether all are complete.
   */
  lemma CollectionIsTransparent(rows: map<ShardId, Row>, gone: seq<ShardId>)
    requires forall s :: s in gone ==> SafeToDelete(rows, s)
    ensures var left := DeletedAll(rows, gone);
            && left.Keys == rows.Keys - (set s | s in gone)
            && (forall s :: s in left ==> left[s] == rows[s] && Eligible(left, s) == Eligible(rows, s))
            && (left != map[] ==> AllComplete(left) == AllComplete(rows))
  {
    DeletedAllRows(rows, gone);
    var left := DeletedAll(rows, gone);
    assert left != map[] ==> AllComplete(left) == AllComplete(rows) by {
      forall s | s in rows && s !in left ensures rows[s].completed {}
      if left != map[] {
        var s :| s in left;
        assert s in rows;
      }
    }
  }

  lemma CollectionNeverEmpties(rows: map<ShardId, Row>, gone: seq<ShardId>, rank: map<ShardId, nat>)
    requires forall s :: s in gone ==> SafeToDelete(rows, s)
    requires Ranked(rows, rank) && rows != map[]
    ensures DeletedAll(rows, gone) != map[]
  {
    DeletedAllRows(rows, gone);
    var any :| any in rows;
    var top := TopRow(rows, rank, rows.Keys);
    assert !SafeToDelete(rows, top) by {
      forall c ensures !IsChild(rows, top, c) {}
    }
    assert top in DeletedAll(rows, gone);
  }

  ghost predicate AllSafe(rows: map<ShardId, Row>, gone: seq<ShardId>) {
    forall s :: s in gone ==> SafeToDelete(rows, s)
  }

  ghost predicate IsNamed(rows: map<ShardId, Row>, s: ShardId) {
    exists c :: c in rows && IsChild(rows, s, c)
  }

  /** Every row is complete and some row names it as a parent. */
  ghost predicate Exhausted(rows: map<ShardId, Row>) {
    forall s :: s in rows ==> rows[s].completed && IsNamed(rows, s)
  }

  lemma {:induction false} InSomeOrder(ids: set<ShardId>) returns (list: seq<ShardId>)
    ensures forall s :: s in list <==> s in ids
    decreases |ids|
  {
    if ids == {} {
      list := [];
    } else {
      var s :| s in ids;
      var rest := InSomeOrder(ids - {s});
      list := rest + [s];
    }
  }

  lemma NamedIsSafe(rows: map<ShardId, Row>, s: ShardId)
    requires s in rows && IsNamed(rows, s) && forall t :: t in rows ==> rows[t].completed
    ensures SafeToDelete(rows, s)
  {
  }

  lemma ExhaustedGoes(rows: map<ShardId, Row>) returns (gone: seq<ShardId>)
    requires Exhausted(rows)
    ensures AllSafe(rows, gone) && DeletedAll(rows, gone) == map[]
  {
    hide DeletedAll, IsNamed, SafeToDelete;
    gone := InSomeOrder(rows.Keys);
    DeletedAllRows(rows, gone);
    forall s | s in gone ensures SafeToDelete(rows, s) {
      NamedIsSafe(rows, s);
    }
  }

  lemma OnlyExhaustedGoes(rows: map<ShardId, Row>, gone: seq<ShardId>)
    requires AllSafe(rows, gone) && DeletedAll(rows, gone) == map[]
    ensures Exhausted(rows)
  {
    hide DeletedAll;
    DeletedAllRows(rows, gone);
    forall s | s in rows ensures rows[s].completed && IsNamed(rows, s) {
      assert s !in DeletedAll(rows, gone);
      assert SafeToDelete(rows, s);
    }
  }

  /**
   The selection rule alone: some list of safe rows empties the table if and only if every
   row is complete and is named as a parent by some row. That takes a cycle of parents.
   */
  lemma EmptiesExactly(rows: map<ShardId, Row>)
    ensures (exists gone :: AllSafe(rows, gone) && DeletedAll(rows, gone) == map[]) <==> Exhausted(rows)
  {
    hide AllSafe, DeletedAll, Exhausted;
    if Exhausted(rows) {
      var gone := ExhaustedGoes(rows);
    }
    forall gone | AllSafe(rows, gone) && DeletedAll(rows, gone) == map[] ensures Exhausted(rows) {
      OnlyExhaustedGoes(rows, gone);
    }
  }

  /** Two completed shards that name each other are such a table. */
  lemma CyclicLineageEmpties()
    ensures Exhausted(map[1 := Row(None, 0, 0, true, [2]), 2 := Row(None, 0, 0, true, [1])])
  {
    var rows: map<ShardId, Row> := map[1 := Row(None, 0, 0, true, [2]), 2 := Row(None, 0, 0, true, [1])];
    assert IsChild(rows, 1, 2) && IsChild(rows, 2, 1);
  }
}
