/**
 The shard graph: built from all discovery pages at once, or grown by merging the children
 of one parent at a time. The two agree exactly when no shard kept earlier was waiting for a
 parent that only the later answer brings.
 */
module ShardGraph {
  import opened Types

  datatype DdbShard = DdbShard(id: ShardId, parent: Option<ShardId>, ending: Option<nat>)

  /** Marks a parent closed by inference; never a position to read from. */
  const CLOSED_BY_SHARD_SYNC: nat := 0

  // ---- Specification -----------------------------------------------------------------

  function Flat(pages: seq<seq<DdbShard>>): seq<DdbShard> {
    if pages == [] then [] else Flat(pages[..|pages| - 1]) + pages[|pages| - 1]
  }

  function IdSet(shards: seq<DdbShard>): set<ShardId> {
    set s | s in shards :: s.id
  }

  /** The shards whose id is neither in `seen` nor listed before, in order. */
  function NewIn(seen: set<ShardId>, shards: seq<DdbShard>): seq<DdbShard> {
    if shards == [] then []
    else
      var front, last := shards[..|shards| - 1], shards[|shards| - 1];
      NewIn(seen, front) + if last.id in seen + IdSet(front) then [] else [last]
  }

  function ParentsOf(s: DdbShard, present: set<ShardId>): seq<ShardId> {
    if s.parent.Some? && s.parent.value in present then [s.parent.value] else []
  }

  function Graph(shards: seq<DdbShard>, present: set<ShardId>): (g: seq<ShardMeta>)
    ensures |g| == |shards|
    ensures forall i :: 0 <= i < |g| ==> g[i] == ShardMeta(shards[i].id, ParentsOf(shards[i], present))
  {
    seq(|shards|, i requires 0 <= i < |shards| => ShardMeta(shards[i].id, ParentsOf(shards[i], present)))
  }

  function Built(shards: seq<DdbShard>): seq<ShardMeta> {
    Graph(NewIn({}, shards), IdSet(shards))
  }

  function MetaIds(g: seq<ShardMeta>): set<ShardId> {
    set m | m in g :: m.id
  }

  function Merged(existing: seq<ShardMeta>, found: seq<DdbShard>): seq<ShardMeta> {
    existing + Graph(NewIn(MetaIds(existing), found), MetaIds(existing) + IdSet(found))
  }

  // ---- Procedures --------------------------------------------------------------------

  lemma NewInStep(seen: set<ShardId>, shards: seq<DdbShard>, i: nat)
    requires i < |shards|
    ensures NewIn(seen, shards[..i + 1]) ==
            NewIn(seen, shards[..i]) + if shards[i].id in seen + IdSet(shards[..i]) then [] else [shards[i]]
    ensures IdSet(shards[..i + 1]) == IdSet(shards[..i]) + {shards[i].id}
  {
    assert shards[..i + 1] == shards[..i] + [shards[i]];
    assert shards[..i + 1][..i] == shards[..i];
  }

  lemma IdSetAppend(a: seq<DdbShard>, b: seq<DdbShard>)
    ensures IdSet(a + b) == IdSet(a) + IdSet(b)
  {
  }

  lemma Associates<T>(a: seq<T>, b: seq<T>, c: seq<T>)
    ensures (a + b) + c == a + (b + c)
  {
  }

  lemma Unites(a: set<ShardId>, b: set<ShardId>, c: set<ShardId>)
    ensures (a + b) + c == a + (b + c)
  {
  }

  lemma NewInLast(seen: set<ShardId>, front: seq<DdbShard>, last: DdbShard)
    ensures NewIn(seen, front + [last]) == NewIn(seen, front) + if last.id in seen + IdSet(front) then [] else [last]
    ensures IdSet(front + [last]) == IdSet(front) + {last.id}
  {
    assert (front + [last])[..|front|] == front;
  }

  lemma {:induction false} NewInAppend(seen: set<ShardId>, a: seq<DdbShard>, b: seq<DdbShard>)
    ensures NewIn(seen, a + b) == NewIn(seen, a) + NewIn(seen + IdSet(a), b)
    decreases |b|
  {
    if b == [] {
      assert a + b == a && NewIn(seen + IdSet(a), b) == [];
    } else {
      hide *;
      var front, last := b[..|b| - 1], b[|b| - 1];
      NewInAppend(seen, a, front);
      assert b == front + [last];
      Associates(a, front, [last]);
      IdSetAppend(a, front);
      Unites(seen, IdSet(a), IdSet(front));
      var more := if last.id in seen + IdSet(a + front) then [] else [last];
      Associates(NewIn(seen, a), NewIn(seen + IdSet(a), front), more);
      NewInLast(seen, a + front, last);
      NewInLast(seen + IdSet(a), front, last);
    }
  }

  lemma FlatStep(pages: seq<seq<DdbShard>>, i: nat)
    requires i < |pages|
    ensures Flat(pages[..i + 1]) == Flat(pages[..i]) + pages[i]
  {
    assert pages[..i + 1][..i] == pages[..i];
  }

  method BuildShardGraph(pages: seq<seq<DdbShard>>) returns (graph: seq<ShardMeta>)
    ensures graph == Built(Flat(pages))
  {
    hide NewIn, IdSet;
    var seen: set<ShardId> := {};
    var shards: seq<DdbShard> := [];
    NewInNone({});
    for i := 0 to |pages|
      invariant seen == IdSet(Flat(pages[..i])) && shards == NewIn({}, Flat(pages[..i]))
    {
      ghost var before := Flat(pages[..i]);
      var page := pages[i];
      NewInNone(IdSet(before));
      for j := 0 to |page|
        invariant seen == IdSet(before) + IdSet(page[..j])
        invariant shards == NewIn({}, before) + NewIn(IdSet(before), page[..j])
      {
        NewInStep(IdSet(before), page, j);
        if page[j].id !in seen {
          seen := seen + {page[j].id};
          shards := shards + [page[j]];
        }
      }
      assert page[..|page|] == page;
      FlatStep(pages, i);
      NewInAppend({}, before, page);
      IdSetAppend(before, page);
      assert {} + IdSet(before) == IdSet(before);
    }
    assert pages[..|pages|] == pages;
    NewInIds({}, Flat(pages));
    graph := Metas(shards);
    assert {} + IdSet(shards) == IdSet(shards) && {} + IdSet(Flat(pages)) == IdSet(Flat(pages));
  }

  lemma NewInNone(seen: set<ShardId>)
    ensures NewIn(seen, []) == [] && IdSet([]) == {}
  {
  }

  method Metas(shards: seq<DdbShard>) returns (graph: seq<ShardMeta>)
    ensures graph == Graph(shards, IdSet(shards))
  {
    var present := set s | s in shards :: s.id;
    graph := [];
    for i := 0 to |shards|
      invariant graph == Graph(shards[..i], present)
    {
      graph := graph + [ShardMeta(shards[i].id, ParentsOf(shards[i], present))];
    }
    assert shards[..|shards|] == shards;
  }

  method MergeChildShards(existing: seq<ShardMeta>, discovered: seq<DdbShard>) returns (out: seq<ShardMeta>)
    ensures out == Merged(existing, discovered)
  {
    var seen := MetaIds(existing);
    var present := seen + IdSet(discovered);
    ghost var ids := seen;
    out := existing;
    for i := 0 to |discovered|
      invariant seen == ids + IdSet(discovered[..i])
      invariant out == existing + Graph(NewIn(ids, discovered[..i]), present)
    {
      NewInStep(ids, discovered, i);
      var s := discovered[i];
      if s.id !in seen {
        seen := seen + {s.id};
        out := out + [ShardMeta(s.id, ParentsOf(s, present))];
      }
    }
    assert discovered[..|discovered|] == discovered;
  }

  /** Close, in place, every open shard that some present shard names as its parent. */
  method CloseOpenParents(shards: array<DdbShard>)
    modifies shards
    ensures forall i :: 0 <= i < shards.Length ==> shards[i] == Closed(old(shards[..]), old(shards[i]))
  {
    ghost var was := shards[..];
    var parents: set<ShardId> := {};
    for i := 0 to shards.Length
      invariant parents == ParentIds(was[..i]) && shards[..] == was
    {
      assert was[..i + 1] == was[..i] + [was[i]];
      if shards[i].parent.Some? {
        parents := parents + {shards[i].parent.value};
      }
    }
    assert was[..|was|] == was;
    for i := 0 to shards.Length
      invariant forall j :: 0 <= j < i ==> shards[j] == Closed(was, was[j])
      invariant forall j :: i <= j < shards.Length ==> shards[j] == was[j]
    {
      if shards[i].ending.None? && shards[i].id in parents {
        shards[i] := shards[i].(ending := Some(CLOSED_BY_SHARD_SYNC));
      }
    }
  }

  function ParentIds(shards: seq<DdbShard>): set<ShardId> {
    set s | s in shards && s.parent.Some? :: s.parent.value
  }

  function Closed(shards: seq<DdbShard>, s: DdbShard): DdbShard {
    if s.ending.None? && s.id in ParentIds(shards) then s.(ending := Some(CLOSED_BY_SHARD_SYNC)) else s
  }

  /** Afterwards no open shard has a child, and nothing but endings has changed. */
  lemma ClosingSettles(shards: seq<DdbShard>, after: seq<DdbShard>)
    requires |after| == |shards| && forall i :: 0 <= i < |shards| ==> after[i] == Closed(shards, shards[i])
    ensures forall s :: s in after && s.ending.None? ==> s.id !in ParentIds(after)
    ensures forall i :: 0 <= i < |shards| ==> after[i].id == shards[i].id && after[i].parent == shards[i].parent
    ensures forall i :: 0 <= i < |shards| ==> after[i].ending.None? ==> shards[i].ending.None?
    ensures forall i :: 0 <= i < |shards| && (forall s :: s in shards ==> s.parent != Some(shards[i].id)) ==>
      after[i] == shards[i]
    ensures forall i :: 0 <= i < |shards| ==>
      after[i].ending == shards[i].ending || (shards[i].ending.None? && after[i].ending == Some(CLOSED_BY_SHARD_SYNC))
    ensures forall i :: 0 <= i < |shards| ==> Closed(after, after[i]) == after[i]
  {
    assert ParentIds(after) == ParentIds(shards) by {
      forall p | p in ParentIds(shards) ensures p in ParentIds(after) {
        var i :| 0 <= i < |shards| && shards[i].parent == Some(p);
        assert after[i] in after;
      }
      forall p | p in ParentIds(after) ensures p in ParentIds(shards) {
        var i :| 0 <= i < |after| && after[i].parent == Some(p);
        assert shards[i] in shards;
      }
    }
  }

  // ---- Well-formed graphs ------------------------------------------------------------

  predicate DistinctIds(shards: seq<DdbShard>) {
    forall i, j :: 0 <= i < j < |shards| ==> shards[i].id != shards[j].id
  }

  lemma DistinctPush(shards: seq<DdbShard>, s: DdbShard)
    requires DistinctIds(shards) && s.id !in IdSet(shards)
    ensures DistinctIds(shards + [s])
  {
    forall i | 0 <= i < |shards| ensures shards[i].id in IdSet(shards) {
      assert shards[i] in shards;
    }
  }

  lemma {:induction false} NewInIds(seen: set<ShardId>, shards: seq<DdbShard>)
    ensures seen + IdSet(NewIn(seen, shards)) == seen + IdSet(shards) && IdSet(NewIn(seen, shards)) !! seen
    ensures DistinctIds(NewIn(seen, shards))
    decreases |shards|
  {
    if shards != [] {
      hide *;
      var front, last := shards[..|shards| - 1], shards[|shards| - 1];
      NewInIds(seen, front);
      assert shards == front + [last];
      NewInLast(seen, front, last);
      var kept := NewIn(seen, front);
      if last.id !in seen + IdSet(front) {
        DistinctPush(kept, last);
        IdSetLast(kept, last);
      } else {
        assert kept + [] == kept;
      }
    }
  }

  lemma IdSetLast(shards: seq<DdbShard>, s: DdbShard)
    ensures IdSet(shards + [s]) == IdSet(shards) + {s.id}
  {
  }

  /** Ids are distinct, every listed parent is in the graph, and every shard seen is there. */
  lemma BuiltIsWellFormed(pages: seq<seq<DdbShard>>)
    ensures var g := Built(Flat(pages));
            && (forall i, j :: 0 <= i < j < |g| ==> g[i].id != g[j].id)
            && (forall m, p :: m in g && p in m.parents ==> p in MetaIds(g))
            && MetaIds(g) == IdSet(Flat(pages))
  {
    NewInIds({}, Flat(pages));
    GraphIds(NewIn({}, Flat(pages)), IdSet(Flat(pages)));
  }

  lemma GraphIds(shards: seq<DdbShard>, present: set<ShardId>)
    ensures MetaIds(Graph(shards, present)) == IdSet(shards)
  {
    var g := Graph(shards, present);
    forall s | s in shards ensures s.id in MetaIds(g) {
      var i :| 0 <= i < |shards| && shards[i] == s;
      assert g[i] in g;
    }
    forall m | m in g ensures m.id in IdSet(shards) {
      var i :| 0 <= i < |g| && g[i] == m;
      assert shards[i] in shards;
    }
  }

  /** Page boundaries play no part: pages with the same shards in the same order give the same graph. */
  lemma {:induction false} FlatAppend(a: seq<seq<DdbShard>>, b: seq<seq<DdbShard>>)
    ensures Flat(a + b) == Flat(a) + Flat(b)
    decreases |b|
  {
    if b == [] {
      assert a + b == a;
    } else {
      assert (a + b)[..|a + b| - 1] == a + b[..|b| - 1];
      FlatAppend(a, b[..|b| - 1]);
    }
  }

  lemma PagesDoNotMatter(a: seq<seq<DdbShard>>, left: seq<DdbShard>, right: seq<DdbShard>, b: seq<seq<DdbShard>>)
    ensures Built(Flat(a + [left, right] + b)) == Built(Flat(a + [left + right] + b))
  {
    FlatAppend(a + [left, right], b);
    FlatAppend(a + [left + right], b);
    FlatAppend(a, [left, right]);
    FlatAppend(a, [left + right]);
    assert [left, right][..1] == [left] && [left][..0] == [] && [left + right][..0] == [];
    assert Flat([left, right]) == left + right;
    assert Flat([left + right]) == left + right;
  }

  // ---- Growing equals rebuilding -----------------------------------------------------

  /** A kept shard waits for a parent that was missing so far and is in the new answer. */
  predicate LateParent(s: DdbShard, before: set<ShardId>, found: set<ShardId>) {
    s.parent.Some? && s.parent.value !in before && s.parent.value in found
  }

  lemma GraphAppend(a: seq<DdbShard>, b: seq<DdbShard>, present: set<ShardId>)
    ensures Graph(a + b, present) == Graph(a, present) + Graph(b, present)
  {
  }

  /** A rebuild keeps what was kept before, then what is new in the last answer. */
  lemma RebuildSplits(pages: seq<seq<DdbShard>>, found: seq<DdbShard>, ids: set<ShardId>, more: set<ShardId>)
    requires ids == IdSet(Flat(pages)) && more == IdSet(found)
    ensures Built(Flat(pages + [found])) ==
            Graph(NewIn({}, Flat(pages)), ids + more) + Graph(NewIn(ids, found), ids + more)
  {
    hide IdSet, NewIn, Graph;
    FlatAppend(pages, [found]);
    assert [found][..0] == [] && Flat([found]) == found;
    NewInAppend({}, Flat(pages), found);
    IdSetAppend(Flat(pages), found);
    assert {} + ids == ids;
    GraphAppend(NewIn({}, Flat(pages)), NewIn(ids, found), ids + more);
  }

  lemma MergeSplits(pages: seq<seq<DdbShard>>, found: seq<DdbShard>, ids: set<ShardId>, more: set<ShardId>)
    requires ids == IdSet(Flat(pages)) && more == IdSet(found)
    ensures Merged(Built(Flat(pages)), found) ==
            Graph(NewIn({}, Flat(pages)), ids) + Graph(NewIn(ids, found), ids + more)
  {
    hide NewIn, Graph, IdSet;
    NewInIds({}, Flat(pages));
    GraphIds(NewIn({}, Flat(pages)), ids);
    assert {} + IdSet(NewIn({}, Flat(pages))) == IdSet(NewIn({}, Flat(pages))) && {} + ids == ids;
  }

  lemma SameFront<T>(a: seq<T>, b: seq<T>, c: seq<T>)
    requires |a| == |b|
    ensures a + c == b + c <==> a == b
  {
    if a + c == b + c {
      assert (a + c)[..|a|] == a && (b + c)[..|b|] == b;
    }
  }

  /**
   Merging a new answer gives what a rebuild over all answers gives, exactly when no shard
   kept so far has a late parent.
   */
  lemma MergeEqualsRebuild(pages: seq<seq<DdbShard>>, found: seq<DdbShard>)
    ensures Merged(Built(Flat(pages)), found) == Built(Flat(pages + [found]))
            <==> forall s :: s in NewIn({}, Flat(pages)) ==> !LateParent(s, IdSet(Flat(pages)), IdSet(found))
  {
    hide *;
    var ids, more, kept := IdSet(Flat(pages)), IdSet(found), NewIn({}, Flat(pages));
    RebuildSplits(pages, found, ids, more);
    MergeSplits(pages, found, ids, more);
    SameGraph(kept, ids, more);
    SameFront(Graph(kept, ids), Graph(kept, ids + more), Graph(NewIn(ids, found), ids + more));
  }

  lemma SameGraph(kept: seq<DdbShard>, ids: set<ShardId>, more: set<ShardId>)
    ensures Graph(kept, ids) == Graph(kept, ids + more) <==> forall s :: s in kept ==> !LateParent(s, ids, more)
  {
    if s :| s in kept && LateParent(s, ids, more) {
      var i :| 0 <= i < |kept| && kept[i] == s;
      assert Graph(kept, ids)[i].parents == [] && Graph(kept, ids + more)[i].parents != [];
    } else {
      forall i | 0 <= i < |kept| ensures ParentsOf(kept[i], ids) == ParentsOf(kept[i], ids + more) {
        assert kept[i] in kept;
      }
      assert Graph(kept, ids) == Graph(kept, ids + more);
    }
  }

  // ---- What the lists mean -----------------------------------------------------------

  /** Where a shard is listed first. */
  function FirstAt(shards: seq<DdbShard>, id: ShardId): (i: nat)
    requires id in IdSet(shards)
    ensures i < |shards| && shards[i].id == id && forall j :: 0 <= j < i ==> shards[j].id != id
  {
    if shards[0].id == id then 0
    else
      assert shards == [shards[0]] + shards[1..];
      1 + FirstAt(shards[1..], id)
  }

  lemma FirstStays(front: seq<DdbShard>, last: DdbShard, id: ShardId)
    requires id in IdSet(front)
    ensures id in IdSet(front + [last]) && FirstAt(front + [last], id) == FirstAt(front, id)
  {
    var all := front + [last];
    assert all[FirstAt(front, id)] in all;
    forall j | 0 <= j < FirstAt(front, id) ensures all[j].id != id {
      assert all[j] == front[j];
    }
  }

  lemma FirstIsLast(front: seq<DdbShard>, last: DdbShard)
    requires last.id !in IdSet(front)
    ensures last.id in IdSet(front + [last]) && FirstAt(front + [last], last.id) == |front|
  {
    assert last in front + [last];
    forall j | 0 <= j < |front| ensures front[j].id != last.id {
      assert front[j] in front;
    }
  }

  /** A shard kept is the first listed of its id. */
  ghost predicate KeptFirst(seen: set<ShardId>, shards: seq<DdbShard>, k: DdbShard) {
    k.id !in seen && k.id in IdSet(shards) && k == shards[FirstAt(shards, k.id)]
  }

  /** `a` is listed before `b`. */
  ghost predicate Sooner(shards: seq<DdbShard>, a: ShardId, b: ShardId) {
    a in IdSet(shards) && b in IdSet(shards) && FirstAt(shards, a) < FirstAt(shards, b)
  }

  /** What is kept of a list: of each new id the first shard, in the order of the list. */
  lemma {:induction false} NewInMeans(seen: set<ShardId>, shards: seq<DdbShard>)
    ensures forall i :: 0 <= i < |NewIn(seen, shards)| ==> KeptFirst(seen, shards, NewIn(seen, shards)[i])
    ensures forall i, j :: 0 <= i < j < |NewIn(seen, shards)| ==>
      Sooner(shards, NewIn(seen, shards)[i].id, NewIn(seen, shards)[j].id)
    decreases |shards|
  {
    if shards != [] {
      var front, last := shards[..|shards| - 1], shards[|shards| - 1];
      assert shards == front + [last];
      NewInMeans(seen, front);
      NewInLast(seen, front, last);
      var before := NewIn(seen, front);
      hide NewIn, IdSet;
      forall i | 0 <= i < |before| ensures KeptFirst(seen, shards, before[i]) && FirstAt(shards, before[i].id) < |front| {
        assert KeptFirst(seen, front, before[i]);
        FirstStays(front, last, before[i].id);
      }
      if last.id !in seen + IdSet(front) {
        FirstIsLast(front, last);
      }
      forall i, j | 0 <= i < j < |before|
        ensures Sooner(shards, before[i].id, before[j].id)
      {
        assert KeptFirst(seen, front, before[i]) && KeptFirst(seen, front, before[j]);
        FirstStays(front, last, before[i].id);
        FirstStays(front, last, before[j].id);
      }
    }
  }

  predicate ListedIn(shards: seq<DdbShard>, id: ShardId) {
    exists s :: s in shards && s.id == id
  }

  /**
   The graph in plain words: each shard is listed once, in the order of its first appearance,
   with the parent its first appearance names if any page lists that parent, and else with none.
   */
  lemma BuiltMeans(pages: seq<seq<DdbShard>>, i: nat)
    requires i < |Built(Flat(pages))|
    ensures var all, m := Flat(pages), Built(Flat(pages))[i];
            && m.id in IdSet(all)
            && m.parents == (match all[FirstAt(all, m.id)].parent
                             case None => []
                             case Some(p) => if ListedIn(all, p) then [p] else [])
            && forall j :: 0 <= j < i ==> Sooner(all, Built(all)[j].id, m.id)
  {
    var all := Flat(pages);
    NewInMeans({}, all);
    hide NewIn;
    var kept := NewIn({}, all);
    assert forall j :: 0 <= j <= i ==> KeptFirst({}, all, kept[j]) && Built(all)[j].id == kept[j].id;
  }

  /** Merging keeps what is there and adds each new shard once, with its parent if that is known or answered. */
  lemma MergedMeans(existing: seq<ShardMeta>, found: seq<DdbShard>, i: nat)
    requires |existing| <= i < |Merged(existing, found)|
    ensures existing <= Merged(existing, found)
    ensures var m := Merged(existing, found)[i];
            && m.id in IdSet(found) && m.id !in MetaIds(existing)
            && m.parents == (match found[FirstAt(found, m.id)].parent
                             case None => []
                             case Some(p) => if p in MetaIds(existing) || ListedIn(found, p) then [p] else [])
            && forall j :: |existing| <= j < i ==> Sooner(found, Merged(existing, found)[j].id, m.id)
  {
    var ids := MetaIds(existing);
    NewInMeans(ids, found);
    hide NewIn;
    var kept := NewIn(ids, found);
    assert forall j :: 0 <= j <= i - |existing| ==> KeptFirst(ids, found, kept[j]);
    assert forall j :: |existing| <= j <= i ==> Merged(existing, found)[j].id == kept[j - |existing|].id;
  }

  lemma MergedIds(existing: seq<ShardMeta>, found: seq<DdbShard>)
    ensures MetaIds(Merged(existing, found)) == MetaIds(existing) + IdSet(found)
  {
    var ids := MetaIds(existing);
    NewInIds(ids, found);
    GraphIds(NewIn(ids, found), ids + IdSet(found));
    MetaIdsAppend(existing, Graph(NewIn(ids, found), ids + IdSet(found)));
  }

  lemma MetaIdsAppend(a: seq<ShardMeta>, b: seq<ShardMeta>)
    ensures MetaIds(a + b) == MetaIds(a) + MetaIds(b)
  {
  }
}
