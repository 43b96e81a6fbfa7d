/**
 The parent gate on its own, for lineage of any shape: which shards it lets run, in which
 orders shards can then complete, and that acyclic lineage never gets stuck on it.
 */
module ParentGate {
  import opened Types
  import opened LeaseTable
  import opened Fleet
  import opened Cleanup

  /** No shard is complete while a parent that has a row is not. */
  ghost predicate ParentsFirst(rows: map<ShardId, Row>) {
    forall c, p :: c in rows && rows[c].completed && p in rows[c].parents && p in rows ==> rows[p].completed
  }

  function Finish(rows: map<ShardId, Row>, s: ShardId): map<ShardId, Row>
    requires s in rows
  {
    rows[s := rows[s].(completed := true)]
  }

  /**
   The gate is exact: an incomplete shard that is not its own parent may run if and only if
   its completion would come after those of its parents.
   */
  lemma GateExactly(rows: map<ShardId, Row>, s: ShardId)
    requires ParentsFirst(rows) && s in rows && !rows[s].completed && s !in rows[s].parents
    ensures Eligible(rows, s) <==> ParentsFirst(Finish(rows, s))
  {
    if !Eligible(rows, s) {
      var p :| p in rows[s].parents && p in rows && !rows[p].completed;
      assert !Finish(rows, s)[p].completed && s in Finish(rows, s);
    }
  }

  /** Shards complete one after another, each let through by the gate at its turn. */
  ghost predicate Gated(rows: map<ShardId, Row>, order: seq<ShardId>)
    decreases |order|
  {
    order == [] || (Eligible(rows, order[0]) && Gated(Finish(rows, order[0]), order[1..]))
  }

  ghost function Finished(rows: map<ShardId, Row>, order: seq<ShardId>): map<ShardId, Row>
    requires Gated(rows, order)
    decreases |order|
  {
    if order == [] then rows else Finished(Finish(rows, order[0]), order[1..])
  }

  /** However many shards complete, and in whatever order the gate admits, parents come first. */
  lemma {:induction false} GateKeepsOrder(rows: map<ShardId, Row>, order: seq<ShardId>)
    requires ParentsFirst(rows) && Gated(rows, order)
    ensures ParentsFirst(Finished(rows, order))
    decreases |order|
  {
    if order != [] {
      GateKeepsOrder(Finish(rows, order[0]), order[1..]);
    }
  }

  function Incomplete(rows: map<ShardId, Row>): set<ShardId> {
    set s | s in rows && !rows[s].completed
  }

  lemma {:induction false} Lowest(left: set<ShardId>, rank: map<ShardId, nat>) returns (s: ShardId)
    requires left != {} && left <= rank.Keys
    ensures s in left && forall t :: t in left ==> rank[s] <= rank[t]
    decreases |left|
  {
    s :| s in left;
    if left != {s} {
      var t := Lowest(left - {s}, rank);
      s := if rank[t] < rank[s] then t else s;
    }
  }

  /** On ranked lineage some incomplete shard passes, as long as there is one. */
  lemma SomeonePasses(rows: map<ShardId, Row>, rank: map<ShardId, nat>) returns (s: ShardId)
    requires Ranked(rows, rank) && Incomplete(rows) != {}
    ensures Eligible(rows, s)
  {
    s := Lowest(Incomplete(rows), rank);
    forall p | p in rows[s].parents && p in rows ensures rows[p].completed {
      assert !rows[p].completed ==> p in Incomplete(rows);
    }
  }

  /** So the gate can always be worked through to the end, each incomplete shard once. */
  lemma {:induction false} GateDrains(rows: map<ShardId, Row>, rank: map<ShardId, nat>) returns (order: seq<ShardId>)
    requires Ranked(rows, rank)
    ensures Gated(rows, order) && Incomplete(Finished(rows, order)) == {} && |order| == |Incomplete(rows)|
    decreases |Incomplete(rows)|
  {
    if Incomplete(rows) == {} {
      order := [];
    } else {
      var s := SomeonePasses(rows, rank);
      assert Incomplete(Finish(rows, s)) == Incomplete(rows) - {s};
      var rest := GateDrains(Finish(rows, s), rank);
      order := [s] + rest;
      assert order[1..] == rest;
    }
  }
}
