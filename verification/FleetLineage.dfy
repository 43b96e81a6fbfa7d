/**
 The lease table over fleet runs is never emptied: a row that names a parent was published
 as the child of that parent, so the shards at the end of the lineage have no child row and
 are never collected.
 */
module FleetLineage {
  import opened Types
  import opened LeaseTable
  import opened Fleet
  import opened FleetFrames
  import opened FleetSafety

  /** The rows a worker last scanned. */
  function Scan(stage: Stage): map<ShardId, Row> {
    match stage
    case Leading(rows) => rows
    case Claiming(rows, _) => rows
    case Running(rows, _, _) => rows
    case _ => map[]
  }

  predicate ChildOf(config: Config, c: ShardId, p: ShardId) {
    c in config.parent && config.parent[c] == Some(p)
  }

  /** Rows name only true parents. */
  ghost predicate Lineal(config: Config, rows: map<ShardId, Row>) {
    forall c, p :: c in rows && p in rows[c].parents ==> ChildOf(config, c, p)
  }

  ghost predicate LinealFleet(st: State) {
    && Lineal(st.config, st.table)
    && forall w: Worker :: Lineal(st.config, Scan(At(st, w).stage))
  }

  /** A step of the fleet writes rows that are there, publishes, re-creates or collects. */
  ghost predicate SameLineage(rows: map<ShardId, Row>, rows': map<ShardId, Row>) {
    forall s :: SameParents(rows, rows', s)
  }

  predicate SameParents(rows: map<ShardId, Row>, rows': map<ShardId, Row>, s: ShardId) {
    (s in rows' <==> s in rows) && (s in rows ==> rows'[s].parents == rows[s].parents)
  }

  lemma PassesKeepLineage(st: State, a: Action)
    requires OfPass(a) && Enabled(st, a)
    ensures SameLineage(st.table, Apply(st, a).table)
    ensures Apply(st, a).published == st.published && Apply(st, a).config == st.config
  {
    hide Enabled, Apply;
    PassFramed(st, a);
    forall s ensures SameParents(st.table, Apply(st, a).table, s) {
      assert s != a.s ==> SameRow(st.table, Apply(st, a).table, s);
    }
  }

  lemma TurnsKeepLineage(st: State, a: Action)
    requires !OfPass(a) && !a.Publish? && !a.Collect? && !a.AcquireCreate? && Enabled(st, a)
    ensures SameLineage(st.table, Apply(st, a).table)
    ensures Apply(st, a).published == st.published && Apply(st, a).config == st.config
  {
  }

  /** Scans are copies of the table. */
  lemma ScansAreCopies(st: State, a: Action, v: Worker)
    requires Enabled(st, a)
    ensures var rows := Scan(At(Apply(st, a), v).stage);
            rows == Scan(At(st, v).stage) || rows == st.table || rows == map[]
  {
    if OfPass(a) {
      PassScans(st, a, v);
    }
  }

  lemma PassScans(st: State, a: Action, v: Worker)
    requires OfPass(a) && Enabled(st, a)
    ensures Scan(At(Apply(st, a), v).stage) == Scan(At(st, v).stage)
  {
    PassFramed(st, a);
    if a.StartPass? && v == a.w {
      assert At(Started(st, a.w, a.s), v).stage == At(st, v).stage.(started := At(st, v).stage.started + {a.s});
    }
    hide Enabled, Apply;
  }

  lemma RowsStayLineal(st: State, a: Action)
    requires Lineal(st.config, st.table) && Enabled(st, a)
    ensures Apply(st, a).config == st.config && Lineal(st.config, Apply(st, a).table)
  {
    if !a.Publish? && !a.Collect? && !a.AcquireCreate? {
      if OfPass(a) { PassesKeepLineage(st, a); } else { TurnsKeepLineage(st, a); }
      hide Enabled, Apply;
      forall c, p | c in Apply(st, a).table && p in Apply(st, a).table[c].parents ensures ChildOf(st.config, c, p) {
        assert SameParents(st.table, Apply(st, a).table, c);
      }
    }
  }

  lemma StepKeepsLineal(st: State, a: Action)
    requires LinealFleet(st) && Enabled(st, a)
    ensures LinealFleet(Apply(st, a))
  {
    hide Enabled, Apply, Scan, At;
    RowsStayLineal(st, a);
    forall v: Worker ensures Lineal(st.config, Scan(At(Apply(st, a), v).stage)) {
      assert Lineal(st.config, Scan(At(st, v).stage));
      ScansAreCopies(st, a, v);
    }
  }

  // ---- A leaf of what was published --------------------------------------------------

  ghost predicate Childless(st: State, s: ShardId) {
    forall c :: c in st.published ==> !ChildOf(st.config, c, s)
  }

  ghost predicate HasLeaf(st: State) {
    exists s :: s in st.table && Childless(st, s)
  }

  /** A collected row has a published child. */
  lemma CollectedHasChild(st: State, w: Worker, s: ShardId) returns (c: ShardId)
    requires Inv(st) && LinealFleet(st) && Enabled(st, Collect(w, s))
    ensures c in st.published && ChildOf(st.config, c, s)
  {
    var rows := At(st, w).stage.rows;
    assert LocalOk(st, At(st, w)) && Lineal(st.config, Scan(At(st, w).stage));
    c :| c in rows && IsChild(rows, s, c);
    assert RowOk(st, c, rows[c]);
  }

  /** A shard is published before its children: a new one has none. */
  lemma NewIsChildless(st: State, w: Worker, s: ShardId)
    requires Inv(st) && Enabled(st, Publish(w, s)) && s !in st.published
    ensures Childless(Apply(st, Publish(w, s)), s)
  {
    PublishStep(st, w, s);
    var st' := Apply(st, Publish(w, s));
    assert LocalOk(st, At(st, w));
    forall c | c in st'.published ensures !ChildOf(st.config, c, s) {
      assert c in st.published ==> LineageOk(st, c);
    }
  }

  lemma StepKeepsLeaf(st: State, a: Action)
    requires Inv(st) && LinealFleet(st) && Enabled(st, a) && (st.published != {} ==> HasLeaf(st))
    ensures Apply(st, a).published != {} ==> HasLeaf(Apply(st, a))
  {
    hide Inv, LinealFleet;
    var st' := Apply(st, a);
    if a.Publish? && a.s !in st.published {
      NewIsChildless(st, a.w, a.s);
      assert a.s in st'.table && Childless(st', a.s);
    } else if st.published != {} {
      var leaf :| leaf in st.table && Childless(st, leaf);
      if a.Collect? {
        var c := CollectedHasChild(st, a.w, a.s);
        assert a.s != leaf;
      } else if !a.Publish? && !a.AcquireCreate? {
        if OfPass(a) { PassesKeepLineage(st, a); } else { TurnsKeepLineage(st, a); }
        assert SameParents(st.table, st'.table, leaf);
      }
      assert st'.published == st.published && st'.config == st.config;
      assert leaf in st'.table && Childless(st', leaf);
    }
  }

  lemma {:induction false} LeafAlways(st: State, acts: seq<Action>)
    requires Inv(st) && LinealFleet(st) && Runs(st, acts) && (st.published != {} ==> HasLeaf(st))
    ensures LinealFleet(After(st, acts)) && (After(st, acts).published != {} ==> HasLeaf(After(st, acts)))
    decreases |acts|
  {
    if acts != [] {
      hide Inv, LinealFleet, HasLeaf, Enabled, Apply;
      StepKeepsInv(st, acts[0]);
      StepKeepsLineal(st, acts[0]);
      StepKeepsLeaf(st, acts[0]);
      LeafAlways(Apply(st, acts[0]), acts[1..]);
    }
  }

  /**
   Once any shard was published, no state of any run has an empty table: some row has no
   published child, and only a row with a published child is ever collected.
   */
  lemma TableNeverEmpties(st: State, acts: seq<Action>)
    requires Init(st) && Runs(st, acts) && After(st, acts).published != {}
    ensures After(st, acts).table != map[]
  {
    LeafAlways(st, acts);
    var leaf :| leaf in After(st, acts).table && Childless(After(st, acts), leaf);
  }
}
