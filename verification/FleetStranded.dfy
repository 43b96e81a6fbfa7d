/**
 A run in which a child is stranded: its create is refused, its sibling makes progress, and
 the parent's row is collected; and how a full describe then brings back the parent instead.
 The run is put together from small pieces, each of which says what it leaves of the office:
 who is resting, which rows there are and what the leader remembers.
 */
module FleetStranded {
  import opened Types
  import opened LeaseTable
  import opened Fleet
  import opened FleetFrames
  import opened FleetGuard
  import opened FleetLineage
  import opened FleetWitness
  import opened FleetLeader

  ghost predicate Leads(o: Office, moves: seq<Move>, e: Office) {
    Goes(o, moves) && Ends(o, moves) == e
  }

  lemma {:induction false} LeadsOn(o: Office, moves: seq<Move>, mid: Office, m: Move)
    requires Leads(o, moves, mid) && Allowed(mid, m)
    ensures Leads(o, moves + [m], Took(mid, m))
    decreases |moves|
  {
    hide Allowed, Took;
    if moves == [] {
      assert moves + [m] == [m] && [m][1..] == [];
      assert Leads(Took(o, m), [], Took(o, m));
    } else {
      LeadsOn(Took(o, moves[0]), moves[1..], mid, m);
      assert (moves + [m])[0] == moves[0];
      assert (moves + [m])[1..] == moves[1..] + [m];
    }
  }

  /** Between errands a quiet run of the fleet is a run of the office. */
  lemma {:induction false} QuietRun(start: Office, moves: seq<Move>, o: Office, acts: seq<Action>, st': State)
    returns (more: seq<Move>, e: Office)
    requires Leads(start, moves, o) && o.errand.None? && Reaches(o.st, acts, st') && Quiet(acts)
    ensures Leads(start, more, e) && e == o.(st := st', ended := e.ended)
    decreases |acts|
  {
    hide Leads, Enabled, Apply;
    if acts == [] {
      more, e := moves, o;
    } else {
      var a := acts[0];
      assert a in acts;
      assert forall x :: x in acts[1..] ==> x in acts;
      LeadsOn(start, moves, o, Act(a));
      more, e := QuietRun(start, moves + [Act(a)], Acted(o, a), acts[1..], st');
    }
  }

  /** A shard the leader may claim and drain: its row is there, its parents are complete, its log is empty. */
  predicate EasyShard(st: State, s: ShardId) {
    && s in st.table && !st.table[s].completed && s in st.logs && st.logs[s].len == 0
    && forall p :: p in st.table[s].parents ==> p in st.table && st.table[p].completed
  }

  function DrainedRow(row: Row, w: Worker): Row {
    row.(owner := Some(w), counter := row.counter + 1, completed := true)
  }

  /** The pass over an empty log that has ended. */
  lemma EmptyPass(st: State, w: Worker, s: ShardId) returns (st': State, acts: seq<Action>)
    requires Enabled(st, StartPass(w, s)) && At(st, w).passes == map[] && At(st, w).pending == map[]
    requires At(st, w).stage.rows == st.table && s in st.logs && st.logs[s].len == 0 && st.table[s].checkpoint == 0
    ensures Reaches(st, acts, st') && Quiet(acts) && st'.config == st.config && st'.published == st.published
    ensures st'.table == st.table[s := st.table[s].(completed := true)]
    ensures At(st', w) == Local(Idle, map[], map[])
    ensures st'.logs == st.logs[s := Log(0, true)]
  {
    hide Reaches;
    ReachNone(st);
    var st1 := Started(st, w, s);
    assert Step(st, StartPass(w, s), st1);
    Follow(st, [], st, StartPass(w, s), st1);
    acts := [] + [StartPass(w, s)];
    var more;
    st', more := EmptyEnds(st1, w, s);
    ReachOn(st, acts, st1, more, st');
    acts := acts + more;
  }

  lemma EmptyEnds(st: State, w: Worker, s: ShardId) returns (st': State, acts: seq<Action>)
    requires HasPass(st, w, s) && PassOf(st, w, s).phase.Reading? && PassOf(st, w, s).after == 0
    requires At(st, w).passes == map[s := PassOf(st, w, s)] && At(st, w).pending == map[] && At(st, w).stage.Running?
    requires s in st.logs && st.logs[s].len == 0 && Held(st.table, s, w, PassOf(st, w, s).counter)
    ensures Reaches(st, acts, st') && Quiet(acts) && st'.config == st.config && st'.published == st.published
    ensures st'.table == st.table[s := st.table[s].(completed := true)]
    ensures At(st', w) == Local(Idle, map[], map[])
    ensures st'.logs == st.logs[s := Log(0, true)]
  {
    hide Reaches;
    ReachNone(st);
    var p := PassOf(st, w, s);
    var l := At(st, w);
    var st1 := Closed(st, s);
    assert Step(st, Close(s), st1);
    Follow(st, [], st, Close(s), st1);
    acts := [] + [Close(s)];
    var ending := WithPass(l, s, p.(phase := Ending));
    var st2 := Put(st1, w, ending);
    assert Step(st1, Read(w, s, 0, true), st2);
    Follow(st, acts, st1, Read(w, s, 0, true), st2);
    acts := acts + [Read(w, s, 0, true)];
    var completing := WithPass(ending, s, p.(phase := Completing));
    var st3 := Put(st2, w, completing);
    assert Step(st2, SkipFlush(w, s), st3);
    Follow(st, acts, st2, SkipFlush(w, s), st3);
    acts := acts + [SkipFlush(w, s)];
    var more;
    st', more := Completes(st3, w, s);
    ReachOn(st, acts, st3, more, st');
    acts := acts + more;
  }

  lemma Completes(st: State, w: Worker, s: ShardId) returns (st': State, acts: seq<Action>)
    requires HasPass(st, w, s) && PassOf(st, w, s).phase.Completing?
    requires At(st, w).passes == map[s := PassOf(st, w, s)] && At(st, w).pending == map[] && At(st, w).stage.Running?
    requires Held(st.table, s, w, PassOf(st, w, s).counter)
    ensures Reaches(st, acts, st') && Quiet(acts) && st'.config == st.config && st'.published == st.published
    ensures st'.table == st.table[s := st.table[s].(completed := true)]
    ensures At(st', w) == Local(Idle, map[], map[]) && st'.logs == st.logs
  {
    hide Reaches;
    ReachNone(st);
    var st1 := Apply(st, Complete(w, s, Landed));
    assert Step(st, Complete(w, s, Landed), st1);
    Follow(st, [], st, Complete(w, s, Landed), st1);
    acts := [] + [Complete(w, s, Landed)];
    assert At(st1, w) == At(st, w).(passes := map[], pending := map[]);
    st' := Put(st1, w, Local(Idle, map[], map[]));
    assert Step(st1, EndCycle(w), st');
    Follow(st, acts, st1, EndCycle(w), st');
    acts := acts + [EndCycle(w)];
  }

  /** From the leader's desk to the end of its cycle: claim one such shard and drain it. */
  lemma DrainsEasily(st: State, w: Worker, s: ShardId) returns (st': State, acts: seq<Action>)
    requires At(st, w).stage.Leading? && At(st, w).passes == map[] && At(st, w).pending == map[]
    requires EasyShard(st, s) && st.table[s].checkpoint == 0
    ensures Reaches(st, acts, st') && Quiet(acts) && st'.config == st.config && st'.published == st.published
    ensures st'.table == st.table[s := DrainedRow(st.table[s], w)]
    ensures At(st', w) == Local(Idle, map[], map[])
    ensures st'.logs == st.logs[s := Log(0, true)]
  {
    hide Reaches;
    ReachNone(st);
    var st1 := Put(st, w, At(st, w).(stage := Claiming(st.table, None)));
    assert Step(st, ScanForTake(w), st1);
    Follow(st, [], st, ScanForTake(w), st1);
    acts := [] + [ScanForTake(w)];
    var st2, acts2 := Claims(st1, w, s);
    ReachOn(st, acts, st1, acts2, st2);
    var st3, acts3 := Relists(st2, w, s);
    ReachOn(st, acts + acts2, st2, acts3, st3);
    assert At(st3, w).pending.Keys == {} && At(st3, w).pending == map[];
    MayStartChild(st3, w, s);
    hide Enabled;
    var acts4;
    st', acts4 := EmptyPass(st3, w, s);
    ReachOn(st, acts + acts2 + acts3, st3, acts4, st');
    acts := acts + acts2 + acts3 + acts4;
  }

  lemma MayStartChild(st: State, w: Worker, s: ShardId)
    requires At(st, w).stage.Running? && At(st, w).stage.started == {} && At(st, w).stage.rows == st.table
    requires s in st.table && st.table[s].owner == Some(w) && !st.table[s].completed
    requires forall p :: p in st.table[s].parents ==> p in st.table && st.table[p].completed
    ensures Enabled(st, StartPass(w, s))
  {
  }

  // ---- The run -----------------------------------------------------------------------

  /** A root with two children. */
  predicate TwoChildren(config: Config, p: ShardId, c1: ShardId, c2: ShardId) {
    p != c1 && p != c2 && c1 != c2 && config.parent == map[p := None, c1 := Some(p), c2 := Some(p)]
  }

  function NewRow(parents: seq<ShardId>): Row {
    Row(None, 0, 0, false, parents)
  }

  function DoneRow(w: Worker, parents: seq<ShardId>): Row {
    Row(Some(w), 1, 0, true, parents)
  }

  /** Where the run stands: what the leader scanned, the table, and what it remembers. */
  ghost predicate StandsAt(o: Office, e: Office, l: Local, rows: map<ShardId, Row>, published: set<ShardId>) {
    && e.leader == o.leader && e.st.config == o.st.config && e.errand.None?
    && At(e.st, o.leader) == l && e.st.table == rows && e.st.published == published && e.fell == o.fell
  }

  lemma Begins(start: Office, moves: seq<Move>, o: Office) returns (more: seq<Move>, e: Office)
    requires Leads(start, moves, o) && o.errand.None? && At(o.st, o.leader).stage.Idle?
    ensures Leads(start, more, e) && e.errand.None? && e.st == Put(o.st, o.leader, At(o.st, o.leader).(stage := Leading(o.st.table)))
    ensures e == o.(st := e.st, ended := e.ended)
  {
    var a := BeginCycle(o.leader);
    assert Step(o.st, a, Put(o.st, o.leader, At(o.st, o.leader).(stage := Leading(o.st.table))));
    hide Leads;
    LeadsOn(start, moves, o, Act(a));
    more, e := moves + [Act(a)], Acted(o, a);
  }

  /** One create of the errand. */
  lemma Publishes(start: Office, moves: seq<Move>, o: Office, s: ShardId) returns (more: seq<Move>, e: Office)
    requires Leads(start, moves, o) && s in Left(o.errand) && At(o.st, o.leader).stage.Leading?
    requires Discoverable(o.st, At(o.st, o.leader).stage.rows, s) && s !in o.st.table
    ensures Leads(start, more, e)
    ensures e == o.(st := e.st, ended := e.ended, posted := o.posted + [s], errand := Less(o.errand, s))
    ensures e.st == o.st.(table := o.st.table[s := NewRow(ParentList(o.st, s))], published := o.st.published + {s})
  {
    hide Leads;
    var post := Publish(o.leader, s);
    LeadsOn(start, moves, o, Act(post));
    more, e := moves + [Act(post)], Acted(o, post);
  }

  /** The seed: the one root is published. */
  lemma Founds(o: Office, p: ShardId, c1: ShardId, c2: ShardId) returns (moves: seq<Move>, e: Office)
    requires TakesOffice(o) && TwoChildren(o.st.config, p, c1, c2)
    ensures Leads(o, moves, e) && e.st.logs == o.st.logs && e.seeded && e.synced == {} && e.refused == {}
    ensures e.st.logs.Keys == {p, c1, c2} && !e.fell
    ensures StandsAt(o, e, Local(Leading(map[]), map[], map[]), map[p := NewRow([])], {p})
  {
    assert Leads(o, [], o);
    hide Leads;
    var moves1, o1 := Begins(o, [], o);
    assert Discovered(o1.st, map[]) == {p};
    LeadsOn(o, moves1, o1, Seed);
    var o2 := Took(o1, Seed);
    var moves3, o3 := Publishes(o, moves1 + [Seed], o2, p);
    assert {p} - {p} == {} && o3.errand == Some(Seeding({}));
    LeadsOn(o, moves3, o3, Done);
    moves, e := moves3 + [Done], Took(o3, Done);
  }

  /** The leader drains an easy shard and starts its next cycle. */
  lemma Drains(start: Office, moves: seq<Move>, o: Office, s: ShardId) returns (more: seq<Move>, e: Office)
    requires Leads(start, moves, o) && o.errand.None? && At(o.st, o.leader).stage.Leading?
    requires At(o.st, o.leader).passes == map[] && At(o.st, o.leader).pending == map[]
    requires EasyShard(o.st, s) && o.st.table[s].checkpoint == 0
    ensures Leads(start, more, e) && e == o.(st := e.st, ended := e.ended)
    ensures var rows := o.st.table[s := DrainedRow(o.st.table[s], o.leader)];
            StandsAt(o, e, Local(Leading(rows), map[], map[]), rows, o.st.published)
    ensures e.st.logs == o.st.logs[s := Log(0, true)]
  {
    hide Leads, Reaches, EasyShard, Quiet;
    var st1, acts := DrainsEasily(o.st, o.leader, s);
    var moves1, o1 := QuietRun(start, moves, o, acts, st1);
    more, e := Begins(start, moves1, o1);
  }

  /** The sync of the completed root: one child is published, the other create is refused. */
  lemma Asks(start: Office, moves: seq<Move>, o: Office, p: ShardId, c1: ShardId, c2: ShardId)
    returns (more: seq<Move>, e: Office)
    requires Leads(start, moves, o) && o.errand.None? && o.seeded && o.synced == {} && o.refused == {}
    requires TwoChildren(o.st.config, p, c1, c2) && o.st.table == map[p := DoneRow(o.leader, [])] && o.st.published == {p}
    requires At(o.st, o.leader) == Local(Leading(o.st.table), map[], map[])
    ensures Leads(start, more, e) && e.st.logs == o.st.logs && e.seeded && e.synced == {p} && e.refused == {c2}
    ensures StandsAt(o, e, At(o.st, o.leader), o.st.table[c1 := NewRow([p])], {p, c1})
  {
    hide Leads;
    assert NewChildren(o.st.config, o.st.table, p) == {c1, c2};
    LeadsOn(start, moves, o, Sync(p));
    var o1 := Took(o, Sync(p));
    var moves2, o2 := Publishes(start, moves + [Sync(p)], o1, c1);
    assert o2.errand == Some(Syncing(p, {c1, c2} - {c1})) && {c1, c2} - {c1} == {c2};
    hide At, Enabled;
    LeadsOn(start, moves2, o2, Refuse(c2));
    var o3 := Took(o2, Refuse(c2));
    assert {c2} - {c2} == {} && o3.errand == Some(Syncing(p, {}));
    LeadsOn(start, moves2 + [Refuse(c2)], o3, Done);
    more, e := moves2 + [Refuse(c2)] + [Done], Took(o3, Done);
  }

  /** The parent's row is collected, its one child row being complete. */
  lemma Collects(start: Office, moves: seq<Move>, o: Office, p: ShardId, c1: ShardId) returns (more: seq<Move>, e: Office)
    requires Leads(start, moves, o) && o.errand.None? && p != c1
    requires o.st.table == map[p := DoneRow(o.leader, []), c1 := DoneRow(o.leader, [p])]
    requires At(o.st, o.leader).stage == Leading(o.st.table)
    ensures Leads(start, more, e) && e == o.(st := e.st, ended := e.ended)
    ensures e.st == o.st.(table := map[c1 := DoneRow(o.leader, [p])])
  {
    var a := Collect(o.leader, p);
    assert IsChild(o.st.table, p, c1);
    assert o.st.table - {p} == map[c1 := DoneRow(o.leader, [p])];
    assert Step(o.st, a, o.st.(table := map[c1 := DoneRow(o.leader, [p])]));
    hide Leads;
    LeadsOn(start, moves, o, Act(a));
    more, e := moves + [Act(a)], Acted(o, a);
  }

  /** Where the run ends: the root's row is gone, one child is complete, the other was refused. */
  ghost predicate Orphaned(o: Office, e: Office, p: ShardId, c1: ShardId, c2: ShardId) {
    && e.leader == o.leader && e.st.config == o.st.config && e.errand.None? && !e.fell
    && e.seeded && e.synced == {p} && e.refused == {c2} && e.st.published == {p, c1}
    && e.st.table == map[c1 := DoneRow(o.leader, [p])]
    && At(e.st, o.leader).stage.Leading? && At(e.st, o.leader).passes == map[]
  }

  lemma Orphans(o: Office, p: ShardId, c1: ShardId, c2: ShardId) returns (moves: seq<Move>, e: Office)
    requires TakesOffice(o) && TwoChildren(o.st.config, p, c1, c2) && o.st.logs[p].len == 0 && o.st.logs[c1].len == 0
    ensures Leads(o, moves, e) && Orphaned(o, e, p, c1, c2)
  {
    hide Leads, TakesOffice, EasyShard;
    var moves1, o1 := Founds(o, p, c1, c2);
    EasyFirst(o1.st, p);
    var moves2, o2 := Drains(o, moves1, o1, p);
    assert o2.st.table == map[p := DoneRow(o.leader, [])];
    var moves3, o3 := Asks(o, moves2, o2, p, c1, c2);
    EasyFirst(o3.st, c1);
    var moves4, o4 := Drains(o, moves3, o3, c1);
    assert o4.st.table == map[p := DoneRow(o.leader, []), c1 := DoneRow(o.leader, [p])];
    moves, e := Collects(o, moves4, o4, p, c1);
  }

  /**
   A root with two children, two empty logs and one leader: some run ends with the root's row
   collected and the second child without a row, and no later move of this leader gives it
   one unless a full describe stands in.
   */
  lemma ChildIsStranded(o: Office, p: ShardId, c1: ShardId, c2: ShardId) returns (moves: seq<Move>, e: Office)
    requires TakesOffice(o) && TwoChildren(o.st.config, p, c1, c2) && o.st.logs[p].len == 0 && o.st.logs[c1].len == 0
    ensures Leads(o, moves, e) && Collected(e, p) && ChildOf(e.st.config, c2, p) && c2 in e.refused
    ensures forall later :: Goes(e, later) && !Ends(e, later).fell ==> c2 !in Ends(e, later).st.published
  {
    hide Leads, Goes, TakesOffice;
    moves, e := Orphans(o, p, c1, c2);
    forall later | Goes(e, later) && !Ends(e, later).fell ensures c2 !in Ends(e, later).st.published {
      NeverAgain(o, moves, e, later, p, c2);
    }
  }

  /**
   And if the next describe call fails, its stand-in asks for the root alone: the run goes on
   to one in which the leader has created the root twice and the child never.
   */
  lemma RootComesBack(o: Office, p: ShardId, c1: ShardId, c2: ShardId) returns (moves: seq<Move>, e: Office)
    requires TakesOffice(o) && TwoChildren(o.st.config, p, c1, c2) && o.st.logs[p].len == 0 && o.st.logs[c1].len == 0
    ensures Leads(o, moves, e) && !Distinct(e.posted) && c2 !in e.st.published && Left(e.errand) == {}
  {
    hide Leads, TakesOffice;
    var moves1, o1 := Orphans(o, p, c1, c2);
    var moves2, o2 := StartsOver(o, moves1, o1);
    assert Discovered(o2.st, o2.st.table) == {p};
    var fails := SyncFails(c1, true);
    LeadsOn(o, moves2, o2, fails);
    var o3 := Took(o2, fails);
    moves, e := Publishes(o, moves2 + [fails], o3, p);
    WasPosted(o, moves1, o1, p);
    Twice(o2.posted, p);
    assert {p} - {p} == {};
  }

  lemma WasPosted(o: Office, moves: seq<Move>, e: Office, s: ShardId)
    requires TakesOffice(o) && Leads(o, moves, e) && !e.fell && s in e.st.published
    ensures s in e.posted
  {
    SoleLeader(o, moves);
  }

  lemma Twice(posted: seq<ShardId>, s: ShardId)
    requires s in posted
    ensures !Distinct(posted + [s])
  {
    var i :| 0 <= i < |posted| && posted[i] == s;
    assert (posted + [s])[i] == (posted + [s])[|posted|];
  }

  /** The leader ends its cycle and begins the next. */
  lemma StartsOver(start: Office, moves: seq<Move>, o: Office) returns (more: seq<Move>, e: Office)
    requires Leads(start, moves, o) && o.errand.None? && At(o.st, o.leader).stage.Leading? && At(o.st, o.leader).passes == map[]
    ensures Leads(start, more, e) && e == o.(st := e.st, ended := e.ended)
    ensures e.st.table == o.st.table && e.st.published == o.st.published && e.st.config == o.st.config
    ensures At(e.st, o.leader).stage == Leading(o.st.table)
  {
    var a := EndCycle(o.leader);
    assert Step(o.st, a, Put(o.st, o.leader, At(o.st, o.leader).(stage := Idle)));
    hide Leads;
    LeadsOn(start, moves, o, Act(a));
    more, e := Begins(start, moves + [Act(a)], Acted(o, a));
  }

  lemma EasyFirst(st: State, s: ShardId)
    requires s in st.table && !st.table[s].completed && s in st.logs && st.logs[s].len == 0
    requires forall p :: p in st.table[s].parents ==> p in st.table && st.table[p].completed
    ensures EasyShard(st, s)
  {
  }

  lemma NeverAgain(o: Office, moves: seq<Move>, e: Office, later: seq<Move>, p: ShardId, c: ShardId)
    requires TakesOffice(o) && Leads(o, moves, e) && Goes(e, later) && Collected(e, p) && !Ends(e, later).fell
    requires ChildOf(e.st.config, c, p) && c in e.refused
    ensures c !in Ends(e, later).st.published
  {
    HistoryGrows(e, later);
    StrandedExactly(o, moves, p, c, later);
  }
}
