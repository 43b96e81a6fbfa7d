/**
 Discovery by one leader: it seeds the roots once, then asks for the children of each
 completed shard once, while every other worker claims, works, releases, crashes and
 re-creates rows as it likes.
 */
module FleetLeader {
  import opened Types
  import opened LeaseTable
  import opened Fleet
  import opened FleetFrames
  import opened FleetSafety
  import opened FleetFencing
  import opened FleetCheckpoints
  import opened FleetLineage

  /**
   A describe call was answered; these of its shards are still to be created. Falling is the
   full describe that stands in for a failed one of the children; it marks nothing.
   */
  datatype Errand =
    | Seeding(left: set<ShardId>)
    | Syncing(parent: ShardId, left: set<ShardId>)
    | Falling(left: set<ShardId>)

  /**
   `posted`, `refused`, `ended`, `describes`, `extra` and `fell` are history: the creates that
   were made, in order, those that failed (the leader drops the error), the shards that ever
   had a completed row, the describe calls, those of them that failed or stood in for failed
   ones, and whether a full describe ever stood in.
   */
  datatype Office = Office(
    st: State,
    leader: Worker,
    seeded: bool,
    synced: set<ShardId>,
    errand: Option<Errand>,
    describes: nat,
    extra: nat,
    fell: bool,
    posted: seq<ShardId>,
    refused: set<ShardId>,
    ended: set<ShardId>)

  datatype Move =
    | Act(a: Action)
    | Seed
    | SeedFails
    | Sync(p: ShardId)
    | SyncFails(p: ShardId, answered: bool)
    | Refuse(s: ShardId)
    | Done

  function Left(errand: Option<Errand>): set<ShardId> {
    if errand.Some? then errand.value.left else {}
  }

  function Less(errand: Option<Errand>, s: ShardId): Option<Errand> {
    match errand
    case None => None
    case Some(Seeding(left)) => Some(Seeding(left - {s}))
    case Some(Syncing(p, left)) => Some(Syncing(p, left - {s}))
    case Some(Falling(left)) => Some(Falling(left - {s}))
  }

  /** Only the leader publishes, off its errand, and collects, between errands. */
  predicate Ruled(o: Office, a: Action) {
    && (a.Publish? ==> a.w == o.leader && a.s in Left(o.errand))
    && (a.Collect? ==> a.w == o.leader)
    && (!a.Append? && !a.Close? && a.w == o.leader ==> !a.Crash? && (o.errand.Some? ==> a.Publish?))
  }

  predicate AtDesk(o: Office) {
    At(o.st, o.leader).stage.Leading? && o.errand.None?
  }

  /** The shards a full describe shows that are not in the scan and may be published. */
  function Discovered(st: State, rows: map<ShardId, Row>): set<ShardId> {
    set s | s in st.config.parent && Discoverable(st, rows, s)
  }

  function NewChildren(config: Config, rows: map<ShardId, Row>, p: ShardId): set<ShardId> {
    set c | c in config.parent && ChildOf(config, c, p) && c !in rows
  }

  /** The scan shows a completed shard that names no child and was not asked for yet. */
  predicate IsNewlyCompleted(rows: map<ShardId, Row>, synced: set<ShardId>, p: ShardId) {
    && p in rows && rows[p].completed && p !in synced
    && forall c :: c in rows ==> p !in rows[c].parents
  }

  predicate Allowed(o: Office, m: Move) {
    match m
    case Act(a) => Enabled(o.st, a) && Ruled(o, a)
    case Seed => AtDesk(o) && !o.seeded
    case SeedFails => AtDesk(o) && !o.seeded
    case Sync(p) => AtDesk(o) && o.seeded && IsNewlyCompleted(At(o.st, o.leader).stage.rows, o.synced, p)
    case SyncFails(p, _) => AtDesk(o) && o.seeded && IsNewlyCompleted(At(o.st, o.leader).stage.rows, o.synced, p)
    case Refuse(s) => s in Left(o.errand)
    case Done => o.errand.Some? && Left(o.errand) == {}
  }

  function CompletedIn(rows: map<ShardId, Row>): set<ShardId> {
    set s | s in rows && rows[s].completed
  }

  function Acted(o: Office, a: Action): Office
    requires Enabled(o.st, a)
  {
    var st := Apply(o.st, a);
    var o' := o.(st := st, ended := o.ended + CompletedIn(st.table));
    if a.Publish? then o'.(posted := o.posted + [a.s], errand := Less(o.errand, a.s)) else o'
  }

  function Took(o: Office, m: Move): Office
    requires Allowed(o, m)
  {
    match m
    case Act(a) => Acted(o, a)
    case Seed =>
      o.(errand := Some(Seeding(Discovered(o.st, At(o.st, o.leader).stage.rows))), describes := o.describes + 1)
    case SeedFails => o.(describes := o.describes + 1, extra := o.extra + 1)
    case Sync(p) =>
      o.(errand := Some(Syncing(p, NewChildren(o.st.config, At(o.st, o.leader).stage.rows, p))),
         describes := o.describes + 1)
    case SyncFails(p, answered) =>
      o.(errand := if answered then Some(Falling(Discovered(o.st, At(o.st, o.leader).stage.rows))) else None,
         describes := o.describes + 2, extra := o.extra + 2, fell := o.fell || answered)
    case Refuse(s) => o.(errand := Less(o.errand, s), refused := o.refused + {s})
    case Done =>
      match o.errand.value
      case Seeding(_) => o.(errand := None, seeded := true)
      case Syncing(p, _) => o.(errand := None, synced := o.synced + {p})
      case Falling(_) => o.(errand := None)
  }

  /** A leader that remembers nothing, over a fresh table. */
  ghost predicate TakesOffice(o: Office) {
    && Init(o.st) && !o.seeded && o.synced == {} && o.errand.None?
    && o.describes == 0 && o.extra == 0 && !o.fell && o.posted == [] && o.refused == {} && o.ended == {}
  }

  ghost predicate Goes(o: Office, moves: seq<Move>)
    decreases |moves|
  {
    moves == [] || (Allowed(o, moves[0]) && Goes(Took(o, moves[0]), moves[1..]))
  }

  ghost function Ends(o: Office, moves: seq<Move>): Office
    requires Goes(o, moves)
    decreases |moves|
  {
    if moves == [] then o else Ends(Took(o, moves[0]), moves[1..])
  }

  // ---- The invariant -----------------------------------------------------------------

  ghost predicate Distinct(s: seq<ShardId>) {
    forall i, j :: 0 <= i < j < |s| ==> s[i] != s[j]
  }

  predicate IsRoot(config: Config, s: ShardId) {
    s in config.parent && config.parent[s].None?
  }

  /** Shards whose create was made or refused. */
  function Settled(o: Office): set<ShardId> {
    o.st.published + o.refused
  }

  predicate Handled(o: Office, p: ShardId) {
    p in o.synced || (o.errand.Some? && o.errand.value.Syncing? && o.errand.value.parent == p)
  }

  /** While no full describe stood in, what is posted, refused and in hand accounts for the roots and the children asked for. */
  ghost predicate ErrandOk(o: Office) {
    match o.errand
    case None => !o.seeded ==> Settled(o) == {}
    case Some(Seeding(left)) =>
      && !o.seeded && left !! Settled(o)
      && forall s :: IsRoot(o.st.config, s) <==> s in left || s in Settled(o)
    case Some(Syncing(p, left)) =>
      && o.seeded && p !in o.synced && left !! Settled(o)
      && forall c :: ChildOf(o.st.config, c, p) <==> c in left || (c in Settled(o) && ChildOf(o.st.config, c, p))
    case Some(Falling(_)) => false
  }

  ghost predicate Paperwork(o: Office) {
    && Distinct(o.posted) && (forall s :: s in o.posted <==> s in o.st.published)
    && o.st.published !! o.refused
    && (!o.seeded ==> o.synced == {})
    && (o.seeded ==> forall s :: IsRoot(o.st.config, s) ==> s in Settled(o))
    && (forall c, p :: c in Settled(o) && ChildOf(o.st.config, c, p) ==> Handled(o, p))
    && (forall c, p :: p in o.synced && ChildOf(o.st.config, c, p) ==> c in Settled(o))
    && ErrandOk(o)
  }

  predicate Stands(rows: map<ShardId, Row>, s: ShardId) {
    s in rows && rows[s].completed
  }

  /** What the table or a scan shows complete was completed, and so was what was asked for. */
  ghost predicate Rowwork(o: Office) {
    && (forall s :: Handled(o, s) ==> s in o.ended)
    && (forall s :: Stands(o.st.table, s) ==> s in o.ended)
    && (forall w: Worker, s :: Stands(Scan(At(o.st, w).stage), s) ==> s in o.ended)
  }

  /** Every shard that was ever completed and not yet asked for still has its completed row. */
  ghost predicate Standing(o: Office) {
    && (forall s :: s in o.ended ==> s in o.synced || Stands(o.st.table, s))
    && (forall s :: s in o.st.published ==> s in o.synced || s in o.st.table)
  }

  /** A describe call for the seed, one for each shard asked for, and the failed ones with their stand-ins. */
  predicate Counted(o: Office) {
    && (o.errand.Some? && o.errand.value.Seeding? ==> !o.seeded)
    && (o.errand.Some? && o.errand.value.Syncing? ==> o.seeded && o.errand.value.parent !in o.synced)
    && o.describes == |o.synced| + (if o.seeded then 1 else 0)
      + (if o.errand.Some? && !o.errand.value.Falling? then 1 else 0) + o.extra
  }

  ghost predicate Tenure(o: Office) {
    && Inv(o.st) && LinealFleet(o.st) && Rowwork(o) && Counted(o)
    && (!o.fell ==> Paperwork(o) && Standing(o))
  }

  // ---- Steps of the fleet ------------------------------------------------------------

  lemma OnlyLeaderPublishes(st: State, a: Action)
    requires Enabled(st, a) && !a.Publish?
    ensures Apply(st, a).published == st.published && Apply(st, a).config == st.config
  {
    if OfPass(a) {
      PassesKeepLineage(st, a);
    } else if !a.Collect? && !a.AcquireCreate? {
      TurnsKeepLineage(st, a);
    }
  }

  lemma PassRowsStay(st: State, a: Action, s: ShardId)
    requires OfPass(a) && Enabled(st, a) && s in st.table
    ensures s in Apply(st, a).table && (st.table[s].completed ==> Apply(st, a).table[s].completed)
  {
    hide Enabled, Apply;
    PassDiscipline(st, a, s);
  }

  /** Only a collection removes a row, and no step takes a completion back. */
  lemma RowsStay(st: State, a: Action, s: ShardId)
    requires Enabled(st, a) && s in st.table && !(a.Collect? && a.s == s)
    ensures s in Apply(st, a).table && (st.table[s].completed ==> Apply(st, a).table[s].completed)
  {
    if OfPass(a) {
      PassRowsStay(st, a, s);
    }
  }

  /** A collected shard was asked for: its child row was published off an errand for it. */
  lemma CollectedIsHandled(o: Office, w: Worker, s: ShardId)
    requires Inv(o.st) && LinealFleet(o.st) && Paperwork(o) && Enabled(o.st, Collect(w, s))
    ensures Handled(o, s)
  {
    var c := CollectedHasChild(o.st, w, s);
    assert c in Settled(o);
  }

  lemma SamePaper(o: Office, o': Office)
    requires Paperwork(o) && o'.st.config == o.st.config && o'.st.published == o.st.published
    requires o'.posted == o.posted && o'.refused == o.refused && o'.seeded == o.seeded
    requires o'.synced == o.synced && o'.errand == o.errand
    ensures Paperwork(o')
  {
    assert Settled(o') == Settled(o);
    hide ChildOf, IsRoot, Distinct;
    assert forall p :: Handled(o', p) <==> Handled(o, p);
  }

  /** A create takes its shard off the errand and settles it. */
  lemma SettleOne(o: Office, o': Office, s: ShardId)
    requires Paperwork(o) && s in Left(o.errand) && o'.st.config == o.st.config
    requires o'.errand == Less(o.errand, s) && o'.seeded == o.seeded && o'.synced == o.synced
    requires Settled(o') == Settled(o) + {s} && o'.st.published !! o'.refused
    requires Distinct(o'.posted) && forall t :: t in o'.posted <==> t in o'.st.published
    ensures Paperwork(o')
  {
    hide Settled, Distinct;
    assert forall p :: Handled(o', p) <==> Handled(o, p);
  }

  lemma PostOne(posted: seq<ShardId>, s: ShardId)
    requires Distinct(posted) && s !in posted
    ensures Distinct(posted + [s]) && forall t :: t in posted + [s] <==> t in posted || t == s
  {
  }

  lemma PublishPaper(o: Office, s: ShardId)
    requires Paperwork(o) && Allowed(o, Act(Publish(o.leader, s)))
    ensures Paperwork(Acted(o, Publish(o.leader, s)))
  {
    var o' := Acted(o, Publish(o.leader, s));
    assert s !in Settled(o);
    PostOne(o.posted, s);
    assert Settled(o') == Settled(o) + {s};
    hide Paperwork, Enabled;
    SettleOne(o, o', s);
  }

  lemma ActPaper(o: Office, a: Action)
    requires Paperwork(o) && Allowed(o, Act(a))
    ensures Paperwork(Acted(o, a))
  {
    if a.Publish? {
      PublishPaper(o, a.s);
    } else {
      hide Paperwork, Enabled, Apply;
      OnlyLeaderPublishes(o.st, a);
      SamePaper(o, Acted(o, a));
    }
  }

  lemma ActScans(o: Office, a: Action, w: Worker, s: ShardId)
    requires Rowwork(o) && Enabled(o.st, a) && Stands(Scan(At(Apply(o.st, a), w).stage), s)
    ensures s in o.ended
  {
    hide Enabled, Apply, Scan, At;
    ScansAreCopies(o.st, a, w);
    assert Stands(Scan(At(o.st, w).stage), s) || Stands(o.st.table, s);
  }

  lemma ActStands(o: Office, a: Action, s: ShardId)
    requires Inv(o.st) && LinealFleet(o.st) && Paperwork(o) && Standing(o) && Allowed(o, Act(a)) && s in o.ended
    ensures s in o.synced || Stands(Apply(o.st, a).table, s)
  {
    hide Inv, LinealFleet, Paperwork, Apply, Enabled;
    if a.Collect? && a.s == s {
      CollectedIsHandled(o, a.w, s);
    } else if s !in o.synced {
      RowsStay(o.st, a, s);
    }
  }

  lemma ActHasRow(o: Office, a: Action, s: ShardId)
    requires Inv(o.st) && LinealFleet(o.st) && Paperwork(o) && Standing(o) && Allowed(o, Act(a))
    requires s in Apply(o.st, a).published
    ensures s in o.synced || s in Apply(o.st, a).table
  {
    hide Inv, LinealFleet, Paperwork;
    if a.Collect? && a.s == s {
      CollectedIsHandled(o, a.w, s);
    } else if a.Publish? && a.s == s {
    } else if s !in o.synced {
      if !a.Publish? {
        OnlyLeaderPublishes(o.st, a);
      }
      assert s in o.st.published;
      hide Apply, Enabled;
      RowsStay(o.st, a, s);
    }
  }

  lemma LessHandles(o: Office, a: Action)
    requires Enabled(o.st, a)
    ensures forall p :: Handled(Acted(o, a), p) <==> Handled(o, p)
    ensures Acted(o, a).synced == o.synced && Acted(o, a).st == Apply(o.st, a)
    ensures Acted(o, a).ended == o.ended + CompletedIn(Apply(o.st, a).table)
  {
    hide Apply, Enabled;
  }

  lemma ActRows(o: Office, a: Action)
    requires Rowwork(o) && Allowed(o, Act(a))
    ensures Rowwork(Acted(o, a))
  {
    var o', st' := Acted(o, a), Apply(o.st, a);
    LessHandles(o, a);
    hide Apply, Enabled, Acted, At, Scan, Handled;
    forall w: Worker, s | Stands(Scan(At(st', w).stage), s) ensures s in o'.ended {
      ActScans(o, a, w, s);
    }
  }

  lemma ActStanding(o: Office, a: Action)
    requires Inv(o.st) && LinealFleet(o.st) && Paperwork(o) && Standing(o) && Allowed(o, Act(a))
    ensures Standing(Acted(o, a))
  {
    var o', st' := Acted(o, a), Apply(o.st, a);
    LessHandles(o, a);
    hide Inv, LinealFleet, Paperwork, Apply, Enabled, Acted, Handled;
    forall s | s in o'.ended ensures s in o.synced || Stands(st'.table, s) {
      if s in o.ended {
        ActStands(o, a, s);
      }
    }
    forall s | s in st'.published ensures s in o.synced || s in st'.table {
      ActHasRow(o, a, s);
    }
  }

  lemma ActKeeps(o: Office, a: Action)
    requires Tenure(o) && Allowed(o, Act(a))
    ensures Tenure(Acted(o, a))
  {
    hide Inv, LinealFleet, Paperwork, Rowwork, Standing, Apply, Enabled;
    if !o.fell {
      ActPaper(o, a);
      ActStanding(o, a);
    }
    ActRows(o, a);
    StepKeepsInv(o.st, a);
    StepKeepsLineal(o.st, a);
  }

  // ---- Moves of the leader -----------------------------------------------------------

  /** Nothing was published before the seed, so the scan is empty and the roots are what is new. */
  lemma SeedPaper(o: Office)
    requires Inv(o.st) && Paperwork(o) && Allowed(o, Seed)
    ensures Paperwork(Took(o, Seed))
  {
    var o', rows := Took(o, Seed), At(o.st, o.leader).stage.rows;
    assert LocalOk(o.st, At(o.st, o.leader));
    assert rows == map[] by {
      forall s ensures s !in rows {
        assert s in rows ==> RowOk(o.st, s, rows[s]) && s in Settled(o);
      }
    }
    assert forall s :: Handled(o', s) <==> Handled(o, s);
    hide Inv, At;
    assert Settled(o') == Settled(o);
  }

  lemma SeedKeeps(o: Office)
    requires Tenure(o) && Allowed(o, Seed)
    ensures Tenure(Took(o, Seed))
  {
    if !o.fell {
      SeedPaper(o);
    }
    assert forall s :: Handled(Took(o, Seed), s) <==> Handled(o, s);
    hide Inv, LinealFleet, Paperwork, At, Handled;
  }

  /** No child of a shard that was not asked for yet is published or refused. */
  lemma SyncPaper(o: Office, p: ShardId)
    requires Inv(o.st) && Paperwork(o) && Allowed(o, Sync(p))
    ensures Paperwork(Took(o, Sync(p)))
  {
    var o', rows := Took(o, Sync(p)), At(o.st, o.leader).stage.rows;
    assert LocalOk(o.st, At(o.st, o.leader));
    forall c | ChildOf(o.st.config, c, p) ensures c !in Settled(o) && c !in rows {
      assert !Handled(o, p);
      assert c in rows ==> RowOk(o.st, c, rows[c]);
    }
    hide Inv, At;
    assert Settled(o') == Settled(o);
  }

  lemma RowworkStays(o: Office, o': Office)
    requires Rowwork(o) && o'.st == o.st && o'.ended == o.ended && forall s :: Handled(o', s) ==> s in o.ended
    ensures Rowwork(o')
  {
  }

  lemma HandledIsEnded(o: Office)
    requires Rowwork(o)
    ensures forall s :: Handled(o, s) ==> s in o.ended
  {
  }

  lemma AskedIsEnded(o: Office, p: ShardId)
    requires Rowwork(o) && AtDesk(o) && Stands(At(o.st, o.leader).stage.rows, p)
    ensures p in o.ended
  {
    assert Stands(Scan(At(o.st, o.leader).stage), p);
  }

  lemma SyncKeeps(o: Office, p: ShardId)
    requires Tenure(o) && Allowed(o, Sync(p))
    ensures Tenure(Took(o, Sync(p)))
  {
    if !o.fell {
      SyncPaper(o, p);
    }
    AskedIsEnded(o, p);
    HandledIsEnded(o);
    hide Inv, LinealFleet, Paperwork, At, Rowwork, NewChildren;
    RowworkStays(o, Took(o, Sync(p)));
  }

  /** A failed describe leaves everything but the counts, and the errand of its stand-in, as it was. */
  lemma FailureKeeps(o: Office, o': Office)
    requires Tenure(o) && o.errand.None? && o'.st == o.st && o'.seeded == o.seeded && o'.synced == o.synced
    requires o'.posted == o.posted && o'.refused == o.refused && o'.ended == o.ended && (o.fell ==> o'.fell)
    requires o'.describes - o'.extra == o.describes - o.extra
    requires o'.errand.None? || (o'.errand.value.Falling? && o'.fell)
    ensures Tenure(o')
  {
    assert forall s :: Handled(o', s) <==> Handled(o, s);
    hide Inv, LinealFleet, Paperwork, Handled;
    if !o'.fell {
      SamePaper(o, o');
    }
  }

  lemma SyncFailsKeeps(o: Office, p: ShardId, answered: bool)
    requires Tenure(o) && Allowed(o, SyncFails(p, answered))
    ensures Tenure(Took(o, SyncFails(p, answered)))
  {
    hide Tenure, Discovered, IsNewlyCompleted, At;
    FailureKeeps(o, Took(o, SyncFails(p, answered)));
  }

  lemma SeedFailsKeeps(o: Office)
    requires Tenure(o) && Allowed(o, SeedFails)
    ensures Tenure(Took(o, SeedFails))
  {
    hide Tenure, Discovered, IsNewlyCompleted, At;
    FailureKeeps(o, Took(o, SeedFails));
  }

  lemma RefusePaper(o: Office, s: ShardId)
    requires Paperwork(o) && Allowed(o, Refuse(s))
    ensures Paperwork(Took(o, Refuse(s)))
  {
    var o' := Took(o, Refuse(s));
    assert s !in Settled(o);
    assert Settled(o') == Settled(o) + {s};
    hide Paperwork;
    SettleOne(o, o', s);
  }

  lemma RefuseKeeps(o: Office, s: ShardId)
    requires Tenure(o) && Allowed(o, Refuse(s))
    ensures Tenure(Took(o, Refuse(s)))
  {
    if !o.fell {
      RefusePaper(o, s);
    }
    assert forall p :: Handled(Took(o, Refuse(s)), p) <==> Handled(o, p);
    hide Inv, LinealFleet, Paperwork, Handled;
  }

  lemma DonePaper(o: Office)
    requires Paperwork(o) && Allowed(o, Done)
    ensures Paperwork(Took(o, Done))
  {
    assert Settled(Took(o, Done)) == Settled(o);
  }

  lemma DoneSame(o: Office)
    requires Allowed(o, Done) && Counted(o)
    ensures var o' := Took(o, Done);
            && o'.st == o.st && o'.ended == o.ended && o'.fell == o.fell && o.synced <= o'.synced && Counted(o')
            && forall p :: Handled(o', p) ==> Handled(o, p)
  {
  }

  lemma StandingStays(o: Office, o': Office)
    requires Standing(o) && o'.st == o.st && o'.ended == o.ended && o.synced <= o'.synced
    ensures Standing(o')
  {
  }

  lemma DoneKeeps(o: Office)
    requires Tenure(o) && Allowed(o, Done)
    ensures Tenure(Took(o, Done))
  {
    hide Inv, LinealFleet, Paperwork, Handled, Rowwork, Standing, Counted, Took;
    DoneSame(o);
    HandledIsEnded(o);
    RowworkStays(o, Took(o, Done));
    if !o.fell {
      DonePaper(o);
      StandingStays(o, Took(o, Done));
    }
  }

  lemma MoveKeepsTenure(o: Office, m: Move)
    requires Tenure(o) && Allowed(o, m)
    ensures Tenure(Took(o, m))
  {
    hide Tenure, Acted;
    match m
    case Act(a) => ActKeeps(o, a);
    case Seed => SeedKeeps(o);
    case SeedFails => SeedFailsKeeps(o);
    case Sync(p) => SyncKeeps(o, p);
    case SyncFails(p, answered) => SyncFailsKeeps(o, p, answered);
    case Refuse(s) => RefuseKeeps(o, s);
    case Done => DoneKeeps(o);
  }

  lemma {:induction false} TenureAlways(o: Office, moves: seq<Move>)
    requires Tenure(o) && Goes(o, moves)
    ensures Tenure(Ends(o, moves))
    decreases |moves|
  {
    if moves != [] {
      hide Tenure, Allowed, Took;
      MoveKeepsTenure(o, moves[0]);
      TenureAlways(Took(o, moves[0]), moves[1..]);
    }
  }

  lemma OfficeOpens(o: Office)
    requires TakesOffice(o)
    ensures Tenure(o)
  {
  }

  // ---- The theorems ------------------------------------------------------------------

  lemma {:induction false} NoMoreThan<T>(a: set<T>, b: set<T>)
    requires a <= b
    ensures |a| <= |b|
    decreases |a|
  {
    if a != {} {
      var x :| x in a;
      NoMoreThan(a - {x}, b - {x});
    }
  }

  lemma FewDescribes(o: Office)
    requires Rowwork(o) && Counted(o)
    ensures o.describes <= 1 + |o.ended| + o.extra
  {
    var asked := if o.errand.Some? && o.errand.value.Syncing? then o.synced + {o.errand.value.parent} else o.synced;
    assert forall s :: s in asked ==> Handled(o, s);
    NoMoreThan(asked, o.ended);
  }

  /** What one leader has done, if no full describe stood in for a failed one. */
  ghost predicate InGoodOrder(o: Office) {
    && Distinct(o.posted) && (forall s :: s in o.posted <==> s in o.st.published)
    && (forall p, c :: p in o.synced && ChildOf(o.st.config, c, p) ==> (c in o.st.published <==> c !in o.refused))
    && (o.seeded ==> forall s :: IsRoot(o.st.config, s) ==> (s in o.st.published <==> s !in o.refused))
    && (forall s :: s in o.ended && s !in o.synced ==> Stands(o.st.table, s))
  }

  /**
   One leader, any followers: after any run the describe calls are at most one more than the
   shards ever completed, not counting the failed ones with their stand-ins. And as long as no
   full describe stood in, the leader has created every shard at most once; it has dealt with
   every child of each shard it asked for, and a child is published exactly if its create was
   not refused; a completed shard it has not asked for still has its completed row.
   */
  lemma SoleLeader(o: Office, moves: seq<Move>)
    requires TakesOffice(o) && Goes(o, moves)
    ensures Ends(o, moves).describes <= 1 + |Ends(o, moves).ended| + Ends(o, moves).extra
    ensures !Ends(o, moves).fell ==> InGoodOrder(Ends(o, moves))
  {
    OfficeOpens(o);
    TenureAlways(o, moves);
    FewDescribes(Ends(o, moves));
  }

  /** A shard that a row of the scan names as its parent was asked for. */
  lemma ChildRowMeansAsked(o: Office, p: ShardId, c: ShardId)
    requires Tenure(o) && AtDesk(o) && !o.fell
    requires c in At(o.st, o.leader).stage.rows && p in At(o.st, o.leader).stage.rows[c].parents
    ensures p in o.synced
  {
    var rows := At(o.st, o.leader).stage.rows;
    assert LocalOk(o.st, At(o.st, o.leader)) && RowOk(o.st, c, rows[c]);
    assert Lineal(o.st.config, Scan(At(o.st, o.leader).stage));
    assert ChildOf(o.st.config, c, p) && c in Settled(o);
    assert Handled(o, p);
  }

  /** Nothing completed is forgotten: what the scan shows complete the leader asked for, or may ask for now. */
  lemma CompletedIsAskedFor(o: Office, s: ShardId)
    requires Tenure(o) && AtDesk(o) && !o.fell && o.seeded && Stands(At(o.st, o.leader).stage.rows, s)
    ensures s in o.synced <==> !Allowed(o, Sync(s))
  {
    var rows := At(o.st, o.leader).stage.rows;
    hide Tenure, At;
    forall c | c in rows && s in rows[c].parents ensures s in o.synced {
      ChildRowMeansAsked(o, s, c);
    }
  }

  lemma {:induction false} HistoryGrows(o: Office, moves: seq<Move>)
    requires Goes(o, moves)
    ensures o.refused <= Ends(o, moves).refused && (o.fell ==> Ends(o, moves).fell)
    decreases |moves|
  {
    if moves != [] {
      HistoryStep(o, moves[0]);
      hide Allowed, Took;
      HistoryGrows(Took(o, moves[0]), moves[1..]);
    }
  }

  lemma HistoryStep(o: Office, m: Move)
    requires Allowed(o, m)
    ensures o.refused <= Took(o, m).refused && (o.fell ==> Took(o, m).fell)
  {
  }

  /** A refused create is never made good in the same tenure, as long as no full describe stands in. */
  lemma RefusedIsLost(o: Office, moves: seq<Move>, s: ShardId)
    requires Tenure(o) && Goes(o, moves) && s in o.refused && !Ends(o, moves).fell
    ensures s !in Ends(o, moves).st.published
  {
    HistoryGrows(o, moves);
    TenureAlways(o, moves);
    assert Paperwork(Ends(o, moves));
  }

  /** A shard whose row was collected. */
  predicate Collected(o: Office, p: ShardId) {
    p in o.st.published && p !in o.st.table
  }

  /**
   A parent's row goes only after all creates for its children: once it is gone, a child
   without a row is one whose create was refused, and unless a full describe stands in it
   never gets one in this tenure.
   */
  lemma StrandedExactly(o: Office, moves: seq<Move>, p: ShardId, c: ShardId, later: seq<Move>)
    requires TakesOffice(o) && Goes(o, moves) && Goes(Ends(o, moves), later) && !Ends(Ends(o, moves), later).fell
    requires Collected(Ends(o, moves), p) && ChildOf(Ends(o, moves).st.config, c, p)
    ensures c !in Ends(o, moves).st.published <==> c in Ends(o, moves).refused
    ensures c !in Ends(o, moves).st.published ==> c !in Ends(Ends(o, moves), later).st.published
  {
    OfficeOpens(o);
    TenureAlways(o, moves);
    HistoryGrows(Ends(o, moves), later);
    if c in Ends(o, moves).refused {
      RefusedIsLost(Ends(o, moves), later, c);
    }
  }

  /** The leader's scan is the table as it is. */
  predicate FreshDesk(o: Office) {
    AtDesk(o) && At(o.st, o.leader).stage.rows == o.st.table
  }

  /**
   What a stand-in brings back: on a fresh scan a full describe asks for a shard that was
   published before if and only if its row was collected, and it is a root or its parent's
   completed row is still there.
   */
  lemma StandInBringsBack(o: Office, p: ShardId, s: ShardId)
    requires Tenure(o) && FreshDesk(o) && Allowed(o, SyncFails(p, true)) && s in o.st.published
    ensures s in Left(Took(o, SyncFails(p, true)).errand) <==>
      Collected(o, s) && (IsRoot(o.st.config, s) || exists q :: ChildOf(o.st.config, s, q) && Stands(o.st.table, q))
  {
    assert LineageOk(o.st, s);
    var parent := o.st.config.parent[s];
    assert parent.Some? ==> ChildOf(o.st.config, s, parent.value);
  }
}
