/**
 The leader's discovery as it is coded, amid a fleet that does what it likes between any two
 of its calls, and a store that may refuse any create. Every call is a move of the office of
 FleetLeader, so its theorems hold of this method's runs.
 */
module LeaderSync {
  import opened Types
  import opened LeaseTable
  import opened Fleet
  import opened FleetFencing
  import opened FleetFrames
  import opened FleetLineage
  import opened FleetLeader

  /** What comes before one create: steps of other workers; and whether the create is refused. */
  datatype Round = Round(others: seq<Action>, refused: bool)

  /** Nothing the leader remembers or has scanned changed. */
  ghost predicate SameDesk(o: Office, o': Office) {
    && o'.leader == o.leader && o'.seeded == o.seeded && o'.synced == o.synced
    && o'.describes == o.describes && o'.extra == o.extra && o'.fell == o.fell
    && o'.st.config == o.st.config && At(o'.st, o.leader) == At(o.st, o.leader)
  }

  /** The creates an errand still asks for may all be made. */
  ghost predicate ReadyToCreate(o: Office) {
    && At(o.st, o.leader).stage.Leading?
    && forall s :: s in Left(o.errand) ==> Discoverable(o.st, At(o.st, o.leader).stage.rows, s)
  }

  lemma OthersSpareDesk(o: Office, a: Action)
    requires Enabled(o.st, a) && ByOther(a, o.leader) && !a.Publish? && !a.Collect?
    ensures Allowed(o, Act(a)) && SameDesk(o, Acted(o, a))
    ensures Acted(o, a).errand == o.errand && Acted(o, a).posted == o.posted && Acted(o, a).refused == o.refused
    ensures Acted(o, a).st.published == o.st.published
  {
    hide Enabled, Apply;
    OnlyLeaderPublishes(o.st, a);
    if OfPass(a) { OtherPassesKeepRows(o.st, a, o.leader); } else { OthersKeepRows(o.st, a, o.leader); }
    ConfigFixed(o.st, a);
  }

  lemma PublishSparesDesk(o: Office, s: ShardId)
    requires s in Left(o.errand) && ReadyToCreate(o)
    ensures Allowed(o, Act(Publish(o.leader, s))) && SameDesk(o, Acted(o, Publish(o.leader, s)))
    ensures Acted(o, Publish(o.leader, s)).refused == o.refused
    ensures Acted(o, Publish(o.leader, s)).st.published == o.st.published + {s}
  {
  }

  /** The same errand, perhaps further on. */
  predicate SameErrand(e: Option<Errand>, e': Option<Errand>) {
    e.Some? && e'.Some? && e'.value.left <= e.value.left && e'.value == e.value.(left := e'.value.left)
  }

  lemma ParentsStay(o: Office, o': Office, s: ShardId)
    requires o'.st.config == o.st.config && s in o.st.config.parent
    ensures ParentList(o'.st, s) == ParentList(o.st, s)
  {
  }

  // ---- What the store answered -------------------------------------------------------

  /** The store refuses create number `i` of the script; past its end nothing is refused. */
  predicate Denied(script: seq<Round>, i: nat) {
    i < |script| && script[i].refused
  }

  /** The store refuses nothing. */
  predicate Calm(script: seq<Round>) {
    forall i :: 0 <= i < |script| ==> !script[i].refused
  }

  function Elems(s: seq<ShardId>): set<ShardId> {
    set x | x in s
  }

  /** The creates of a list that the store made, in order, and those it refused. */
  function Kept(tried: seq<ShardId>, script: seq<Round>): seq<ShardId> {
    if tried == [] then []
    else
      var n: nat := |tried| - 1;
      Kept(tried[..n], script) + if Denied(script, n) then [] else [tried[n]]
  }

  function Lost(tried: seq<ShardId>, script: seq<Round>): set<ShardId> {
    set i: nat | i < |tried| && Denied(script, i) :: tried[i]
  }

  /** The creates of `tried` were attempted one after another, and each came out as the store decided. */
  ghost predicate Stored(o: Office, o': Office, script: seq<Round>, script': seq<Round>, tried: seq<ShardId>) {
    && script' == Later(script, |tried|)
    && o'.posted == o.posted + Kept(tried, script) && o'.refused == o.refused + Lost(tried, script)
    && o'.st.published == o.st.published + Elems(Kept(tried, script))
  }

  lemma StoredNone(o: Office, o': Office, script: seq<Round>)
    requires o'.posted == o.posted && o'.refused == o.refused && o'.st.published == o.st.published
    ensures Stored(o, o', script, script, [])
  {
  }

  lemma KeptPush(tried: seq<ShardId>, script: seq<Round>, s: ShardId)
    ensures Kept(tried + [s], script) == Kept(tried, script) + if Denied(script, |tried|) then [] else [s]
    ensures Lost(tried + [s], script) == Lost(tried, script) + if Denied(script, |tried|) then {s} else {}
  {
    assert (tried + [s])[..|tried|] == tried;
    var lost, lost' := Lost(tried, script), Lost(tried + [s], script);
    forall x | x in lost ensures x in lost' {
      var i: nat :| i < |tried| && Denied(script, i) && tried[i] == x;
      assert (tried + [s])[i] == x;
    }
    if Denied(script, |tried|) {
      assert (tried + [s])[|tried|] == s;
    }
  }

  lemma LaterDenied(script: seq<Round>, n: nat)
    ensures Denied(Later(script, n), 0) <==> Denied(script, n)
    ensures Later(Later(script, n), 1) == Later(script, n + 1)
  {
  }

  lemma StoredOne(o: Office, o': Office, script: seq<Round>, script': seq<Round>, s: ShardId)
    requires script' == Later(script, 1)
    requires if Denied(script, 0) then
        o'.refused == o.refused + {s} && o'.posted == o.posted && o'.st.published == o.st.published
      else
        o'.posted == o.posted + [s] && o'.refused == o.refused && o'.st.published == o.st.published + {s}
    ensures Stored(o, o', script, script', [s])
  {
    KeptPush([], script, s);
    assert [] + [s] == [s];
    hide Denied, Later;
  }

  /** One create more. */
  lemma StoredPush(o: Office, o': Office, o'': Office, script: seq<Round>, script': seq<Round>, script'': seq<Round>,
                   tried: seq<ShardId>, s: ShardId)
    requires Stored(o, o', script, script', tried) && Stored(o', o'', script', script'', [s])
    ensures Stored(o, o'', script, script'', tried + [s])
  {
    KeptPush(tried, script, s);
    KeptPush([], script', s);
    assert [] + [s] == [s];
    LaterDenied(script, |tried|);
    hide Kept, Lost, Denied, Later;
  }

  lemma {:induction false} StoredJoin(o: Office, o': Office, o'': Office, script: seq<Round>, script': seq<Round>,
                                      script'': seq<Round>, a: seq<ShardId>, b: seq<ShardId>)
    requires Stored(o, o', script, script', a) && Stored(o', o'', script', script'', b)
    ensures Stored(o, o'', script, script'', a + b)
  {
    KeptJoin(script, a, b);
    hide Kept, Lost, Denied;
  }

  lemma {:induction false} KeptJoin(script: seq<Round>, a: seq<ShardId>, b: seq<ShardId>)
    ensures Kept(a + b, script) == Kept(a, script) + Kept(b, Later(script, |a|))
    ensures Lost(a + b, script) == Lost(a, script) + Lost(b, Later(script, |a|))
    decreases |b|
  {
    if b == [] {
      assert a + b == a;
    } else {
      var n: nat := |b| - 1;
      KeptJoin(script, a, b[..n]);
      KeptPush(a + b[..n], script, b[n]);
      KeptPush(b[..n], Later(script, |a|), b[n]);
      assert a + b == a + b[..n] + [b[n]] && b == b[..n] + [b[n]];
      assert Denied(script, |a| + n) <==> Denied(Later(script, |a|), n);
      hide Kept, Lost, Denied, Later;
    }
  }

  lemma CalmLosesNothing(tried: seq<ShardId>, script: seq<Round>)
    requires Calm(script)
    ensures Lost(tried, script) == {} && forall i: nat :: !Denied(script, i)
  {
  }

  lemma {:induction false} CalmKeepsAll(tried: seq<ShardId>, script: seq<Round>)
    requires Calm(script)
    ensures Kept(tried, script) == tried && Lost(tried, script) == {}
    decreases |tried|
  {
    hide Lost;
    CalmLosesNothing(tried, script);
    if tried != [] {
      CalmKeepsAll(tried[..|tried| - 1], script);
      assert tried == tried[..|tried| - 1] + [tried[|tried| - 1]];
    }
  }

  /** If the store refuses nothing, every create attempted is published. */
  lemma CalmStored(o: Office, o': Office, script: seq<Round>, script': seq<Round>, tried: seq<ShardId>)
    requires Stored(o, o', script, script', tried) && Calm(script)
    ensures o'.refused == o.refused && o'.posted == o.posted + tried && Elems(tried) <= o'.st.published
  {
    CalmKeepsAll(tried, script);
  }

  /** Describe call number `i` is answered; past the end of the script every call is. */
  predicate Heard(answers: seq<bool>, i: nat) {
    i < |answers| ==> answers[i]
  }

  /** Every describe call is answered. */
  predicate Responsive(answers: seq<bool>) {
    forall i :: 0 <= i < |answers| ==> answers[i]
  }

  // ---- One completed shard, and all of them ------------------------------------------

  /**
   What a sync of `p` leaves behind: its children without a row were attempted and it is
   marked; or its children could not be described, everything missing that passes the gate was
   attempted if a full describe stood in, and nothing is marked.
   */
  ghost predicate Synced(o: Office, o': Office, rows: map<ShardId, Row>, p: ShardId, answers: seq<bool>, answers': seq<bool>,
                         tried: seq<ShardId>, ok: bool) {
    var stoodIn := !ok && Heard(answers, 1);
    && o'.leader == o.leader && o'.st.config == o.st.config
    && (ok <==> Heard(answers, 0)) && answers' == Later(answers, if ok then 1 else 2)
    && o'.synced == (if ok then o.synced + {p} else o.synced)
    && o'.describes == o.describes + (if ok then 1 else 2) && o'.extra == o.extra + (if ok then 0 else 2)
    && o'.fell == (o.fell || stoodIn)
    && Elems(tried) == if ok then NewChildren(o.st.config, rows, p) else if stoodIn then Discovered(o.st, rows) else {}
  }

  /** How far the loop over the completed shards has come: `newly` were asked for, `missed` could not be described. */
  ghost predicate Progress(o: Office, o': Office, rows: map<ShardId, Row>, left: set<ShardId>,
                           newly: set<ShardId>, missed: set<ShardId>) {
    && o'.leader == o.leader && o'.st.config == o.st.config
    && o'.synced == o.synced + newly && newly !! o.synced && newly !! missed
    && o'.describes == o.describes + |newly| + 2 * |missed| && o'.extra == o.extra + 2 * |missed|
    && (forall p :: p in newly || p in missed <==> IsNewlyCompleted(rows, o.synced, p) && p !in left)
    && (o.fell ==> o'.fell) && (missed == {} ==> o'.fell == o.fell)
  }

  /** And what it attempted: the missing children of `newly`, or more if a full describe stood in. */
  ghost predicate Attempts(o: Office, o': Office, rows: map<ShardId, Row>, newly: set<ShardId>, tried: seq<ShardId>) {
    && o'.st.config == o.st.config
    && (forall p :: p in newly ==> NewChildren(o.st.config, rows, p) <= Elems(tried))
    && Elems(tried) <= Discovered(o.st, rows)
    && (o'.fell && !o.fell ==> Discovered(o.st, rows) <= Elems(tried))
  }

  /** And while every describe call is answered, nothing is missed. */
  ghost predicate Answering(answers: seq<bool>, answers': seq<bool>, missed: set<ShardId>) {
    Responsive(answers) ==> Responsive(answers') && missed == {}
  }

  lemma AnsweringOn(answers: seq<bool>, before: seq<bool>, after: seq<bool>, missed: set<ShardId>, ok: bool)
    requires Answering(answers, before, missed) && (ok <==> Heard(before, 0)) && after == Later(before, if ok then 1 else 2)
    ensures ok ==> Answering(answers, after, missed)
    ensures !ok ==> !Responsive(answers)
  {
  }

  lemma AnsweringBegins(answers: seq<bool>)
    ensures Answering(answers, answers, {})
  {
  }

  lemma AnswersOn(o: Office, o': Office, rows: map<ShardId, Row>, p: ShardId, answers: seq<bool>, before: seq<bool>,
                  after: seq<bool>, tried: seq<ShardId>, ok: bool, missed: set<ShardId>)
    requires Synced(o, o', rows, p, before, after, tried, ok) && Answering(answers, before, missed)
    ensures Answering(answers, after, if ok then missed else missed + {p})
  {
    AnsweringOn(answers, before, after, missed, ok);
  }

  lemma ProgressBegins(o: Office, rows: map<ShardId, Row>)
    ensures Progress(o, o, rows, CompletedIn(rows), {}, {}) && Attempts(o, o, rows, {}, [])
  {
  }

  lemma ProgressPasses(o: Office, o': Office, rows: map<ShardId, Row>, left: set<ShardId>, newly: set<ShardId>,
                       missed: set<ShardId>, p: ShardId)
    requires Progress(o, o', rows, left, newly, missed) && !IsNewlyCompleted(rows, o.synced, p)
    ensures Progress(o, o', rows, left - {p}, newly, missed)
  {
    hide IsNewlyCompleted;
  }

  lemma ProgressAsks(o: Office, o': Office, o'': Office, rows: map<ShardId, Row>, left: set<ShardId>, newly: set<ShardId>,
                     missed: set<ShardId>, p: ShardId, answers: seq<bool>, answers': seq<bool>, more: seq<ShardId>)
    requires Progress(o, o', rows, left, newly, missed) && Synced(o', o'', rows, p, answers, answers', more, true)
    requires IsNewlyCompleted(rows, o.synced, p) && p in left && p !in o.synced
    ensures Progress(o, o'', rows, left - {p}, newly + {p}, missed)
  {
    hide IsNewlyCompleted, Discovered, NewChildren, Elems, Heard;
    assert p !in newly && p !in missed;
    assert |newly + {p}| == |newly| + 1 && o.synced + newly + {p} == o.synced + (newly + {p});
  }

  lemma ProgressMisses(o: Office, o': Office, o'': Office, rows: map<ShardId, Row>, left: set<ShardId>, newly: set<ShardId>,
                       missed: set<ShardId>, p: ShardId, answers: seq<bool>, answers': seq<bool>, more: seq<ShardId>)
    requires Progress(o, o', rows, left, newly, missed) && Synced(o', o'', rows, p, answers, answers', more, false)
    requires IsNewlyCompleted(rows, o.synced, p) && p in left
    ensures Progress(o, o'', rows, left - {p}, newly, missed + {p})
  {
    hide IsNewlyCompleted, Discovered, NewChildren, Elems, Heard;
    assert p !in newly && p !in missed;
    assert |missed + {p}| == |missed| + 1;
  }

  lemma ElemsJoin(a: seq<ShardId>, b: seq<ShardId>)
    ensures Elems(a + b) == Elems(a) + Elems(b)
  {
  }

  lemma AttemptsGrow(o: Office, o': Office, o'': Office, rows: map<ShardId, Row>, newly: set<ShardId>, tried: seq<ShardId>,
                     p: ShardId, answers: seq<bool>, answers': seq<bool>, more: seq<ShardId>, ok: bool)
    requires Attempts(o, o', rows, newly, tried) && Synced(o', o'', rows, p, answers, answers', more, ok) && Stands(rows, p)
    ensures Attempts(o, o'', rows, if ok then newly + {p} else newly, tried + more)
  {
    ElemsJoin(tried, more);
    SameDiscoveries(o.st, o'.st, rows);
    ChildrenAreDiscovered(o.st, rows, p);
    hide Discovered, NewChildren, Elems, Heard;
  }

  lemma ChildrenAreDiscovered(st: State, rows: map<ShardId, Row>, p: ShardId)
    requires Stands(rows, p)
    ensures NewChildren(st.config, rows, p) <= Discovered(st, rows)
  {
  }

  lemma NewlyTest(o: Office, o': Office, rows: map<ShardId, Row>, left: set<ShardId>, newly: set<ShardId>,
                  missed: set<ShardId>, withChildren: set<ShardId>, p: ShardId)
    requires Progress(o, o', rows, left, newly, missed) && p in left && p in CompletedIn(rows)
    requires p in withChildren <==> exists c :: c in rows && p in rows[c].parents
    ensures IsNewlyCompleted(rows, o.synced, p) <==> p !in o.synced && p !in withChildren
    ensures IsNewlyCompleted(rows, o.synced, p) ==> IsNewlyCompleted(rows, o'.synced, p)
  {
    assert p !in newly;
  }

  lemma CompletedStands(rows: map<ShardId, Row>, p: ShardId)
    ensures p in CompletedIn(rows) <==> Stands(rows, p)
  {
  }

  lemma MaySync(o: Office, rows: map<ShardId, Row>, p: ShardId)
    requires AtDesk(o) && o.seeded && rows == At(o.st, o.leader).stage.rows && IsNewlyCompleted(rows, o.synced, p)
    ensures Allowed(o, Sync(p))
  {
  }

  lemma SameDiscoveries(st: State, st': State, rows: map<ShardId, Row>)
    requires st'.config == st.config
    ensures Discovered(st', rows) == Discovered(st, rows)
  {
    forall s ensures Discoverable(st', rows, s) <==> Discoverable(st, rows, s) {}
  }

  lemma ReadyAfter(o: Office, rows: map<ShardId, Row>)
    requires At(o.st, o.leader).stage.Leading? && rows == At(o.st, o.leader).stage.rows
    requires Left(o.errand) == Discovered(o.st, rows)
    ensures ReadyToCreate(o)
  {
    hide At;
  }

  lemma ChildrenReady(o: Office, p: ShardId, rows: map<ShardId, Row>)
    requires At(o.st, o.leader).stage.Leading? && rows == At(o.st, o.leader).stage.rows && Stands(rows, p)
    requires Left(o.errand) == NewChildren(o.st.config, rows, p)
    ensures ReadyToCreate(o)
  {
    hide At;
  }

  lemma SeedTest(st: State, rows: map<ShardId, Row>, s: ShardId)
    requires s in st.config.parent
    ensures (forall p :: p in ParentList(st, s) ==> p in CompletedIn(rows)) && s !in rows.Keys <==> Discoverable(st, rows, s)
  {
    if st.config.parent[s].Some? {
      assert st.config.parent[s].value in ParentList(st, s);
    }
  }

  lemma {:induction false} MoveOn(o: Office, moves: seq<Move>, m: Move)
    requires Goes(o, moves) && Allowed(Ends(o, moves), m)
    ensures Goes(o, moves + [m]) && Ends(o, moves + [m]) == Took(Ends(o, moves), m)
    decreases |moves|
  {
    hide Allowed, Took;
    if moves == [] {
      assert moves + [m] == [m] && [m][1..] == [];
      assert Goes(Took(o, m), []) && Ends(Took(o, m), []) == Took(o, m);
    } else {
      MoveOn(Took(o, moves[0]), moves[1..], m);
      assert (moves + [m])[0] == moves[0];
      assert (moves + [m])[1..] == moves[1..] + [m];
    }
  }

  class Bureau {
    var seeded: bool
    var childSynced: set<ShardId>
    var office: Office
    var script: seq<Round>
    var answers: seq<bool>
    ghost const start: Office
    ghost var moves: seq<Move>

    ghost predicate Running()
      reads this
    {
      TakesOffice(start) && Goes(start, moves) && Ends(start, moves) == office
    }

    /** Between two calls of the sync. */
    ghost predicate Valid()
      reads this
    {
      Running() && seeded == office.seeded && childSynced == office.synced && office.errand.None?
    }

    constructor (st: State, leader: Worker, script: seq<Round>, answers: seq<bool>)
      requires Init(st)
      ensures Valid() && office.st == st && office.leader == leader
    {
      var opening := Office(st, leader, false, {}, None, 0, 0, false, [], {}, {});
      seeded, childSynced, office, this.script, this.answers := false, {}, opening, script, answers;
      start, moves := opening, [];
    }

    method Do(m: Move)
      requires Running() && Allowed(office, m)
      modifies this`office, this`moves
      ensures Running() && office == Took(old(office), m)
    {
      MoveOn(start, moves, m);
      office := Took(office, m);
      moves := moves + [m];
    }

    /** The rest of the fleet moves; then it is known whether the next create is refused. */
    method Wait() returns (refused: bool)
      requires Running()
      modifies this`office, this`moves, this`script
      ensures Running() && SameDesk(old(office), office) && office.errand == old(office).errand
      ensures office.posted == old(office).posted && office.refused == old(office).refused
      ensures office.st.published == old(office).st.published
      ensures refused == Denied(old(script), 0) && script == Later(old(script), 1)
    {
      if script == [] {
        return false;
      }
      var round := script[0];
      script := script[1..];
      for i := 0 to |round.others|
        invariant Running() && SameDesk(old(office), office) && office.errand == old(office).errand
        invariant office.posted == old(office).posted && office.refused == old(office).refused
        invariant office.st.published == old(office).st.published && script == Later(old(script), 1)
      {
        var a := round.others[i];
        if Enabled(office.st, a) && ByOther(a, office.leader) && !a.Publish? && !a.Collect? {
          hide Enabled, Apply;
          OthersSpareDesk(office, a);
          Do(Act(a));
        }
      }
      refused := round.refused;
    }

    /** One create, whose outcome the leader ignores: it is made exactly if the store does not refuse it. */
    method Create(s: ShardId)
      requires Running() && s in Left(office.errand) && ReadyToCreate(office)
      modifies this`office, this`moves, this`script
      ensures Running() && SameDesk(old(office), office) && office.errand == Less(old(office).errand, s)
      ensures ReadyToCreate(office)
      ensures script == Later(old(script), 1)
      ensures if Denied(old(script), 0) then
          && office.refused == old(office).refused + {s} && office.posted == old(office).posted
          && office.st.published == old(office).st.published
        else
          && office.posted == old(office).posted + [s] && office.refused == old(office).refused
          && office.st.published == old(office).st.published + {s}
    {
      var refused := Wait();
      PublishSparesDesk(office, s);
      hide Enabled, Apply;
      if refused {
        Do(Refuse(s));
      } else {
        Do(Act(Publish(office.leader, s)));
      }
    }

    method InOrder(ids: set<ShardId>) returns (list: seq<ShardId>)
      ensures Distinct(list) && forall s :: s in list <==> s in ids
    {
      list := [];
      var left := ids;
      while left != {}
        invariant left <= ids && Distinct(list) && forall s :: s in list <==> s in ids - left
        decreases |left|
      {
        var s :| s in left;
        PostOne(list, s);
        list := list + [s];
        left := left - {s};
      }
    }

    /** Whether the next describe call is answered. */
    method Answered() returns (ok: bool)
      modifies this`answers
      ensures ok == Heard(old(answers), 0) && answers == Later(old(answers), 1)
    {
      ok := answers == [] || answers[0];
      answers := if answers == [] then [] else answers[1..];
    }

    /** Every shard of the stream, for the seed. */
    method DescribeShards() returns (shards: Option<seq<ShardId>>)
      requires Running() && Allowed(office, Seed)
      modifies this`office, this`moves, this`answers
      ensures Running() && office == Took(old(office), if shards.Some? then Seed else SeedFails)
      ensures (shards.Some? <==> Heard(old(answers), 0)) && answers == Later(old(answers), 1)
      ensures shards.Some? ==> Distinct(shards.value) && forall s :: s in shards.value <==> s in office.st.config.parent
    {
      var ok := Answered();
      if !ok {
        Do(SeedFails);
        return None;
      }
      Do(Seed);
      var list := InOrder(office.st.config.parent.Keys);
      shards := Some(list);
    }

    /** The children of one shard; a failure is counted with the call that stands in. */
    method DescribeChildShards(p: ShardId) returns (shards: Option<seq<ShardId>>)
      requires Running() && Allowed(office, Sync(p))
      modifies this`office, this`moves, this`answers
      ensures Running() && office == if shards.Some? then Took(old(office), Sync(p)) else old(office)
      ensures (shards.Some? <==> Heard(old(answers), 0)) && answers == Later(old(answers), 1)
      ensures shards.Some? ==> Distinct(shards.value) && forall s :: s in shards.value <==> ChildOf(office.st.config, s, p)
    {
      var ok := Answered();
      if !ok {
        return None;
      }
      Do(Sync(p));
      var list := InOrder(set c | c in office.st.config.parent && ChildOf(office.st.config, c, p));
      shards := Some(list);
    }

    /** Every shard of the stream, after the children of `p` could not be described. */
    method DescribeInstead(p: ShardId) returns (shards: Option<seq<ShardId>>)
      requires Running() && Allowed(office, Sync(p))
      modifies this`office, this`moves, this`answers
      ensures Running() && office == Took(old(office), SyncFails(p, shards.Some?))
      ensures (shards.Some? <==> Heard(old(answers), 0)) && answers == Later(old(answers), 1)
      ensures shards.Some? ==> Distinct(shards.value) && forall s :: s in shards.value <==> s in office.st.config.parent
    {
      var ok := Answered();
      Do(SyncFails(p, ok));
      if ok {
        var list := InOrder(office.st.config.parent.Keys);
        shards := Some(list);
      } else {
        shards := None;
      }
    }

    predicate MayBePublished(s: ShardId, gated: bool, completed: set<ShardId>, existing: set<ShardId>)
      requires s in office.st.config.parent
      reads this`office
    {
      (gated ==> forall p :: p in ParentList(office.st, s) ==> p in completed) && s !in existing
    }

    /** Publish the new ones of a list, `gated` on complete parents: the whole errand, each once. */
    method PublishNew(shards: seq<ShardId>, gated: bool, completed: set<ShardId>, existing: set<ShardId>)
      returns (ghost tried: seq<ShardId>)
      requires Running() && office.errand.Some? && ReadyToCreate(office) && Distinct(shards)
      requires forall s :: s in Left(office.errand) ==> s in shards
      requires forall s :: s in shards ==> s in office.st.config.parent
      requires forall s :: s in shards ==>
        (MayBePublished(s, gated, completed, existing) <==> s in Left(office.errand))
      modifies this`office, this`moves, this`script
      ensures Running() && SameDesk(old(office), office) && Left(office.errand) == {}
      ensures SameErrand(old(office).errand, office.errand)
      ensures Distinct(tried) && Elems(tried) == Left(old(office).errand)
      ensures Stored(old(office), office, old(script), script, tried)
    {
      hide Stored, Discoverable, ReadyToCreate, TakesOffice, Goes, Ends, Enabled, Apply, ParentList;
      tried := [];
      StoredNone(office, office, script);
      for i := 0 to |shards|
        invariant Running() && SameDesk(old(office), office) && ReadyToCreate(office)
        invariant SameErrand(old(office).errand, office.errand)
        invariant forall s :: s in shards[..i] ==> s !in Left(office.errand)
        invariant forall j :: i <= j < |shards| ==> (shards[j] in Left(office.errand) <==> shards[j] in Left(old(office).errand))
        invariant Distinct(tried) && (forall s :: s in tried ==> s in shards[..i])
        invariant Left(old(office).errand) == Left(office.errand) + Elems(tried)
        invariant Stored(old(office), office, old(script), script, tried)
      {
        var s := shards[i];
        assert shards[..i + 1] == shards[..i] + [s] && s !in shards[..i];
        ParentsStay(old(office), office, s);
        if (gated ==> forall p :: p in ParentList(office.st, s) ==> p in completed) && s !in existing {
          ghost var before, round := office, script;
          Create(s);
          StoredOne(before, office, round, script, s);
          StoredPush(old(office), before, office, old(script), round, script, tried, s);
          PostOne(tried, s);
          tried := tried + [s];
        }
      }
      assert shards[..|shards|] == shards && Left(office.errand) == {};
    }

    /** An errand for every shard a full describe shows: those that are missing and pass the gate. */
    method PublishGated(shards: seq<ShardId>, completed: set<ShardId>, rows: map<ShardId, Row>)
      returns (ghost tried: seq<ShardId>)
      requires Running() && office.errand.Some? && ReadyToCreate(office) && Distinct(shards)
      requires rows == At(office.st, office.leader).stage.rows && completed == CompletedIn(rows)
      requires forall s :: s in shards <==> s in office.st.config.parent
      requires Left(office.errand) == Discovered(office.st, rows)
      modifies this`office, this`moves, this`script
      ensures Running() && SameDesk(old(office), office) && Left(office.errand) == {}
      ensures SameErrand(old(office).errand, office.errand)
      ensures Distinct(tried) && Elems(tried) == Discovered(old(office).st, rows)
      ensures Stored(old(office), office, old(script), script, tried)
    {
      hide Stored, TakesOffice, Goes, Ends, Enabled, Apply, At, Discoverable, ParentList, ReadyToCreate;
      forall s | s in shards
        ensures MayBePublished(s, true, completed, rows.Keys) <==> s in Left(office.errand)
      {
        SeedTest(office.st, rows, s);
      }
      tried := PublishNew(shards, true, completed, rows.Keys);
    }

    /** The one-time seed: every shard whose parents are all complete, if it has no row. */
    method SeedOnce(rows: map<ShardId, Row>, completed: set<ShardId>) returns (ok: bool, ghost tried: seq<ShardId>)
      requires Valid() && AtDesk(office) && !seeded
      requires rows == At(office.st, office.leader).stage.rows && completed == CompletedIn(rows)
      modifies this
      ensures Valid() && AtDesk(office) && (ok <==> seeded) && childSynced == old(childSynced)
      ensures office.leader == old(office).leader && office.st.config == old(office).st.config
      ensures rows == At(office.st, office.leader).stage.rows && office.fell == old(office).fell
      ensures office.describes == old(office).describes + 1 && office.extra == old(office).extra + if ok then 0 else 1
      ensures ok <==> Heard(old(answers), 0)
      ensures !ok ==> office.st == old(office).st && tried == []
      ensures ok ==> Distinct(tried) && Elems(tried) == Discovered(old(office).st, rows)
      ensures Stored(old(office), office, old(script), script, tried)
      ensures ok && Calm(old(script)) ==> Discovered(old(office).st, rows) <= office.st.published
    {
      hide TakesOffice, Goes, Ends, Enabled, Apply, At, Discovered, Kept, Lost, Calm;
      var shards := DescribeShards();
      if shards.None? {
        StoredNone(old(office), office, script);
        return false, [];
      }
      ghost var asked := office;
      ReadyAfter(office, rows);
      tried := PublishGated(shards.value, completed, rows);
      if Calm(old(script)) {
        CalmStored(asked, office, old(script), script, tried);
      }
      Do(Done);
      seeded, ok := true, true;
    }

    /**
     Ask for the children of one completed shard, and create those without a row. If they
     cannot be described, a full describe stands in, if it is answered, and nothing is marked.
     */
    method SyncParent(p: ShardId, rows: map<ShardId, Row>, completed: set<ShardId>)
      returns (ok: bool, ghost tried: seq<ShardId>)
      requires Running() && Allowed(office, Sync(p))
      requires rows == At(office.st, office.leader).stage.rows && completed == CompletedIn(rows)
      modifies this`office, this`moves, this`script, this`answers
      ensures Running() && AtDesk(office) && office.seeded == old(office).seeded
      ensures rows == At(office.st, office.leader).stage.rows
      ensures Synced(old(office), office, rows, p, old(answers), answers, tried, ok)
      ensures Stored(old(office), office, old(script), script, tried)
    {
      hide TakesOffice, Goes, Ends, Enabled, Apply, At, Discovered, Kept, Lost;
      var shards := DescribeChildShards(p);
      if shards.Some? {
        ChildrenReady(office, p, rows);
        tried := PublishNew(shards.value, false, {}, rows.Keys);
        Do(Done);
        return true, tried;
      }
      tried := [];
      var all := DescribeInstead(p);
      StoredNone(old(office), office, script);
      if all.Some? {
        ReadyAfter(office, rows);
        tried := PublishGated(all.value, completed, rows);
        Do(Done);
      }
      ok := false;
    }

    /**
     Ask for the children of each completed shard not asked for yet that has no child row.
     `missed` are those that could not be described; they stay to be asked for.
     */
    method SyncCompleted(rows: map<ShardId, Row>, completed: set<ShardId>, withChildren: set<ShardId>)
      returns (newly: set<ShardId>, ghost missed: set<ShardId>, ghost tried: seq<ShardId>)
      requires Valid() && AtDesk(office) && office.seeded && rows == At(office.st, office.leader).stage.rows
      requires completed == CompletedIn(rows)
      requires forall p :: p in withChildren <==> exists c :: c in rows && p in rows[c].parents
      modifies this`office, this`moves, this`script, this`answers
      ensures Running() && AtDesk(office) && office.seeded && rows == At(office.st, office.leader).stage.rows
      ensures Progress(old(office), office, rows, {}, newly, missed) && Attempts(old(office), office, rows, newly, tried)
      ensures Stored(old(office), office, old(script), script, tried) && Answering(old(answers), answers, missed)
    {
      hide Progress, Attempts, Synced, Stored, Answering, Heard, IsNewlyCompleted, CompletedIn, Allowed, TakesOffice, Goes, Ends, At, Enabled;
      ProgressBegins(office, rows);
      StoredNone(office, office, script);
      newly, missed, tried := {}, {}, [];
      var left := completed;
      AnsweringBegins(answers);
      while left != {}
        invariant Running() && AtDesk(office) && office.seeded && rows == At(office.st, office.leader).stage.rows
        invariant left <= completed && Progress(old(office), office, rows, left, newly, missed)
        invariant Attempts(old(office), office, rows, newly, tried)
        invariant Stored(old(office), office, old(script), script, tried) && Answering(old(answers), answers, missed)
        decreases |left|
      {
        var p :| p in left;
        NewlyTest(old(office), office, rows, left, newly, missed, withChildren, p);
        if p !in childSynced && p !in withChildren {
          ghost var before, round, heard := office, script, answers;
          MaySync(office, rows, p);
          var ok;
          ghost var more;
          ok, more := SyncParent(p, rows, completed);
          StoredJoin(old(office), before, office, old(script), round, script, tried, more);
          AnswersOn(before, office, rows, p, old(answers), heard, answers, more, ok, missed);
          CompletedStands(rows, p);
          AttemptsGrow(old(office), before, office, rows, newly, tried, p, heard, answers, more, ok);
          if ok {
            ProgressAsks(old(office), before, office, rows, left, newly, missed, p, heard, answers, more);
            newly := newly + {p};
          } else {
            ProgressMisses(old(office), before, office, rows, left, newly, missed, p, heard, answers, more);
            missed := missed + {p};
          }
          tried := tried + more;
        } else {
          ProgressPasses(old(office), office, rows, left, newly, missed, p);
        }
        left := left - {p};
      }
    }

    lemma AskedIfNamed(rows: map<ShardId, Row>)
      requires Valid() && AtDesk(office) && office.seeded && rows == At(office.st, office.leader).stage.rows && !office.fell
      ensures forall p :: Stands(rows, p) && p !in childSynced ==> IsNewlyCompleted(rows, childSynced, p)
    {
      OfficeOpens(start);
      TenureAlways(start, moves);
      hide Tenure, TakesOffice, Goes, Ends, At;
      forall p | Stands(rows, p) && p !in childSynced ensures IsNewlyCompleted(rows, childSynced, p) {
        CompletedIsAskedFor(office, p);
      }
    }

    /**
     Seed once; from then on ask for the children of each completed shard that the scan
     shows, unless it was asked for before or already has a child row. A seed that cannot be
     described is an error; a shard whose children cannot be described is left for next time.
     `tried` are the creates that were attempted, in order.
     */
    method LeaderShardSync(rows: map<ShardId, Row>)
      returns (ok: bool, ghost missed: set<ShardId>, ghost tried: seq<ShardId>)
      requires Valid() && AtDesk(office) && rows == At(office.st, office.leader).stage.rows
      modifies this
      ensures Valid() && AtDesk(office) && (ok <==> seeded)
      ensures ok <==> old(seeded) || Heard(old(answers), 0)
      ensures rows == At(office.st, office.leader).stage.rows
      ensures Stored(old(office), office, old(script), script, tried)
      ensures !old(seeded) ==> childSynced == old(childSynced) && office.describes == old(office).describes + 1
      ensures !ok ==> office.st == old(office).st && tried == []
      ensures ok && !old(seeded) ==> Elems(tried) == Discovered(old(office).st, rows)
      ensures old(seeded) ==> Elems(tried) <= Discovered(old(office).st, rows)
      ensures old(seeded) ==> forall p :: p in childSynced <==>
        p in old(childSynced) || (IsNewlyCompleted(rows, old(childSynced), p) && p !in missed)
      ensures old(seeded) ==> office.describes == old(office).describes + |childSynced - old(childSynced)| + 2 * |missed|
      ensures old(seeded) ==> forall p :: p in childSynced - old(childSynced) ==>
        NewChildren(office.st.config, rows, p) <= Elems(tried)
      ensures old(seeded) && office.fell && !old(office).fell ==> Elems(tried) == Discovered(old(office).st, rows)
      ensures old(seeded) && Responsive(old(answers)) ==> missed == {} && office.fell == old(office).fell
      ensures old(seeded) && missed == {} && !office.fell ==> CompletedIn(rows) <= childSynced
      // If the store refuses nothing, what is asked for is published.
      ensures Calm(old(script)) && ok && !old(seeded) ==> Discovered(old(office).st, rows) <= office.st.published
      ensures Calm(old(script)) && old(seeded) ==> forall p :: p in childSynced - old(childSynced) ==>
        NewChildren(office.st.config, rows, p) <= office.st.published
    {
      hide NewChildren, TakesOffice, Goes, Ends, At, Took, Enabled, ChildOf, Discovered, Tenure, IsNewlyCompleted;
      hide Stored, Calm, Heard, Responsive;
      missed := {};
      var completed := CompletedIn(rows);
      if !seeded {
        ok, tried := SeedOnce(rows, completed);
        return;
      }
      if !office.fell {
        AskedIfNamed(rows);
      }
      var withChildren := set c, p | c in rows && p in rows[c].parents :: p;
      var newly;
      newly, missed, tried := SyncCompleted(rows, completed, withChildren);
      if Calm(old(script)) {
        CalmStored(old(office), office, old(script), script, tried);
      }
      childSynced, ok := childSynced + newly, true;
      assert childSynced - old(childSynced) == newly;
    }
  }
}
