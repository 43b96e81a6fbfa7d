/**
 A run from a fresh table in which a durable checkpoint moves backwards: one worker defers
 an ack of one record, loses the lease to another, which checkpoints three, and takes it
 back before its next prune.
 */
module FleetWitness {
  import opened Types
  import opened LeaseTable
  import opened Fleet
  import opened FleetFrames
  import opened FleetSafety
  import opened FleetFencing
  import opened FleetCheckpoints
  import opened FleetGuard

  lemma Follow(start: State, acts: seq<Action>, st: State, a: Action, st': State)
    requires Reaches(start, acts, st) && Step(st, a, st')
    ensures Reaches(start, acts + [a], st')
  {
    ReachThenStep(start, acts, st, a);
  }

  /** A worker between two cycles. */
  predicate Resting(st: State, w: Worker) {
    At(st, w).stage.Idle? && At(st, w).passes == map[]
  }

  /** Only worker `w` moved, and the source stayed as it was. */
  ghost predicate OnlyBy(st: State, st': State, w: Worker) {
    && st'.config == st.config && st'.logs == st.logs
    && forall v: Worker :: v != w ==> At(st', v) == At(st, v)
  }

  /** Nothing is published or collected, and nobody crashes. */
  ghost predicate Quiet(acts: seq<Action>) {
    forall a :: a in acts ==> !a.Publish? && !a.Collect? && !a.Crash?
  }

  function TakenRows(st: State, w: Worker, s: ShardId): map<ShardId, Row>
    requires s in st.table
  {
    st.table[s := st.table[s].(owner := Some(w), counter := st.table[s].counter + 1)]
  }

  lemma Scans(st: State, w: Worker) returns (st': State, acts: seq<Action>)
    requires Resting(st, w)
    ensures Reaches(st, acts, st') && OnlyBy(st, st', w) && st'.table == st.table
    ensures At(st', w) == At(st, w).(stage := Claiming(st.table, None))
  {
    hide Reaches;
    var st1 := Put(st, w, At(st, w).(stage := Leading(st.table)));
    assert Step(st, BeginCycle(w), st1);
    ReachNone(st);
    Follow(st, [], st, BeginCycle(w), st1);
    st' := Put(st1, w, At(st1, w).(stage := Claiming(st.table, None)));
    assert Step(st1, ScanForTake(w), st');
    acts := [] + [BeginCycle(w)];
    Follow(st, acts, st1, ScanForTake(w), st');
    acts := acts + [ScanForTake(w)];
  }

  lemma Claims(st: State, w: Worker, s: ShardId) returns (st': State, acts: seq<Action>)
    requires At(st, w).stage == Claiming(st.table, None) && s in st.table && !st.table[s].completed
    ensures Reaches(st, acts, st') && OnlyBy(st, st', w) && st'.table == TakenRows(st, w, s) && Quiet(acts)
    ensures At(st', w) == At(st, w) && st'.published == st.published
  {
    hide Reaches;
    var seen := st.table[s].counter;
    var st1 := Put(st, w, At(st, w).(stage := Claiming(st.table, Some((s, seen)))));
    assert Step(st, AcquireRead(w, s), st1);
    ReachNone(st);
    Follow(st, [], st, AcquireRead(w, s), st1);
    st' := Put(TakenOver(st1, s, TakenRows(st, w, s)), w, At(st, w));
    assert Step(st1, AcquireClaim(w, true), st');
    acts := [] + [AcquireRead(w, s)];
    Follow(st, acts, st1, AcquireClaim(w, true), st');
    acts := acts + [AcquireClaim(w, true)];
  }

  lemma Relists(st: State, w: Worker, s: ShardId) returns (st': State, acts: seq<Action>)
    requires At(st, w).stage.Claiming? && s in Owned(st.table, w)
    ensures Reaches(st, acts, st') && OnlyBy(st, st', w) && st'.table == st.table && Quiet(acts)
    ensures st'.published == st.published
    ensures At(st', w).stage == Running(st.table, st.terms, {}) && At(st', w).passes == At(st, w).passes
    ensures At(st', w).pending.Keys <= At(st, w).pending.Keys
    ensures s in At(st', w).pending <==> s in At(st, w).pending
    ensures s in At(st, w).pending ==> At(st', w).pending[s] == At(st, w).pending[s]
  {
    st' := Apply(st, ScanForRun(w));
    assert Step(st, ScanForRun(w), st');
    ReachNone(st);
    Follow(st, [], st, ScanForRun(w), st');
    acts := [] + [ScanForRun(w)];
  }

  lemma {:induction false} ReachOn(start: State, acts: seq<Action>, mid: State, more: seq<Action>, end: State)
    requires Reaches(start, acts, mid) && Reaches(mid, more, end)
    ensures Reaches(start, acts + more, end)
    decreases |acts|
  {
    if acts == [] {
      assert acts + more == more;
    } else {
      ReachOn(Apply(start, acts[0]), acts[1..], mid, more, end);
      assert (acts + more)[0] == acts[0] && (acts + more)[1..] == acts[1..] + more;
    }
  }

  /** A resting worker runs a cycle up to its passes, taking the lease of `s` on the way. */
  lemma TakesLease(st: State, w: Worker, s: ShardId) returns (st': State, acts: seq<Action>)
    requires Resting(st, w) && s in st.table && !st.table[s].completed
    ensures Reaches(st, acts, st') && OnlyBy(st, st', w) && st'.table == TakenRows(st, w, s)
    ensures At(st', w).stage.Running? && At(st', w).stage.rows == st'.table && At(st', w).stage.started == {}
    ensures At(st', w).passes == map[]
    ensures s in At(st', w).pending <==> s in At(st, w).pending
    ensures s in At(st, w).pending ==> At(st', w).pending[s] == At(st, w).pending[s]
  {
    hide Reaches, Apply, Enabled;
    var st1, acts1 := Scans(st, w);
    var st2, acts2 := Claims(st1, w, s);
    var acts3;
    st', acts3 := Relists(st2, w, s);
    ReachOn(st, acts1, st1, acts2, st2);
    ReachOn(st, acts1 + acts2, st2, acts3, st');
    acts := acts1 + acts2 + acts3;
  }

  /** The worker's pass is handed `n` records in one batch. */
  lemma Reads(st: State, w: Worker, s: ShardId, n: nat) returns (st': State, acts: seq<Action>)
    requires Enabled(st, StartPass(w, s)) && At(st, w).passes == map[] && n > 0
    requires s in st.logs && Resume(At(st, w), At(st, w).stage.rows, s) + n <= st.logs[s].len
    ensures Reaches(st, acts, st') && OnlyBy(st, st', w) && st'.table == st.table && HasPass(st', w, s)
    ensures PassOf(st', w, s).phase == Holding(n, false) && At(st', w).passes.Keys == {s}
    ensures PassOf(st', w, s).after == Resume(At(st, w), At(st, w).stage.rows, s)
    ensures PassOf(st', w, s).counter == At(st, w).stage.rows[s].counter
    ensures At(st', w).pending == At(st, w).pending && At(st', w).stage.Running?
  {
    hide Reaches;
    var st1 := Started(st, w, s);
    assert Step(st, StartPass(w, s), st1);
    ReachNone(st);
    Follow(st, [], st, StartPass(w, s), st1);
    st' := Fetched(st1, w, s, n, false);
    assert Step(st1, Read(w, s, n, false), st');
    acts := [] + [StartPass(w, s)];
    Follow(st, acts, st1, Read(w, s, n, false), st');
    acts := acts + [Read(w, s, n, false)];
  }

  /** A worker that defers delivers the batch, keeps the ack in memory, finds no more and rests. */
  lemma DefersAck(st: State, w: Worker, s: ShardId) returns (st': State, acts: seq<Action>)
    requires HasPass(st, w, s) && PassOf(st, w, s).phase.Holding? && !PassOf(st, w, s).phase.end
    requires At(st, w).passes.Keys == {s} && w in st.config.deferred && At(st, w).stage.Running?
    requires s in st.logs && PassOf(st, w, s).phase.count > 0
    requires PassOf(st, w, s).after + PassOf(st, w, s).phase.count <= st.logs[s].len
    ensures Reaches(st, acts, st') && OnlyBy(st, st', w) && st'.table == st.table && Resting(st', w)
    ensures s in At(st', w).pending
    ensures At(st', w).pending[s].ack == PassOf(st, w, s).after + PassOf(st, w, s).phase.count
  {
    hide Reaches;
    var p := PassOf(st, w, s);
    var ack := p.after + p.phase.count;
    var told := Deliver(w, s, Acked(ack), false);
    var st1 := Delivered(st, w, s, Acked(ack), false);
    assert Step(st, told, st1);
    ReachNone(st);
    Follow(st, [], st, told, st1);
    acts := [] + [told];
    assert PassOf(st1, w, s) == AfterBatch(p, ack, false);
    var acts2;
    st', acts2 := Rests(st1, w, s);
    ReachOn(st, acts, st1, acts2, st');
    acts := acts + acts2;
  }

  lemma Rests(st: State, w: Worker, s: ShardId) returns (st': State, acts: seq<Action>)
    requires HasPass(st, w, s) && PassOf(st, w, s).phase.Reading? && At(st, w).passes.Keys == {s}
    requires s in st.logs && PassOf(st, w, s).after <= st.logs[s].len && At(st, w).stage.Running?
    ensures Reaches(st, acts, st') && OnlyBy(st, st', w) && st'.table == st.table && Resting(st', w)
    ensures At(st', w).pending == At(st, w).pending
  {
    hide Reaches;
    var st1 := Fetched(st, w, s, 0, false);
    assert Step(st, Read(w, s, 0, false), st1);
    ReachNone(st);
    Follow(st, [], st, Read(w, s, 0, false), st1);
    assert At(st1, w).passes == map[];
    st' := Put(st1, w, At(st1, w).(stage := Idle));
    assert Step(st1, EndCycle(w), st');
    acts := [] + [Read(w, s, 0, false)];
    Follow(st, acts, st1, EndCycle(w), st');
    acts := acts + [EndCycle(w)];
  }

  /** A worker delivers the batch and saves its end: at once per batch, or because a deferred ack is due. */
  lemma SavesAck(st: State, w: Worker, s: ShardId) returns (st': State, acts: seq<Action>)
    requires HasPass(st, w, s) && PassOf(st, w, s).phase.Holding?
    requires PassOf(st, w, s).phase.count > 0 && Held(st.table, s, w, PassOf(st, w, s).counter)
    ensures Reaches(st, acts, st') && OnlyBy(st, st', w) && s in st'.table
    ensures st'.table[s].checkpoint == PassOf(st, w, s).after + PassOf(st, w, s).phase.count
    ensures st'.table[s].completed == st.table[s].completed && st'.table[s].parents == st.table[s].parents
  {
    hide Reaches;
    var p := PassOf(st, w, s);
    var ack := p.after + p.phase.count;
    var told := Deliver(w, s, Acked(ack), true);
    var st1 := Delivered(st, w, s, Acked(ack), true);
    assert Step(st, told, st1);
    ReachNone(st);
    Follow(st, [], st, told, st1);
    acts := [] + [told];
    assert PassOf(st1, w, s) == p.(phase := Saving(ack, ack, p.phase.end)) && st1.table == st.table;
    st' := Saved(st1, w, s, Landed);
    assert Step(st1, Save(w, s, Landed), st');
    Follow(st, acts, st1, Save(w, s, Landed), st');
    acts := acts + [Save(w, s, Landed)];
  }

  /** From a fresh table a worker publishes a root and rests. */
  lemma PublishesRoot(st: State, w: Worker, s: ShardId) returns (st': State, acts: seq<Action>)
    requires Init(st) && s in st.config.parent && st.config.parent[s].None?
    ensures Reaches(st, acts, st') && OnlyBy(st, st', w) && Resting(st', w) && At(st', w).pending == map[]
    ensures st'.table == map[s := Row(None, 0, 0, false, [])]
  {
    hide Reaches;
    var st1 := Put(st, w, At(st, w).(stage := Leading(map[])));
    assert Step(st, BeginCycle(w), st1);
    ReachNone(st);
    Follow(st, [], st, BeginCycle(w), st1);
    var st2 := Apply(st1, Publish(w, s));
    assert Step(st1, Publish(w, s), st2);
    acts := [] + [BeginCycle(w)];
    Follow(st, acts, st1, Publish(w, s), st2);
    acts := acts + [Publish(w, s)];
    st' := Put(st2, w, At(st2, w).(stage := Idle));
    assert Step(st2, EndCycle(w), st');
    Follow(st, acts, st2, EndCycle(w), st');
    acts := acts + [EndCycle(w)];
  }

  lemma MayStart(st: State, w: Worker, s: ShardId)
    requires At(st, w).stage.Running? && At(st, w).stage.started == {} && At(st, w).stage.rows == st.table
    requires s in st.table && st.table[s].owner == Some(w) && !st.table[s].completed && st.table[s].parents == []
    ensures Enabled(st, StartPass(w, s))
  {
  }

  /** First half: `w` defers an ack of one record, then `v` takes over and checkpoints three. */
  lemma Overtaken(st: State, w: Worker, v: Worker, s: ShardId) returns (st': State, acts: seq<Action>)
    requires Resting(st, w) && Resting(st, v) && v != w && w in st.config.deferred
    requires s in st.logs && st.logs[s].len >= 3 && st.table == map[s := Row(None, 0, 0, false, [])]
    requires At(st, w).pending == map[] && At(st, v).pending == map[]
    ensures Reaches(st, acts, st') && st'.config == st.config && st'.logs == st.logs && Resting(st', w)
    ensures s in At(st', w).pending && At(st', w).pending[s].ack == 1
    ensures s in st'.table && st'.table[s].checkpoint == 3 && !st'.table[s].completed && st'.table[s].parents == []
  {
    hide Reaches, Enabled, Owned;
    var st1, acts1 := TakesLease(st, w, s);
    MayStart(st1, w, s);
    var st2, acts2 := Reads(st1, w, s, 1);
    ReachOn(st, acts1, st1, acts2, st2);
    var st3, acts3 := DefersAck(st2, w, s);
    ReachOn(st, acts1 + acts2, st2, acts3, st3);
    var st4, acts4 := TakesLease(st3, v, s);
    ReachOn(st, acts1 + acts2 + acts3, st3, acts4, st4);
    MayStart(st4, v, s);
    var st5, acts5 := Reads(st4, v, s, 3);
    ReachOn(st, acts1 + acts2 + acts3 + acts4, st4, acts5, st5);
    var acts6;
    st', acts6 := SavesAck(st5, v, s);
    acts := acts1 + acts2 + acts3 + acts4 + acts5 + acts6;
    ReachOn(st, acts1 + acts2 + acts3 + acts4 + acts5, st5, acts6, st');
  }

  /** `w` holds the row again while its old ack of one record is still pending: the guard refuses the start. */
  lemma StartIsStale(st: State, w: Worker, s: ShardId)
    requires Inv(st) && w in st.config.deferred && Enabled(st, StartPass(w, s))
    requires s in st.table && st.table[s].owner == Some(w) && At(st, w).stage.rows == st.table
    requires s in At(st, w).pending && At(st, w).pending[s].ack + Slack(st.config) < st.table[s].checkpoint
    ensures StaleStart(st, w, s)
  {
    hide Inv;
  }

  /**
   With any deferring worker, any other worker, deferring or not, and any root shard of three
   records, some run from a fresh table lowers a durable checkpoint in place.
   */
  lemma DeferredGoesBack(st: State, w: Worker, v: Worker, s: ShardId)
    returns (acts: seq<Action>, mid: State, more: seq<Action>, end: State)
    requires Init(st) && w in st.config.deferred && v != w
    requires s in st.config.parent && st.config.parent[s].None? && s in st.logs && st.logs[s].len >= 3
    ensures Reaches(st, acts, mid) && Enabled(mid, StartPass(w, s)) && !NotBehind(mid, StartPass(w, s), s)
    ensures GoesTo(Started(mid, w, s), more, s, end) && |more| <= 4
    ensures s in mid.table && s in end.table && end.table[s].checkpoint < mid.table[s].checkpoint
  {
    hide Reaches, Enabled, Owned, Apply, GoesTo, NotBehind;
    var st1, acts1 := PublishesRoot(st, w, s);
    assert At(st, v) == FRESH;
    var st2, acts2 := Overtaken(st1, w, v, s);
    ReachOn(st, acts1, st1, acts2, st2);
    var acts3;
    mid, acts3 := TakesLease(st2, w, s);
    acts := acts1 + acts2 + acts3;
    ReachOn(st, acts1 + acts2, st2, acts3, mid);
    MayStart(mid, w, s);
    ReachedIsSafe(st, acts, mid);
    StartIsStale(mid, w, s);
    more, end := StaleStartGoesBack(mid, w, s);
  }

  lemma ReachedIsSafe(st: State, acts: seq<Action>, end: State)
    requires Init(st) && Reaches(st, acts, end)
    ensures Inv(end)
  {
    InvAlways(st, acts);
  }
}
