/**
 When nothing fails on a shard, each of its records is delivered exactly once, over any number
 of cycles and handovers, whatever becomes of other shards and their workers.
 */
module FleetExactlyOnce {
  import opened Types
  import opened LeaseTable
  import opened Fleet
  import opened FleetFrames
  import opened FleetSafety
  import FleetDelivery

  function RowAt(st: State, s: ShardId): Option<Row> {
    if s in st.table then Some(st.table[s]) else None
  }

  predicate OwnedBy(row: Option<Row>, v: Worker) {
    row.Some? && row.value.owner == Some(v)
  }

  // ---- A run without failures on one shard -------------------------------------------

  /** A worker with nothing of `s` under way: nothing is lost if the lease moves now. */
  predicate Quiet(l: Local, s: ShardId) {
    && s !in l.passes && s !in l.pending && !l.stage.Running?
    && (l.stage.Releasing? ==> s !in l.stage.held)
  }

  /** The lease of `s` is free, or its owner has nothing under way. */
  predicate MayMove(st: State, s: ShardId) {
    s in st.table && st.table[s].owner.Some? ==> Quiet(At(st, st.table[s].owner.value), s)
  }

  /**
   The step fails nothing on shard `s`: writes land, the consumer acks the whole batch, the
   lease only moves when its owner has let go, nobody crashes in the middle of `s`, and the
   row is not published a second time.
   */
  predicate Calm(st: State, s: ShardId, a: Action) {
    match a
    case Publish(_, t) => t == s && s !in st.table ==> s !in st.published
    case AcquireCreate(_, t) => t != s
    case AcquireClaim(w, landed) =>
      landed && At(st, w).stage.Claiming? && At(st, w).stage.read.Some? && At(st, w).stage.read.value.0 == s ==>
        MayMove(st, s)
    case Deliver(w, t, reply, _) =>
      t == s && HasPass(st, w, s) && PassOf(st, w, s).phase.Holding? ==>
        reply == Acked(PassOf(st, w, s).after + PassOf(st, w, s).phase.count)
    case Save(_, t, fate) => t == s ==> fate.Landed?
    case Flush(_, t, fate) => t == s ==> fate.Landed?
    case ReleaseFlush(_, t, fate) => t == s ==> fate.Landed?
    case Crash(w) => OwnedBy(RowAt(st, s), w) ==> s !in At(st, w).passes && s !in At(st, w).pending
    case _ => true
  }

  ghost predicate CalmRun(st: State, s: ShardId, acts: seq<Action>)
    requires Runs(st, acts)
    decreases |acts|
  {
    acts == [] || (Calm(st, s, acts[0]) && CalmRun(Apply(st, acts[0]), s, acts[1..]))
  }

  // ---- What such a run keeps ---------------------------------------------------------

  /** A pass of the owner stands exactly at the end of what was delivered. */
  predicate PassExact(p: Pass, row: Row, front: nat, pending: bool) {
    && p.counter == row.counter && !row.completed
    && match p.phase
       case Reading => p.after == front
       case Holding(_, _) => p.after == front
       case Saving(ack, next, _) => ack == front && next == front
       case Ending => true
       case Completing => !pending
  }

  /** A scan may start a pass on `s`. */
  predicate MayStart(stage: Stage, v: Worker, s: ShardId) {
    && stage.Running? && s in stage.rows && stage.rows[s].owner == Some(v) && !stage.rows[s].completed
    && s !in stage.started
  }

  predicate OwnerExact(l: Local, v: Worker, s: ShardId, row: Row, front: nat) {
    && (s in l.passes ==>
          && l.stage.Running? && s in l.stage.started
          && PassExact(l.passes[s], row, front, s in l.pending))
    && (MayStart(l.stage, v, s) ==> l.stage.rows[s] == row)
    && (l.stage.Releasing? && s in l.stage.held ==> l.stage.held[s] == row.counter && !row.completed)
    && (s in l.pending ==> l.pending[s].ack == front && !row.completed)
    && (s !in l.pending ==> row.checkpoint == front || (s in l.passes && l.passes[s].phase.Saving?))
  }

  predicate Bystander(l: Local, v: Worker, s: ShardId) {
    && s !in l.passes && s !in l.pending && !MayStart(l.stage, v, s)
    && (l.stage.Releasing? ==> s !in l.stage.held)
  }

  /** Only workers that defer have pending acks. */
  predicate LocalExact(config: Config, l: Local, v: Worker, s: ShardId, row: Option<Row>, front: nat) {
    && (s in l.pending ==> v in config.deferred)
    && if OwnedBy(row, v) then OwnerExact(l, v, s, row.value, front) else Bystander(l, v, s)
  }

  ghost predicate HeardOnce(hist: seq<Event>, s: ShardId, front: nat) {
    && (forall i :: 0 <= i < |hist| && hist[i].shard == s ==> hist[i].hi <= front)
    && (forall i, j :: 0 <= i < j < |hist| && hist[i].shard == s && hist[j].shard == s ==> hist[i].hi <= hist[j].lo)
  }

  predicate RowExact(st: State, s: ShardId) {
    && (s in st.table && st.table[s].owner.None? ==> st.table[s].checkpoint == Front(st, s))
    && (s in st.table ==> s in st.published)
    && (s !in st.published ==> Front(st, s) == 0)
  }

  ghost predicate Exact(st: State, s: ShardId) {
    && (forall v: Worker :: LocalExact(st.config, At(st, v), v, s, RowAt(st, s), Front(st, s)))
    && RowExact(st, s) && HeardOnce(st.hist, s, Front(st, s))
  }

  /** The frame: worker `w` moves, and the row moves only if it is `w`'s business. */
  lemma ExactFrame(st: State, st': State, s: ShardId, w: Worker)
    requires Exact(st, s) && st'.config == st.config && (forall v: Worker :: v != w ==> At(st', v) == At(st, v))
    requires LocalExact(st.config, At(st', w), w, s, RowAt(st', s), Front(st', s))
    requires RowExact(st', s) && HeardOnce(st'.hist, s, Front(st', s))
    requires || (RowAt(st', s) == RowAt(st, s) && Front(st', s) == Front(st, s))
             || (forall v: Worker :: v != w ==> !OwnedBy(RowAt(st', s), v) && !OwnedBy(RowAt(st, s), v))
    ensures Exact(st', s)
  {
    hide OwnerExact, Bystander, OwnedBy, RowExact, HeardOnce, Front, At;
    forall v: Worker ensures LocalExact(st.config, At(st', v), v, s, RowAt(st', s), Front(st', s)) {
      assert LocalExact(st.config, At(st, v), v, s, RowAt(st, s), Front(st, s));
    }
  }

  /** A step that leaves the row, the story and everyone else alone. */
  lemma ExactLocally(st: State, l: Local, w: Worker, s: ShardId)
    requires Exact(st, s) && LocalExact(st.config, l, w, s, RowAt(st, s), Front(st, s))
    ensures Exact(Put(st, w, l), s)
  {
    ExactFrame(st, Put(st, w, l), s, w);
  }

  /** A step that changes nothing about `s`. */
  lemma ExactElsewhere(st: State, st': State, s: ShardId)
    requires Exact(st, s) && st'.config == st.config && st'.locals == st.locals && st'.hist == st.hist && Front(st', s) == Front(st, s)
    requires RowAt(st', s) == RowAt(st, s) && st.published <= st'.published && (s in st'.published ==> s in st.published)
    ensures Exact(st', s)
  {
    assert LocalExact(st.config, At(st, 0), 0, s, RowAt(st, s), Front(st, s));
    assert At(st', 0) == At(st, 0);
    ExactFrame(st, st', s, 0);
  }

  // ---- Step by step ------------------------------------------------------------------

  lemma TableExact(st: State, s: ShardId, a: Action)
    requires Exact(st, s) && Enabled(st, a) && Calm(st, s, a) && (a.Publish? || a.Collect? || a.AcquireCreate?)
    ensures Exact(Apply(st, a), s)
  {
    var st' := Apply(st, a);
    if a.s != s || RowAt(st', s) == RowAt(st, s) {
      ExactElsewhere(st, st', s);
    } else if a.Publish? {
      ExactFrame(st, st', s, a.w);
    } else {
      var v := if st.table[s].owner.Some? then st.table[s].owner.value else 0;
      assert LocalExact(st.config, At(st, v), v, s, RowAt(st, s), Front(st, s));
      ExactFrame(st, st', s, v);
    }
  }

  /** Claiming, scanning, starting and ending cycles. */
  lemma StageExact(st: State, s: ShardId, a: Action)
    requires Exact(st, s) && Enabled(st, a)
    requires a.BeginCycle? || a.ScanForTake? || a.AcquireRead? || a.ScanForRun? || a.EndCycle? || a.BeginRelease?
    ensures Exact(Apply(st, a), s)
  {
    assert LocalExact(st.config, At(st, a.w), a.w, s, RowAt(st, s), Front(st, s));
    ExactLocally(st, At(Apply(st, a), a.w), a.w, s);
  }

  lemma ClaimExact(st: State, s: ShardId, w: Worker, landed: bool)
    requires Exact(st, s) && Enabled(st, AcquireClaim(w, landed)) && Calm(st, s, AcquireClaim(w, landed))
    ensures Exact(Apply(st, AcquireClaim(w, landed)), s)
  {
    var st' := Apply(st, AcquireClaim(w, landed));
    var (t, seen) := At(st, w).stage.read.value;
    assert LocalExact(st.config, At(st, w), w, s, RowAt(st, s), Front(st, s));
    if !landed || t != s {
      ExactLocally(st, At(st', w), w, s);
      ExactFrame(st, st', s, w);
    } else {
      ClaimedExact(st, s, w, seen);
    }
  }

  lemma ClaimedExact(st: State, s: ShardId, w: Worker, seen: nat)
    requires Exact(st, s) && Enabled(st, AcquireClaim(w, true)) && Calm(st, s, AcquireClaim(w, true))
    requires At(st, w).stage.read == Some((s, seen))
    ensures Exact(Apply(st, AcquireClaim(w, true)), s)
  {
    var st' := Apply(st, AcquireClaim(w, true));
    var was := st.table[s].owner;
    assert LocalExact(st.config, At(st, w), w, s, RowAt(st, s), Front(st, s));
    assert was.Some? ==> LocalExact(st.config, At(st, was.value), was.value, s, RowAt(st, s), Front(st, s));
    forall v: Worker ensures LocalExact(st.config, At(st', v), v, s, RowAt(st', s), Front(st', s)) {
      assert LocalExact(st.config, At(st, v), v, s, RowAt(st, s), Front(st, s));
    }
  }

  lemma StartExact(st: State, s: ShardId, w: Worker, t: ShardId)
    requires Exact(st, s) && Enabled(st, StartPass(w, t))
    ensures Exact(Apply(st, StartPass(w, t)), s)
  {
    var st' := Apply(st, StartPass(w, t));
    assert LocalExact(st.config, At(st, w), w, s, RowAt(st, s), Front(st, s));
    ExactFrame(st, st', s, w);
  }

  /** A worker's business with another shard leaves its view of `s` alone. */
  lemma ViewStays(config: Config, l: Local, l': Local, v: Worker, s: ShardId, row: Option<Row>, front: nat)
    requires LocalExact(config, l, v, s, row, front) && l'.stage == l.stage
    requires s in l.passes <==> s in l'.passes
    requires s in l.passes ==> l'.passes[s] == l.passes[s]
    requires s in l.pending <==> s in l'.pending
    requires s in l.pending ==> l'.pending[s] == l.pending[s]
    ensures LocalExact(config, l', v, s, row, front)
  {
  }

  lemma ReadExact(st: State, s: ShardId, w: Worker, count: nat, end: bool)
    requires Exact(st, s) && Enabled(st, Read(w, s, count, end))
    ensures Exact(Put(st, w, At(Fetched(st, w, s, count, end), w)), s)
  {
    assert LocalExact(st.config, At(st, w), w, s, RowAt(st, s), Front(st, s));
    FetchedExact(st, s, w, count, end);
    hide LocalExact, Exact, Enabled, Fetched;
    ExactLocally(st, At(Fetched(st, w, s, count, end), w), w, s);
  }

  lemma FetchedExact(st: State, s: ShardId, w: Worker, count: nat, end: bool)
    requires HasPass(st, w, s) && PassOf(st, w, s).phase.Reading?
    requires LocalExact(st.config, At(st, w), w, s, RowAt(st, s), Front(st, s))
    ensures LocalExact(st.config, At(Fetched(st, w, s, count, end), w), w, s, RowAt(st, s), Front(st, s))
  {
  }

  lemma TurnExact(st: State, s: ShardId, a: Action)
    requires Exact(st, s) && Enabled(st, a) && (a.ReadFails? || a.SkipFlush?) && a.s == s
    ensures Exact(Apply(st, a), s)
  {
    assert LocalExact(st.config, At(st, a.w), a.w, s, RowAt(st, s), Front(st, s));
    ExactLocally(st, At(Apply(st, a), a.w), a.w, s);
  }

  lemma ToldOnce(hist: seq<Event>, s: ShardId, front: nat, e: Event)
    requires HeardOnce(hist, s, front) && (e.shard == s ==> e.lo == front <= e.hi)
    ensures HeardOnce(hist + [e], s, if e.shard == s then e.hi else front)
  {
  }

  /** A delivery of another shard adds nothing to the story of `s`. */
  lemma OtherStory(st: State, s: ShardId, w: Worker, t: ShardId, reply: Reply, due: bool)
    requires HasPass(st, w, t) && PassOf(st, w, t).phase.Holding? && t != s && HeardOnce(st.hist, s, Front(st, s))
    ensures Front(Delivered(st, w, t, reply, due), s) == Front(st, s)
    ensures HeardOnce(Delivered(st, w, t, reply, due).hist, s, Front(st, s))
  {
    var p := PassOf(st, w, t);
    var e := Event(w, p.id, t, p.after, p.after + p.phase.count);
    ToldOnce(st.hist, s, Front(st, s), e);
    hide HeardOnce, Replied;
    ToldFrame(st, e);
  }

  /** A step of a pass on another shard. */
  lemma OtherPassExact(st: State, s: ShardId, a: Action)
    requires Exact(st, s) && Enabled(st, a) && OfPass(a) && !a.StartPass? && a.s != s
    ensures Exact(Apply(st, a), s)
  {
    var st' := Apply(st, a);
    assert LocalExact(st.config, At(st, a.w), a.w, s, RowAt(st, s), Front(st, s));
    if a.Deliver? {
      OtherStory(st, s, a.w, a.s, a.reply, a.due);
    }
    hide Enabled, Apply, At, LocalExact, HeardOnce, Delivered;
    PassFramed(st, a);
    assert SameRow(st.table, st'.table, s) && SameAt(At(st, a.w), At(st', a.w), s);
    ViewStays(st.config, At(st, a.w), At(st', a.w), a.w, s, RowAt(st, s), Front(st, s));
    ExactFrame(st, st', s, a.w);
  }

  /** A delivery of `s`: it starts where the last one ended, and is acked whole. */
  lemma DeliveryExact(st: State, s: ShardId, w: Worker, reply: Reply, due: bool)
    requires Exact(st, s) && Enabled(st, Deliver(w, s, reply, due)) && Calm(st, s, Deliver(w, s, reply, due))
    ensures Exact(Apply(st, Deliver(w, s, reply, due)), s)
  {
    var st' := Apply(st, Deliver(w, s, reply, due));
    var p := PassOf(st, w, s);
    assert LocalExact(st.config, At(st, w), w, s, RowAt(st, s), Front(st, s));
    ToldOnce(st.hist, s, Front(st, s), Event(w, p.id, s, p.after, p.after + p.phase.count));
    ExactFrame(st, st', s, w);
  }

  lemma WriteExact(st: State, s: ShardId, a: Action)
    requires Exact(st, s) && Enabled(st, a) && Calm(st, s, a) && (a.Save? || a.Flush?) && a.s == s
    ensures Exact(Apply(st, a), s)
  {
    var st' := Apply(st, a);
    assert LocalExact(st.config, At(st, a.w), a.w, s, RowAt(st, s), Front(st, s));
    ExactFrame(st, st', s, a.w);
  }

  lemma CompleteExact(st: State, s: ShardId, w: Worker, fate: Fate)
    requires Exact(st, s) && Enabled(st, Complete(w, s, fate))
    ensures Exact(Apply(st, Complete(w, s, fate)), s)
  {
    var st' := Apply(st, Complete(w, s, fate));
    assert LocalExact(st.config, At(st, w), w, s, RowAt(st, s), Front(st, s));
    ExactFrame(st, st', s, w);
  }

  lemma ReleaseExact(st: State, s: ShardId, a: Action)
    requires Exact(st, s) && Enabled(st, a) && Calm(st, s, a) && (a.ReleaseFlush? || a.Release?)
    ensures Exact(Apply(st, a), s)
  {
    var st' := Apply(st, a);
    assert LocalExact(st.config, At(st, a.w), a.w, s, RowAt(st, s), Front(st, s));
    ExactFrame(st, st', s, a.w);
  }

  lemma CrashExact(st: State, s: ShardId, w: Worker)
    requires Exact(st, s) && Calm(st, s, Crash(w))
    ensures Exact(Apply(st, Crash(w)), s)
  {
    assert LocalExact(st.config, At(st, w), w, s, RowAt(st, s), Front(st, s));
    ExactLocally(st, FRESH, w, s);
  }

  lemma PassExactStep(st: State, s: ShardId, a: Action)
    requires Exact(st, s) && Enabled(st, a) && Calm(st, s, a) && OfPass(a)
    ensures Exact(Apply(st, a), s)
  {
    hide Exact, Enabled, Calm, Started, Fetched, Delivered, Saved, Flushed, At, HasPass, PassOf;
    if a.StartPass? {
      StartExact(st, s, a.w, a.s);
    } else if a.s != s {
      OtherPassExact(st, s, a);
    } else {
      match a
      case Read(w, _, count, end) => {
        ReadExact(st, s, w, count, end);
        ReadIsLocal(st, w, s, count, end);
      }
      case ReadFails(_, _) => TurnExact(st, s, a);
      case SkipFlush(_, _) => TurnExact(st, s, a);
      case Deliver(w, _, reply, due) => DeliveryExact(st, s, w, reply, due);
      case Save(_, _, _) => WriteExact(st, s, a);
      case Flush(_, _, _) => WriteExact(st, s, a);
      case Complete(w, _, fate) => CompleteExact(st, s, w, fate);
    }
  }

  lemma ReadIsLocal(st: State, w: Worker, s: ShardId, count: nat, end: bool)
    requires Enabled(st, Read(w, s, count, end))
    ensures Apply(st, Read(w, s, count, end)) == Put(st, w, At(Fetched(st, w, s, count, end), w))
  {
  }

  lemma StepKeepsExact(st: State, s: ShardId, a: Action)
    requires Exact(st, s) && Enabled(st, a) && Calm(st, s, a)
    ensures Exact(Apply(st, a), s)
  {
    if OfPass(a) {
      PassExactStep(st, s, a);
    } else if a.Append? || a.Close? {
      ExactElsewhere(st, Apply(st, a), s);
    } else if a.Publish? || a.Collect? || a.AcquireCreate? {
      TableExact(st, s, a);
    } else if a.AcquireClaim? {
      ClaimExact(st, s, a.w, a.landed);
    } else if a.ReleaseFlush? || a.Release? {
      ReleaseExact(st, s, a);
    } else if a.Crash? {
      CrashExact(st, s, a.w);
    } else {
      StageExact(st, s, a);
    }
  }

  lemma {:induction false} ExactAlways(st: State, s: ShardId, acts: seq<Action>)
    requires Exact(st, s) && Runs(st, acts) && CalmRun(st, s, acts)
    ensures Exact(After(st, acts), s)
    decreases |acts|
  {
    if acts != [] {
      hide Exact, Calm, Enabled, Apply;
      StepKeepsExact(st, s, acts[0]);
      ExactAlways(Apply(st, acts[0]), s, acts[1..]);
    }
  }

  /** Record `k` of shard `s` was delivered by exactly one delivery. */
  ghost predicate DeliveredOnce(hist: seq<Event>, s: ShardId, k: nat) {
    && FleetDelivery.Delivered(hist, s, k)
    && forall i: nat, j: nat ::
         (i < |hist| && j < |hist| && FleetDelivery.Covers(hist, i, s, k) && FleetDelivery.Covers(hist, j, s, k)) ==> i == j
  }

  /** A delivered record was delivered by one delivery only. */
  lemma AtMostOnce(st: State, s: ShardId, acts: seq<Action>, k: nat)
    requires Init(st) && Runs(st, acts) && CalmRun(st, s, acts)
    requires FleetDelivery.Delivered(After(st, acts).hist, s, k)
    ensures DeliveredOnce(After(st, acts).hist, s, k)
  {
    ExactAlways(st, s, acts);
  }

  /**
   Without failures on shard `s`, in both checkpoint modes and however often the lease was
   handed over: the records delivered are those below the frontier, each of them was
   delivered exactly once, and once the shard is completed that is every record of its log.
   */
  lemma ExactlyOnce(st: State, s: ShardId, acts: seq<Action>)
    requires Init(st) && Runs(st, acts) && CalmRun(st, s, acts)
    ensures var end := After(st, acts);
            && (forall k: nat :: k < Front(end, s) <==> FleetDelivery.Delivered(end.hist, s, k))
            && (forall k: nat :: k < Front(end, s) ==> DeliveredOnce(end.hist, s, k))
            && (s in end.table && end.table[s].completed ==>
                s in end.logs && forall k: nat :: k < end.logs[s].len ==> DeliveredOnce(end.hist, s, k))
  {
    var end := After(st, acts);
    FleetDelivery.HistAlways(st, acts);
    FleetDelivery.EventsContiguous(end);
    forall k: nat
      ensures k < Front(end, s) <==> FleetDelivery.Delivered(end.hist, s, k)
      ensures k < Front(end, s) ==> DeliveredOnce(end.hist, s, k)
    {
      FleetDelivery.DeliveredIsPrefix(end.hist, s, k);
      if k < Front(end, s) {
        AtMostOnce(st, s, acts, k);
      }
    }
    assert s in end.table ==> RowOk(end, s, end.table[s]);
  }

  /**
   And whoever may move the lease resumes at the end of what was delivered: the durable
   checkpoint of a shard nobody is working on covers exactly the delivered records.
   */
  lemma HandoverLosesNothing(st: State, s: ShardId, acts: seq<Action>)
    requires Init(st) && Runs(st, acts) && CalmRun(st, s, acts)
    requires s in After(st, acts).table && MayMove(After(st, acts), s)
    ensures After(st, acts).table[s].checkpoint == Front(After(st, acts), s)
  {
    ExactAlways(st, s, acts);
    var end := After(st, acts);
    var v := if end.table[s].owner.Some? then end.table[s].owner.value else 0;
    assert LocalExact(end.config, At(end, v), v, s, RowAt(end, s), Front(end, s));
  }
}
