/**
 What every fleet run keeps, state by state: no row, scan, pass or deferred ack runs
 ahead of what was delivered, a completed shard is drained, and a shard is published
 only after its parent is drained.
 */
module FleetSafety {
  import opened Types
  import opened LeaseTable
  import opened Fleet
  import opened FleetFrames

  /** The shard is closed and its whole log has been delivered. */
  predicate Drained(st: State, s: ShardId) {
    s in st.logs && st.logs[s].closed && Front(st, s) == st.logs[s].len
  }

  predicate RowOk(st: State, s: ShardId, row: Row) {
    && s in st.published
    && row.checkpoint <= Front(st, s)
    && (row.completed ==> Drained(st, s))
  }

  ghost predicate RowsOk(st: State, rows: map<ShardId, Row>) {
    forall s :: s in rows ==> RowOk(st, s, rows[s])
  }

  predicate PassOk(st: State, s: ShardId, p: Pass) {
    && s in st.published && s in st.logs
    && p.after <= Front(st, s)
    && match p.phase
       case Reading => true
       case Holding(count, end) =>
         && count > 0 && p.after + count <= st.logs[s].len
         && (end ==> st.logs[s].closed && p.after + count == st.logs[s].len)
       case Saving(ack, next, end) =>
         && ack <= Front(st, s) && next <= Front(st, s)
         && (end ==> st.logs[s].closed && next == st.logs[s].len)
       case Ending => Drained(st, s)
       case Completing => Drained(st, s)
  }

  ghost predicate StageOk(st: State, stage: Stage) {
    match stage
    case Leading(rows) => RowsOk(st, rows)
    case Claiming(rows, read) => RowsOk(st, rows)
    case Running(rows, terms, started) => RowsOk(st, rows)
    case _ => true
  }

  ghost predicate LocalOk(st: State, l: Local) {
    && StageOk(st, l.stage)
    && (forall s :: s in l.passes ==> PassOk(st, s, l.passes[s]))
    && (forall s :: s in l.pending ==> l.pending[s].ack <= Front(st, s))
  }

  predicate LineageOk(st: State, s: ShardId) {
    && s in st.config.parent
    && (st.config.parent[s].Some? ==>
        var p := st.config.parent[s].value;
        p in st.published && Drained(st, p))
  }

  ghost predicate Inv(st: State) {
    && st.logs.Keys == st.config.parent.Keys && st.front.Keys <= st.logs.Keys
    && (forall s :: s in st.logs ==> Front(st, s) <= st.logs[s].len)
    && (forall s :: s in st.published ==> LineageOk(st, s))
    && RowsOk(st, st.table)
    && (forall w: Worker :: LocalOk(st, At(st, w)))
  }

  // ---- Growth: what every step keeps -------------------------------------------------

  /** Publications, frontiers and logs only grow; a closed log is final. */
  ghost predicate Grows(st: State, st': State) {
    && st'.config == st.config && st.published <= st'.published
    && st'.logs.Keys == st.logs.Keys && st'.front.Keys <= st'.logs.Keys
    && (forall s :: Front(st, s) <= Front(st', s))
    && (forall s :: s in st.logs ==>
         && Front(st', s) <= st'.logs[s].len && st.logs[s].len <= st'.logs[s].len
         && (st.logs[s].closed ==> st'.logs[s] == st.logs[s]))
  }

  /** What was ok stays ok. */
  lemma OkStays(st: State, st': State)
    requires Grows(st, st')
    ensures forall rows :: RowsOk(st, rows) ==> RowsOk(st', rows)
    ensures forall s, p: Pass :: PassOk(st, s, p) ==> PassOk(st', s, p)
    ensures forall s :: LineageOk(st, s) ==> LineageOk(st', s)
  {
    forall s | Drained(st, s) ensures Drained(st', s) {
    }
  }

  lemma LocalStays(st: State, st': State, l: Local)
    requires Grows(st, st') && LocalOk(st, l)
    ensures LocalOk(st', l)
  {
    OkStays(st, st');
  }

  /** The frame of a step: only one worker moves. */
  lemma Frame(st: State, st': State, w: Worker)
    requires Inv(st) && Grows(st, st')
    requires RowsOk(st', st'.table) && LocalOk(st', At(st', w))
    requires forall v: Worker :: v != w ==> At(st', v) == At(st, v)
    requires forall s :: s in st'.published ==> s in st.published || LineageOk(st', s)
    ensures Inv(st')
  {
    OkStays(st, st');
    forall v: Worker ensures LocalOk(st', At(st', v)) {
      if v != w {
        LocalStays(st, st', At(st, v));
      }
    }
  }

  // ---- Pieces of a worker's local state ----------------------------------------------

  lemma LocalWith(st: State, l: Local, s: ShardId, p: Pass)
    requires LocalOk(st, l) && PassOk(st, s, p)
    ensures LocalOk(st, WithPass(l, s, p))
  {
  }

  lemma LocalNoted(st: State, l: Local, s: ShardId, pend: Pend)
    requires LocalOk(st, l) && pend.ack <= Front(st, s)
    ensures LocalOk(st, l.(pending := l.pending[s := pend]))
  {
  }

  lemma LocalOver(st: State, l: Local, s: ShardId)
    requires LocalOk(st, l)
    ensures LocalOk(st, PassOver(l, s)) && LocalOk(st, PassLost(l, s))
    ensures LocalOk(st, l.(pending := l.pending - {s}))
  {
  }

  /** The deliverer's own state stays ok once the frontier covers its batch. */
  lemma RepliedOk(st: State, w: Worker, l: Local, s: ShardId, p: Pass, reply: Reply, due: bool)
    requires p.phase.Holding? && !reply.Failed? && LocalOk(st, l) && PassOk(st, s, p)
    requires reply.Acked? ==> reply.ack <= p.after + p.phase.count
    requires p.after + p.phase.count <= Front(st, s) <= st.logs[s].len
    ensures LocalOk(st, Replied(st.config, w, l, s, p, reply, due))
  {
    var next := p.after + p.phase.count;
    var read := AfterBatch(p, next, p.phase.end);
    assert PassOk(st, s, read);
    if reply.Unacked? {
      LocalWith(st, l, s, read);
    } else {
      var save := p.(phase := Saving(reply.ack, next, p.phase.end));
      if w !in st.config.deferred {
        LocalWith(st, l, s, save);
      } else {
        var noted := l.(pending := l.pending[s := Pend(reply.ack, p.term)]);
        LocalNoted(st, l, s, Pend(reply.ack, p.term));
        LocalWith(st, noted, s, if due then save else read);
      }
    }
  }

  // ---- Every step keeps the invariant ------------------------------------------------

  lemma LogStep(st: State, a: Action)
    requires Inv(st) && Enabled(st, a) && (a.Append? || a.Close?)
    ensures Inv(Apply(st, a))
  {
    assert LocalOk(st, At(st, 0));
    assert Grows(st, Apply(st, a));
    OkStays(st, Apply(st, a));
    LocalStays(st, Apply(st, a), At(st, 0));
    Frame(st, Apply(st, a), 0);
  }

  /** A step on the table alone. */
  lemma RowsStep(st: State, st': State)
    requires Inv(st) && st'.config == st.config && st'.logs == st.logs && st'.front == st.front
    requires st'.locals == st.locals && st.published <= st'.published
    requires RowsOk(st', st'.table)
    requires forall s :: s in st'.published ==> s in st.published || LineageOk(st', s)
    ensures Inv(st')
  {
    assert LocalOk(st, At(st, 0));
    assert Grows(st, st');
    LocalStays(st, st', At(st, 0));
    Frame(st, st', 0);
  }

  lemma PublishStep(st: State, w: Worker, s: ShardId)
    requires Inv(st) && Enabled(st, Publish(w, s))
    ensures Inv(Apply(st, Publish(w, s)))
  {
    var st' := Apply(st, Publish(w, s));
    assert LocalOk(st, At(st, w));
    assert LineageOk(st', s);
    RowsStep(st, st');
  }

  lemma TableStep(st: State, a: Action)
    requires Inv(st) && Enabled(st, a) && (a.Collect? || a.AcquireCreate?)
    ensures Inv(Apply(st, a))
  {
    assert LocalOk(st, At(st, a.w));
    RowsStep(st, Apply(st, a));
  }

  lemma ClaimStep(st: State, w: Worker, landed: bool)
    requires Inv(st) && Enabled(st, AcquireClaim(w, landed))
    ensures Inv(Apply(st, AcquireClaim(w, landed)))
  {
    var st' := Apply(st, AcquireClaim(w, landed));
    assert LocalOk(st, At(st, w));
    assert Grows(st, st');
    OkStays(st, st');
    LocalStays(st, st', At(st, w));
    Frame(st, st', w);
  }

  /** A step that only replaces its worker's stage, and perhaps drops passes and acks. */
  lemma TurnStep(st: State, w: Worker, stage: Stage, passes: map<ShardId, Pass>, pending: map<ShardId, Pend>)
    requires Inv(st) && StageOk(st, stage)
    requires forall s :: s in passes ==> s in At(st, w).passes && passes[s] == At(st, w).passes[s]
    requires forall s :: s in pending ==> s in At(st, w).pending && pending[s] == At(st, w).pending[s]
    ensures Inv(Put(st, w, Local(stage, passes, pending)))
  {
    assert LocalOk(st, At(st, w));
    OwnStep(st, Put(st, w, Local(stage, passes, pending)), w, Local(stage, passes, pending));
  }

  lemma CycleStep(st: State, a: Action)
    requires Inv(st) && Enabled(st, a)
    requires a.BeginCycle? || a.ScanForTake? || a.AcquireRead? || a.EndCycle? || a.Crash? || a.BeginRelease?
      || a.ScanForRun?
    ensures Inv(Apply(st, a))
  {
    var l' := At(Apply(st, a), a.w);
    assert LocalOk(st, At(st, a.w));
    TurnStep(st, a.w, l'.stage, l'.passes, l'.pending);
  }

  lemma ReleaseFlushStep(st: State, w: Worker, s: ShardId, fate: Fate)
    requires Inv(st) && Enabled(st, ReleaseFlush(w, s, fate))
    ensures Inv(ReleaseFlushed(st, w, s, fate))
  {
    var st', l := ReleaseFlushed(st, w, s, fate), At(st, w);
    assert LocalOk(st, l);
    if fate.Refused? {
      TurnStep(st, w, At(st', w).stage, l.passes, l.pending - {s});
    } else {
      WriteStep(st, st', w, At(st', w), s,
                st.table[s].(checkpoint := l.pending[s].ack, counter := l.stage.held[s] + 1));
    }
  }

  lemma ReleaseStep(st: State, w: Worker, s: ShardId, fate: Fate)
    requires Inv(st) && Enabled(st, Release(w, s, fate))
    ensures Inv(Apply(st, Release(w, s, fate)))
  {
    var st', l := Apply(st, Release(w, s, fate)), At(st, w);
    assert LocalOk(st, l);
    if fate.Refused? {
      TurnStep(st, w, At(st', w).stage, l.passes, l.pending);
    } else {
      WriteStep(st, st', w, At(st', w), s,
                st.table[s].(owner := None, counter := l.stage.held[s] + 1));
    }
  }

  lemma StartStep(st: State, w: Worker, s: ShardId)
    requires Inv(st) && At(st, w).stage.Running? && s in At(st, w).stage.rows
    ensures Inv(Started(st, w, s))
  {
    var st', l := Started(st, w, s), At(st, w);
    assert LocalOk(st, l) && RowOk(st, s, l.stage.rows[s]) && LineageOk(st, s);
    assert Grows(st, st');
    LocalStays(st, st', l);
    LocalWith(st', l.(stage := l.stage.(started := l.stage.started + {s})), s, PassOf(st', w, s));
    OkStays(st, st');
    Frame(st, st', w);
  }

  /** A step that only replaces or ends one pass of its worker. */
  lemma OwnStep(st: State, st': State, w: Worker, l: Local)
    requires Inv(st) && st' == Put(st, w, l) && LocalOk(st, l)
    ensures Inv(st')
  {
    assert Grows(st, st');
    OkStays(st, st');
    LocalStays(st, st', l);
    Frame(st, st', w);
  }

  lemma ReadStep(st: State, w: Worker, s: ShardId, count: nat, end: bool)
    requires Inv(st) && Enabled(st, Read(w, s, count, end))
    ensures Inv(Fetched(st, w, s, count, end))
  {
    var l, p := At(st, w), PassOf(st, w, s);
    assert LocalOk(st, l) && PassOk(st, s, p);
    if count > 0 {
      LocalWith(st, l, s, p.(phase := Holding(count, end)));
    } else if end {
      LocalWith(st, l, s, p.(phase := Ending));
    } else {
      LocalOver(st, l, s);
    }
    OwnStep(st, Fetched(st, w, s, count, end), w, At(Fetched(st, w, s, count, end), w));
  }

  lemma SkipStep(st: State, a: Action)
    requires Inv(st) && Enabled(st, a) && (a.ReadFails? || a.SkipFlush?)
    ensures Inv(Apply(st, a))
  {
    var l, p := At(st, a.w), PassOf(st, a.w, a.s);
    assert LocalOk(st, l) && PassOk(st, a.s, p);
    if a.SkipFlush? {
      LocalWith(st, l, a.s, p.(phase := Completing));
    } else {
      LocalOver(st, l, a.s);
    }
    OwnStep(st, Apply(st, a), a.w, At(Apply(st, a), a.w));
  }

  /** A step that writes one row and replaces or ends one pass. */
  lemma WriteStep(st: State, st': State, w: Worker, l: Local, s: ShardId, row: Row)
    requires Inv(st) && LocalOk(st, l) && RowOk(st, s, row)
    requires st' == Put(st.(table := st.table[s := row]), w, l)
    ensures Inv(st')
  {
    assert Grows(st, st');
    OkStays(st, st');
    LocalStays(st, st', l);
    assert RowOk(st', s, row);
    Frame(st, st', w);
  }

  /** What a checkpoint write leaves its worker and its row with. */
  lemma SavedOk(st: State, l: Local, s: ShardId, p: Pass, row: Row)
    requires LocalOk(st, l) && PassOk(st, s, p) && RowOk(st, s, row)
    requires p.phase.Saving? && Front(st, s) <= st.logs[s].len
    ensures LocalOk(st, PassLost(l, s))
    ensures LocalOk(st, WithPass(l.(pending := l.pending - {s}), s,
                                 AfterBatch(p.(counter := p.counter + 1), p.phase.next, p.phase.end)))
    ensures RowOk(st, s, row.(checkpoint := p.phase.ack, counter := p.counter + 1))
  {
    LocalOver(st, l, s);
    var next := AfterBatch(p.(counter := p.counter + 1), p.phase.next, p.phase.end);
    LocalWith(st, l.(pending := l.pending - {s}), s, next);
  }

  lemma SaveStep(st: State, w: Worker, s: ShardId, fate: Fate)
    requires Inv(st) && HasPass(st, w, s) && PassOf(st, w, s).phase.Saving?
    requires FateOk(fate, Held(st.table, s, w, PassOf(st, w, s).counter))
    ensures Inv(Saved(st, w, s, fate))
  {
    var st', l, p := Saved(st, w, s, fate), At(st, w), PassOf(st, w, s);
    assert LocalOk(st, l) && PassOk(st, s, p);
    if fate.Refused? {
      LocalOver(st, l, s);
      OwnStep(st, st', w, PassLost(l, s));
    } else {
      SavedOk(st, l, s, p, st.table[s]);
      WriteStep(st, st', w, At(st', w), s,
                st.table[s].(checkpoint := p.phase.ack, counter := p.counter + 1));
    }
  }

  /** What the flush at shard end leaves its worker and its row with. */
  lemma FlushedOk(st: State, l: Local, s: ShardId, p: Pass, row: Row)
    requires LocalOk(st, l) && PassOk(st, s, p) && RowOk(st, s, row)
    requires p.phase.Ending? && s in l.pending
    ensures LocalOk(st, PassLost(l, s))
    ensures LocalOk(st, WithPass(l.(pending := l.pending - {s}), s,
                                 p.(counter := p.counter + 1, phase := Completing)))
    ensures RowOk(st, s, row.(checkpoint := l.pending[s].ack, counter := p.counter + 1))
  {
    LocalOver(st, l, s);
    LocalWith(st, l.(pending := l.pending - {s}), s, p.(counter := p.counter + 1, phase := Completing));
  }

  lemma OkHere(st: State, w: Worker, s: ShardId)
    requires Inv(st)
    ensures LocalOk(st, At(st, w)) && (HasPass(st, w, s) ==> PassOk(st, s, PassOf(st, w, s)))
    ensures s in st.table ==> RowOk(st, s, st.table[s])
  {
    assert LocalOk(st, At(st, w));
  }

  lemma FlushStep(st: State, w: Worker, s: ShardId, fate: Fate)
    requires Inv(st) && HasPass(st, w, s) && PassOf(st, w, s).phase.Ending? && s in At(st, w).pending
    requires FateOk(fate, Held(st.table, s, w, PassOf(st, w, s).counter))
    ensures Inv(Flushed(st, w, s, fate))
  {
    hide Inv, LocalOk, PassOk, RowOk;
    OkHere(st, w, s);
    var st', l, p := Flushed(st, w, s, fate), At(st, w), PassOf(st, w, s);
    if fate.Refused? {
      LocalOver(st, l, s);
      OwnStep(st, st', w, PassLost(l, s));
    } else {
      FlushedOk(st, l, s, p, st.table[s]);
      var row := st.table[s].(checkpoint := l.pending[s].ack, counter := p.counter + 1);
      var l' := if fate.Landed? then
        WithPass(l.(pending := l.pending - {s}), s, p.(counter := p.counter + 1, phase := Completing))
      else PassLost(l, s);
      assert st' == Put(st.(table := st.table[s := row]), w, l');
      WriteStep(st, st', w, l', s, row);
    }
  }

  lemma CompleteStep(st: State, w: Worker, s: ShardId, fate: Fate)
    requires Inv(st) && Enabled(st, Complete(w, s, fate))
    ensures Inv(Apply(st, Complete(w, s, fate)))
  {
    var l, p := At(st, w), PassOf(st, w, s);
    assert LocalOk(st, l) && PassOk(st, s, p);
    LocalOver(st, l, s);
    if fate.Refused? {
      OwnStep(st, Apply(st, Complete(w, s, fate)), w, PassLost(l, s));
    } else {
      WriteStep(st, Apply(st, Complete(w, s, fate)), w, PassLost(l, s), s, st.table[s].(completed := true));
    }
  }

  lemma DeliverGrows(st: State, w: Worker, s: ShardId, reply: Reply, due: bool)
    requires HasPass(st, w, s) && PassOf(st, w, s).phase.Holding? && !reply.Failed?
    requires PassOk(st, s, PassOf(st, w, s)) && st.front.Keys <= st.logs.Keys
    requires forall s :: s in st.logs ==> Front(st, s) <= st.logs[s].len
    ensures Grows(st, Delivered(st, w, s, reply, due))
    ensures PassOf(st, w, s).after + PassOf(st, w, s).phase.count
         <= Front(Delivered(st, w, s, reply, due), s) <= st.logs[s].len
  {
  }

  lemma DeliverStep(st: State, w: Worker, s: ShardId, reply: Reply, due: bool)
    requires Inv(st) && HasPass(st, w, s) && PassOf(st, w, s).phase.Holding?
    requires reply.Acked? ==> reply.ack <= PassOf(st, w, s).after + PassOf(st, w, s).phase.count
    ensures Inv(Delivered(st, w, s, reply, due))
  {
    var st' := Delivered(st, w, s, reply, due);
    var l, p := At(st, w), PassOf(st, w, s);
    assert LocalOk(st, l) && PassOk(st, s, p);
    if reply.Failed? {
      LocalOver(st, l, s);
      OwnStep(st, st', w, PassLost(l, s));
    } else {
      DeliverGrows(st, w, s, reply, due);
      OkStays(st, st');
      LocalStays(st, st', l);
      RepliedOk(st', w, l, s, p, reply, due);
      Frame(st, st', w);
    }
  }

  lemma PassStepKeepsInv(st: State, a: Action)
    requires Inv(st) && Enabled(st, a) && OfPass(a)
    ensures Inv(Apply(st, a))
  {
    match a {
      case StartPass(w, s) => StartStep(st, w, s);
      case Read(w, s, count, end) => ReadStep(st, w, s, count, end);
      case ReadFails(_, _) => SkipStep(st, a);
      case SkipFlush(_, _) => SkipStep(st, a);
      case Deliver(w, s, reply, due) => DeliverStep(st, w, s, reply, due);
      case Save(w, s, fate) => SaveStep(st, w, s, fate);
      case Flush(w, s, fate) => FlushStep(st, w, s, fate);
      case Complete(w, s, fate) => CompleteStep(st, w, s, fate);
    }
  }

  lemma StepKeepsInv(st: State, a: Action)
    requires Inv(st) && Enabled(st, a)
    ensures Inv(Apply(st, a))
  {
    if OfPass(a) {
      PassStepKeepsInv(st, a);
    } else {
      match a {
        case Append(_, _) => LogStep(st, a);
        case Close(_) => LogStep(st, a);
        case Publish(w, s) => PublishStep(st, w, s);
        case Collect(_, _) => TableStep(st, a);
        case AcquireCreate(_, _) => TableStep(st, a);
        case AcquireClaim(w, landed) => ClaimStep(st, w, landed);
        case ReleaseFlush(w, s, fate) => ReleaseFlushStep(st, w, s, fate);
        case Release(w, s, fate) => ReleaseStep(st, w, s, fate);
        case _ => CycleStep(st, a);
      }
    }
  }

  lemma {:induction false} InvAlways(st: State, acts: seq<Action>)
    requires Inv(st) && Runs(st, acts)
    ensures Inv(After(st, acts))
    decreases |acts|
  {
    if acts != [] {
      StepKeepsInv(st, acts[0]);
      InvAlways(Apply(st, acts[0]), acts[1..]);
    }
  }
}
