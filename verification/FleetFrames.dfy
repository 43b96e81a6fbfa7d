/**
 Frames of the pass steps: what a step of the pass of `w` on `s` leaves alone. Every proof
 about other workers, other shards or the shared fields goes through these. Such a step
 replaces or ends one pass of its worker, may note or drop the pending ack of its shard,
 and may write that shard's row, but only while its worker owns it and without changing
 the lease; a delivery also adds to the history. All else is as before.
 */
module FleetFrames {
  import opened Types
  import opened LeaseTable
  import opened Fleet

  /** Nothing about shard `t` changed in a worker's passes and pending acks. */
  predicate SameAt(l: Local, l': Local, t: ShardId) {
    && (t in l'.passes <==> t in l.passes) && (t in l.passes ==> l'.passes[t] == l.passes[t])
    && (t in l'.pending <==> t in l.pending) && (t in l.pending ==> l'.pending[t] == l.pending[t])
  }

  /** The lease a row stands for is the same. */
  predicate SameLease(rows: map<ShardId, Row>, rows': map<ShardId, Row>, t: ShardId) {
    && (t in rows' <==> t in rows)
    && (t in rows ==> rows'[t].owner == rows[t].owner && rows'[t].parents == rows[t].parents)
  }

  predicate SameRow(rows: map<ShardId, Row>, rows': map<ShardId, Row>, t: ShardId) {
    (t in rows' <==> t in rows) && (t in rows ==> rows'[t] == rows[t])
  }

  ghost predicate OnlyLocal(st: State, st': State, w: Worker) {
    && st'.config == st.config && st'.logs == st.logs && st'.terms == st.terms && st'.published == st.published
    && st.clock <= st'.clock
    && forall v: Worker :: v != w ==> At(st', v) == At(st, v)
  }

  /** A step of the pass of `w` on `s`: it stays on `s`, and writes the row only while `w` owns it. */
  ghost predicate Framed(st: State, st': State, w: Worker, s: ShardId) {
    && OnlyLocal(st, st', w)
    && (forall t :: t != s ==> SameRow(st.table, st'.table, t) && SameAt(At(st, w), At(st', w), t))
    && SameLease(st.table, st'.table, s)
    && (s in st.table && st.table[s].owner != Some(w) ==> st'.table[s] == st.table[s])
  }

  predicate OfPass(a: Action) {
    a.StartPass? || a.Read? || a.ReadFails? || a.Deliver? || a.Save? || a.Flush? || a.SkipFlush? || a.Complete?
  }

  /** A failed delivery is not told. */
  predicate Tells(a: Action) {
    a.Deliver? && !a.reply.Failed?
  }

  lemma PutFrame(st: State, w: Worker, l: Local)
    ensures At(Put(st, w, l), w) == l && forall v: Worker :: v != w ==> At(Put(st, w, l), v) == At(st, v)
  {
  }

  lemma WithFrame(l: Local, s: ShardId, p: Pass, stage: Stage)
    ensures forall t :: t != s ==> SameAt(l, WithPass(l.(stage := stage), s, p), t)
    ensures forall t :: t != s ==> SameAt(l, PassOver(l, s), t) && SameAt(l, PassLost(l, s), t)
    ensures forall t :: t != s ==> SameAt(l, WithPass(l.(pending := l.pending - {s}), s, p), t)
  {
  }

  lemma NotedFrame(l: Local, s: ShardId, p: Pass, pend: Pend, noted: Local)
    requires noted == l.(pending := l.pending[s := pend])
    ensures forall t :: t != s ==> SameAt(l, WithPass(noted, s, p), t)
  {
  }

  lemma StartFramed(st: State, w: Worker, s: ShardId)
    requires At(st, w).stage.Running? && s in At(st, w).stage.rows
    ensures Framed(st, Started(st, w, s), w, s) && Started(st, w, s).hist == st.hist && Started(st, w, s).front == st.front
    ensures Started(st, w, s).table == st.table
  {
    hide At, SameAt;
    var l := At(st, w);
    var term := if s in l.stage.terms then l.stage.terms[s] else 0;
    var p := Pass(st.clock + 1, term, l.stage.rows[s].counter, Resume(l, l.stage.rows, s), Reading);
    var stage := l.stage.(started := l.stage.started + {s});
    WithFrame(l, s, p, stage);
    hide WithPass;
    PutFrame(st.(clock := st.clock + 1), w, WithPass(l.(stage := stage), s, p));
    ClockFrame(st);
  }

  lemma ClockFrame(st: State)
    ensures forall v: Worker :: At(st.(clock := st.clock + 1), v) == At(st, v)
  {
  }

  /** A step that only replaces or ends one pass of its worker. */
  lemma PutFramed(st: State, w: Worker, s: ShardId, l': Local)
    requires forall t :: t != s ==> SameAt(At(st, w), l', t)
    ensures Framed(st, Put(st, w, l'), w, s)
  {
    hide SameAt;
    PutFrame(st, w, l');
  }

  lemma FetchFramed(st: State, w: Worker, s: ShardId, count: nat, end: bool)
    requires HasPass(st, w, s)
    ensures Framed(st, Fetched(st, w, s, count, end), w, s)
    ensures Fetched(st, w, s, count, end).hist == st.hist && Fetched(st, w, s, count, end).front == st.front
    ensures Fetched(st, w, s, count, end).table == st.table
    ensures At(Fetched(st, w, s, count, end), w).stage == At(st, w).stage
  {
    hide At, SameAt, WithPass, PassOver, PassLost, Framed;
    var l, p := At(st, w), PassOf(st, w, s);
    var next := if count > 0 then p.(phase := Holding(count, end)) else p.(phase := Ending);
    var l' := if count > 0 || end then WithPass(l, s, next) else PassOver(l, s);
    WithFrame(l, s, next, l.stage);
    PassStages(l, s, next);
    PutFramed(st, w, s, l');
    PutFrame(st, w, l');
  }

  lemma PassStages(l: Local, s: ShardId, p: Pass)
    ensures WithPass(l, s, p).stage == l.stage && PassOver(l, s).stage == l.stage && PassLost(l, s).stage == l.stage
  {
  }

  lemma TurnFramed(st: State, a: Action)
    requires (a.ReadFails? || a.SkipFlush?) && Enabled(st, a)
    ensures Framed(st, Apply(st, a), a.w, a.s) && Apply(st, a).hist == st.hist && Apply(st, a).front == st.front
    ensures Apply(st, a).table == st.table && At(Apply(st, a), a.w).stage == At(st, a.w).stage
  {
    var l, p := At(st, a.w), PassOf(st, a.w, a.s).(phase := Completing);
    WithFrame(l, a.s, p, l.stage);
    PassStages(l, a.s, p);
    hide At, SameAt, WithPass, PassOver;
    PutFrame(st, a.w, if a.ReadFails? then PassOver(l, a.s) else WithPass(l, a.s, p));
  }

  /** What a reply leaves the worker with is about `s` only. */
  lemma RepliedFrame(config: Config, w: Worker, l: Local, s: ShardId, p: Pass, reply: Reply, due: bool)
    requires p.phase.Holding?
    ensures forall t :: t != s ==> SameAt(l, Replied(config, w, l, s, p, reply, due), t)
    ensures Replied(config, w, l, s, p, reply, due).stage == l.stage
  {
    hide SameAt;
    var next := p.after + p.phase.count;
    var read := AfterBatch(p, next, p.phase.end);
    WithFrame(l, s, read, l.stage);
    if reply.Acked? {
      var save := p.(phase := Saving(reply.ack, next, p.phase.end));
      WithFrame(l, s, save, l.stage);
      var noted := l.(pending := l.pending[s := Pend(reply.ack, p.term)]);
      NotedFrame(l, s, save, Pend(reply.ack, p.term), noted);
      NotedFrame(l, s, read, Pend(reply.ack, p.term), noted);
    }
  }

  lemma DeliverFramed(st: State, w: Worker, s: ShardId, reply: Reply, due: bool)
    requires HasPass(st, w, s) && PassOf(st, w, s).phase.Holding?
    ensures Framed(st, Delivered(st, w, s, reply, due), w, s) && Delivered(st, w, s, reply, due).table == st.table
    ensures At(Delivered(st, w, s, reply, due), w).stage == At(st, w).stage
    ensures reply.Failed? ==>
      Delivered(st, w, s, reply, due).hist == st.hist && Delivered(st, w, s, reply, due).front == st.front
  {
    var p := PassOf(st, w, s);
    var l' := Replied(st.config, w, At(st, w), s, p, reply, due);
    RepliedFrame(st.config, w, At(st, w), s, p, reply, due);
    hide At, SameAt, Replied;
    var told := Told(st, Event(w, p.id, s, p.after, p.after + p.phase.count));
    PutFrame(st, w, l');
    PutFrame(told, w, l');
    ToldFrame(st, Event(w, p.id, s, p.after, p.after + p.phase.count));
  }

  lemma ToldFrame(st: State, e: Event)
    ensures forall v: Worker :: At(Told(st, e), v) == At(st, v)
    ensures forall t :: t != e.shard ==> Front(Told(st, e), t) == Front(st, t)
  {
  }

  /** A write of the pass, landed or not. */
  lemma WriteFramed(st: State, w: Worker, s: ShardId, rows: map<ShardId, Row>, l': Local)
    requires forall t :: t != s ==> SameRow(st.table, rows, t) && SameAt(At(st, w), l', t)
    requires SameLease(st.table, rows, s)
    requires s in st.table && st.table[s].owner != Some(w) ==> rows[s] == st.table[s]
    ensures Framed(st, Put(st.(table := rows), w, l'), w, s)
  {
    hide SameAt, SameRow;
    PutFrame(st.(table := rows), w, l');
  }

  lemma ConditionalWrites(rows: map<ShardId, Row>, s: ShardId, w: Worker, counter: nat, checkpoint: nat)
    ensures forall t :: t != s ==> SameRow(rows, Checkpointed(rows, s, w, counter, checkpoint), t)
    ensures forall t :: t != s ==> SameRow(rows, MarkedComplete(rows, s, w, counter), t)
    ensures SameLease(rows, Checkpointed(rows, s, w, counter, checkpoint), s)
    ensures SameLease(rows, MarkedComplete(rows, s, w, counter), s)
    ensures s in rows && rows[s].owner != Some(w) ==>
      && Checkpointed(rows, s, w, counter, checkpoint)[s] == rows[s]
      && MarkedComplete(rows, s, w, counter)[s] == rows[s]
  {
  }

  lemma SameRows(rows: map<ShardId, Row>, s: ShardId)
    ensures forall t :: SameRow(rows, rows, t) && SameLease(rows, rows, t)
  {
  }

  lemma SaveFramed(st: State, w: Worker, s: ShardId, fate: Fate)
    requires HasPass(st, w, s) && PassOf(st, w, s).phase.Saving?
    ensures Framed(st, Saved(st, w, s, fate), w, s)
    ensures Saved(st, w, s, fate).hist == st.hist && Saved(st, w, s, fate).front == st.front
    ensures At(Saved(st, w, s, fate), w).stage == At(st, w).stage
  {
    var l, p := At(st, w), PassOf(st, w, s);
    var next := AfterBatch(p.(counter := p.counter + 1), p.phase.next, p.phase.end);
    var l' := if fate.Landed? then WithPass(l.(pending := l.pending - {s}), s, next) else PassLost(l, s);
    WithFrame(l, s, next, l.stage);
    PassStages(l, s, next);
    ConditionalWrites(st.table, s, w, p.counter, p.phase.ack);
    SameRows(st.table, s);
    assert l'.stage == l.stage;
    hide SameAt, SameRow, SameLease, Checkpointed, WithPass, PassLost;
    WriteFramed(st, w, s, if fate.Refused? then st.table else Checkpointed(st.table, s, w, p.counter, p.phase.ack), l');
  }

  lemma FlushFramed(st: State, w: Worker, s: ShardId, fate: Fate)
    requires HasPass(st, w, s) && s in At(st, w).pending
    ensures Framed(st, Flushed(st, w, s, fate), w, s)
    ensures Flushed(st, w, s, fate).hist == st.hist && Flushed(st, w, s, fate).front == st.front
    ensures At(Flushed(st, w, s, fate), w).stage == At(st, w).stage
  {
    var l, p := At(st, w), PassOf(st, w, s);
    var next := p.(counter := p.counter + 1, phase := Completing);
    var l' := if fate.Landed? then WithPass(l.(pending := l.pending - {s}), s, next) else PassLost(l, s);
    WithFrame(l, s, next, l.stage);
    ConditionalWrites(st.table, s, w, p.counter, l.pending[s].ack);
    SameRows(st.table, s);
    assert l'.stage == l.stage;
    hide SameAt, SameRow, SameLease, Checkpointed, WithPass, PassLost;
    WriteFramed(st, w, s, if fate.Refused? then st.table else Checkpointed(st.table, s, w, p.counter, l.pending[s].ack), l');
  }

  lemma CompleteFramed(st: State, w: Worker, s: ShardId, fate: Fate)
    requires Enabled(st, Complete(w, s, fate))
    ensures Framed(st, Apply(st, Complete(w, s, fate)), w, s)
    ensures Apply(st, Complete(w, s, fate)).hist == st.hist && Apply(st, Complete(w, s, fate)).front == st.front
    ensures At(Apply(st, Complete(w, s, fate)), w).stage == At(st, w).stage
  {
    var l, p := At(st, w), PassOf(st, w, s);
    WithFrame(l, s, p, l.stage);
    ConditionalWrites(st.table, s, w, p.counter, 0);
    SameRows(st.table, s);
    PassStages(l, s, p);
    hide SameAt, SameRow, SameLease, MarkedComplete, PassLost;
    WriteFramed(st, w, s, if fate.Refused? then st.table else MarkedComplete(st.table, s, w, p.counter), PassLost(l, s));
  }

  /** Every pass step is framed; only a delivery tells anything; only a start changes the stage. */
  lemma PassFramed(st: State, a: Action)
    requires OfPass(a) && Enabled(st, a)
    ensures Framed(st, Apply(st, a), a.w, a.s)
    ensures !Tells(a) ==> Apply(st, a).hist == st.hist && Apply(st, a).front == st.front
    ensures !a.StartPass? ==> At(Apply(st, a), a.w).stage == At(st, a.w).stage
    ensures !a.Save? && !a.Flush? && !a.Complete? ==> Apply(st, a).table == st.table
  {
    hide Framed, Started, Fetched, Delivered, Saved, Flushed, At;
    match a {
      case StartPass(w, s) => StartFramed(st, w, s);
      case Read(w, s, count, end) => FetchFramed(st, w, s, count, end);
      case ReadFails(_, _) => TurnFramed(st, a);
      case SkipFlush(_, _) => TurnFramed(st, a);
      case Deliver(w, s, reply, due) => DeliverFramed(st, w, s, reply, due);
      case Save(w, s, fate) => SaveFramed(st, w, s, fate);
      case Flush(w, s, fate) => FlushFramed(st, w, s, fate);
      case Complete(w, s, fate) => CompleteFramed(st, w, s, fate);
    }
  }
}
