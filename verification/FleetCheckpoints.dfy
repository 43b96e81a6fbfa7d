/**
 Durable checkpoints under interleaving: the guard of one shard, in terms a worker has in
 hand, under which the shard's checkpoint never moves backwards.
 */
module FleetCheckpoints {
  import opened Types
  import opened LeaseTable
  import opened Fleet
  import opened FleetFrames
  import opened FleetSafety
  import opened FleetFencing

  // ---- The guard a worker could check ------------------------------------------------

  /** A consumer that acks every batch makes good a pending ack that is one record behind. */
  function Slack(config: Config): nat {
    if config.acksAlways then 1 else 0
  }

  /**
   Where a pending ack of shard `s` is taken up again, it is not behind the checkpoint: the
   scan's when a pass starts on it, the row's when a shutdown writes it back. (That write is
   conditioned on the counter, so the row is then still the one the shutdown scanned.)
   */
  predicate NotBehind(st: State, a: Action, s: ShardId) {
    match a
    case StartPass(w, t) =>
      t == s && At(st, w).stage.Running? && s in At(st, w).pending && s in At(st, w).stage.rows ==>
        At(st, w).stage.rows[s].checkpoint <= At(st, w).pending[s].ack + Slack(st.config)
    case ReleaseFlush(w, t, fate) =>
      t == s && !fate.Refused? && s in At(st, w).pending && s in st.table ==>
        st.table[s].checkpoint <= At(st, w).pending[s].ack
    case _ => true
  }

  /** The step does no harm: it keeps the guard, or starts a pass on a row that is lost already. */
  predicate Harmless(st: State, a: Action, s: ShardId) {
    NotBehind(st, a, s) || (a.StartPass? && !OwnerIs(st, s, a.w))
  }

  /** The run keeps the guard for `s`, and the row of `s` is there throughout: one incarnation. */
  ghost predicate Careful(st: State, acts: seq<Action>, s: ShardId)
    decreases |acts|
  {
    acts == [] || (Enabled(st, acts[0]) && NotBehind(st, acts[0], s) && Careful(Apply(st, acts[0]), acts[1..], s))
  }

  ghost predicate KeepsRow(st: State, acts: seq<Action>, s: ShardId)
    requires Runs(st, acts)
    decreases |acts|
  {
    s in st.table && (acts == [] || KeepsRow(Apply(st, acts[0]), acts[1..], s))
  }

  /** A run onwards that keeps the guard and the row. */
  ghost predicate GoesOn(st: State, acts: seq<Action>, s: ShardId) {
    Runs(st, acts) && Careful(st, acts, s) && KeepsRow(st, acts, s)
  }

  // ---- The invariant, for one shard --------------------------------------------------

  function AckOf(l: Local, s: ShardId): Option<nat> {
    if s in l.pending then Some(l.pending[s].ack) else None
  }

  /** A pass on a row it owns writes nothing below the row's checkpoint. */
  predicate PassAhead(row: Row, p: Pass, pend: Option<nat>, slack: nat) {
    match p.phase
    case Saving(ack, next, _) => row.checkpoint <= ack
    case Ending => pend.Some? ==> row.checkpoint <= pend.value
    case Completing => true
    case _ =>
      && row.checkpoint <= p.after + slack
      && (pend.Some? ==> row.checkpoint <= pend.value || pend.value == p.after)
  }

  predicate SaveInOrder(p: Pass) {
    p.phase.Saving? ==> p.phase.ack <= p.phase.next
  }

  /** A deferred ack is at or ahead of the durable checkpoint while its term lasts. */
  predicate PendAhead(st: State, w: Worker, s: ShardId, pend: Pend) {
    && pend.term <= st.clock
    && (OwnerIs(st, s, w) && Term(st, s) == pend.term ==> st.table[s].checkpoint <= pend.ack)
  }

  predicate Ahead(st: State, w: Worker, l: Local, s: ShardId) {
    && (s in l.passes ==> SaveInOrder(l.passes[s]))
    && (s in l.passes && OwnerIs(st, s, w) ==>
          PassAhead(st.table[s], l.passes[s], AckOf(l, s), Slack(st.config)))
    && (s in l.pending ==> PendAhead(st, w, s, l.pending[s]) && w in st.config.deferred)
  }

  ghost predicate AheadInv(st: State, s: ShardId) {
    && st.config.acksInside && Inv(st) && FenceInv(st)
    && forall w: Worker :: Ahead(st, w, At(st, w), s)
  }

  lemma OtherStaysAhead(st: State, st': State, v: Worker, s: ShardId)
    requires Ahead(st, v, At(st, v), s) && At(st', v) == At(st, v) && st'.config == st.config
    requires KeepsRowsOf(st, st', v) && st.clock <= st'.clock
    ensures Ahead(st', v, At(st', v), s)
  {
  }

  // ---- The actor's own steps ---------------------------------------------------------

  /** A worker's business with another shard. */
  lemma ElsewhereAhead(st: State, st': State, w: Worker, l: Local, l': Local, s: ShardId)
    requires Ahead(st, w, l, s) && st'.config == st.config && st.clock <= st'.clock
    requires s in l'.passes ==> s in l.passes && l'.passes[s] == l.passes[s]
    requires s in l'.pending <==> s in l.pending
    requires s in l.pending ==> l'.pending[s] == l.pending[s]
    requires OwnerIs(st', s, w) ==> OwnerIs(st, s, w) && st'.table[s] == st.table[s] && Term(st', s) == Term(st, s)
    ensures Ahead(st', w, l', s)
  {
  }

  lemma StartAhead(st: State, w: Worker, s: ShardId)
    requires AheadInv(st, s) && Enabled(st, StartPass(w, s)) && Harmless(st, StartPass(w, s), s)
    ensures Ahead(Started(st, w, s), w, At(Started(st, w, s), w), s)
  {
    assert Ahead(st, w, At(st, w), s) && LeaseOk(st, w, At(st, w));
    assert ScanFence(st, w, s, At(st, w).stage.rows[s], TermIn(At(st, w).stage.terms, s));
    hide Inv, FenceInv, LeaseOk;
  }

  /** What a row's checkpoint covers has been delivered, so it lies in the log. */
  lemma CheckpointInLog(st: State, s: ShardId)
    requires Inv(st) && s in st.table
    ensures s in st.logs && st.table[s].checkpoint <= st.logs[s].len
  {
    assert RowOk(st, s, st.table[s]) && LineageOk(st, s);
  }

  lemma ReadAhead(st: State, w: Worker, s: ShardId, count: nat, end: bool)
    requires Enabled(st, Read(w, s, count, end)) && Ahead(st, w, At(st, w), s)
    requires s in st.table ==> st.table[s].checkpoint <= st.logs[s].len
    ensures Ahead(Fetched(st, w, s, count, end), w, At(Fetched(st, w, s, count, end), w), s)
  {
  }

  lemma TurnsAhead(st: State, a: Action, s: ShardId)
    requires (a.ReadFails? || a.SkipFlush?) && Enabled(st, a) && a.s == s && Ahead(st, a.w, At(st, a.w), s)
    ensures Ahead(Apply(st, a), a.w, At(Apply(st, a), a.w), s)
  {
  }

  lemma DeliverAhead(st: State, w: Worker, s: ShardId, reply: Reply, due: bool)
    requires st.config.acksInside && Enabled(st, Deliver(w, s, reply, due)) && Ahead(st, w, At(st, w), s)
    requires PassFence(st, w, s, PassOf(st, w, s))
    ensures Ahead(Delivered(st, w, s, reply, due), w, At(Delivered(st, w, s, reply, due), w), s)
  {
    DeliverIsOk(st, w, s, reply, due);
    hide Enabled;
  }

  lemma DeliverIsOk(st: State, w: Worker, s: ShardId, reply: Reply, due: bool)
    requires Enabled(st, Deliver(w, s, reply, due))
    ensures HasPass(st, w, s) && PassOf(st, w, s).phase.Holding?
    ensures AckOk(st.config, PassOf(st, w, s).after, PassOf(st, w, s).after + PassOf(st, w, s).phase.count, reply)
  {
  }

  lemma SaveAhead(st: State, w: Worker, s: ShardId, fate: Fate)
    requires Enabled(st, Save(w, s, fate)) && Ahead(st, w, At(st, w), s)
    ensures Ahead(Saved(st, w, s, fate), w, At(Saved(st, w, s, fate), w), s)
  {
  }

  lemma FlushAhead(st: State, w: Worker, s: ShardId, fate: Fate)
    requires Enabled(st, Flush(w, s, fate)) && Ahead(st, w, At(st, w), s)
    ensures Ahead(Flushed(st, w, s, fate), w, At(Flushed(st, w, s, fate), w), s)
  {
  }

  lemma CompleteAhead(st: State, w: Worker, s: ShardId, fate: Fate)
    requires Enabled(st, Complete(w, s, fate)) && Ahead(st, w, At(st, w), s)
    ensures Ahead(Apply(st, Complete(w, s, fate)), w, At(Apply(st, Complete(w, s, fate)), w), s)
  {
  }

  /** A step of the pass on another shard. */
  lemma OtherPassAhead(st: State, a: Action, s: ShardId)
    requires OfPass(a) && Enabled(st, a) && a.s != s && Ahead(st, a.w, At(st, a.w), s)
    ensures Ahead(Apply(st, a), a.w, At(Apply(st, a), a.w), s)
  {
    hide Enabled, Apply, Ahead, At;
    PassFramed(st, a);
    FramedAhead(st, Apply(st, a), a.w, a.s, s);
  }

  lemma FramedAhead(st: State, st': State, w: Worker, t: ShardId, s: ShardId)
    requires Framed(st, st', w, t) && t != s && Ahead(st, w, At(st, w), s)
    ensures Ahead(st', w, At(st', w), s)
  {
    assert SameRow(st.table, st'.table, s) && SameAt(At(st, w), At(st', w), s);
    hide Ahead, At, Framed;
    ElsewhereAhead(st, st', w, At(st, w), At(st', w), s);
  }

  /** Between passes: a takeover opens a new term, so no older ack speaks about it. */
  lemma CycleAhead(st: State, a: Action, s: ShardId)
    requires !OfPass(a) && !a.Append? && !a.Close? && Enabled(st, a)
    requires Ahead(st, a.w, At(st, a.w), s) && LeaseOk(st, a.w, At(st, a.w))
    ensures Ahead(Apply(st, a), a.w, At(Apply(st, a), a.w), s)
  {
    TurnsRunNoPass(st, a);
  }

  lemma AheadFacts(st: State, w: Worker, s: ShardId)
    requires AheadInv(st, s)
    ensures Ahead(st, w, At(st, w), s) && LeaseOk(st, w, At(st, w))
    ensures s in st.table ==> s in st.logs && st.table[s].checkpoint <= st.logs[s].len
    ensures st.config.acksInside
  {
    hide Ahead, LeaseOk, At;
    if s in st.table {
      CheckpointInLog(st, s);
    }
  }

  lemma PassAheadStep(st: State, a: Action, s: ShardId)
    requires OfPass(a) && a.s == s && AheadInv(st, s) && Enabled(st, a) && Harmless(st, a, s)
    ensures Ahead(Apply(st, a), a.w, At(Apply(st, a), a.w), s)
  {
    hide Enabled, Ahead, AheadInv, LeaseOk, Harmless, At, Started, Fetched, Delivered, Saved, Flushed, PassOf, HasPass;
    AheadFacts(st, a.w, s);
    match a {
      case StartPass(w, _) => StartAhead(st, w, s);
      case Read(w, _, count, end) => ReadAhead(st, w, s, count, end);
      case ReadFails(_, _) => TurnsAhead(st, a, s);
      case Deliver(w, _, reply, due) => {
        DeliverIsOk(st, w, s, reply, due);
        PassIsFenced(st, w, s);
        DeliverAhead(st, w, s, reply, due);
      }
      case SkipFlush(_, _) => TurnsAhead(st, a, s);
      case Save(w, _, fate) => SaveAhead(st, w, s, fate);
      case Flush(w, _, fate) => FlushAhead(st, w, s, fate);
      case Complete(w, _, fate) => CompleteAhead(st, w, s, fate);
    }
  }

  lemma ActorAhead(st: State, a: Action, s: ShardId)
    requires !a.Append? && !a.Close? && AheadInv(st, s) && Enabled(st, a) && Harmless(st, a, s)
    ensures Ahead(Apply(st, a), a.w, At(Apply(st, a), a.w), s)
  {
    assert Ahead(st, a.w, At(st, a.w), s) && LeaseOk(st, a.w, At(st, a.w));
    hide Ahead, LeaseOk, Enabled, Apply, At, Harmless, Inv, FenceInv;
    if !OfPass(a) {
      CycleAhead(st, a, s);
    } else if a.s == s {
      PassAheadStep(st, a, s);
    } else {
      OtherPassAhead(st, a, s);
    }
  }

  lemma StepKeepsAhead(st: State, a: Action, s: ShardId)
    requires AheadInv(st, s) && Enabled(st, a) && Harmless(st, a, s)
    ensures AheadInv(Apply(st, a), s)
  {
    hide Ahead, Enabled, Apply, At, Harmless, Inv, FenceInv;
    StepKeepsInv(st, a);
    StepKeepsFence(st, a);
    ConfigFixed(st, a);
    FenceTerms(st, a);
    forall v: Worker ensures Ahead(Apply(st, a), v, At(Apply(st, a), v), s) {
      assert Ahead(st, v, At(st, v), s);
      if ByOther(a, v) {
        if OfPass(a) { OtherPassesKeepRows(st, a, v); } else { OthersKeepRows(st, a, v); }
        OtherStaysAhead(st, Apply(st, a), v, s);
      } else {
        ActorAhead(st, a, s);
      }
    }
  }

  lemma FenceTerms(st: State, a: Action)
    requires FenceInv(st) && Enabled(st, a)
    ensures st.clock <= Apply(st, a).clock
  {
    TermsGrow(st, a);
  }

  // ---- What a step may do to a row ---------------------------------------------------

  /** Counter discipline: a row changes with its counter one up, or only by being completed. */
  predicate Disciplined(row: Row, row': Row) {
    || row' == row
    || (row'.counter == row.counter + 1 && row'.completed == row.completed && row'.parents == row.parents)
    || row' == row.(completed := true)
  }

  lemma PassDiscipline(st: State, a: Action, s: ShardId)
    requires OfPass(a) && Enabled(st, a) && s in st.table
    ensures s in Apply(st, a).table && Disciplined(st.table[s], Apply(st, a).table[s])
  {
  }

  lemma CounterDiscipline(st: State, a: Action, s: ShardId)
    requires Enabled(st, a) && s in st.table && s in Apply(st, a).table
    ensures Disciplined(st.table[s], Apply(st, a).table[s])
  {
    if OfPass(a) {
      PassDiscipline(st, a, s);
    }
  }

  /** Only checkpoint writes move a checkpoint. */
  lemma OnlyWritesMove(st: State, a: Action, s: ShardId)
    requires Enabled(st, a) && s in st.table && s in Apply(st, a).table
    requires !a.Save? && !a.Flush? && !a.ReleaseFlush?
    ensures Apply(st, a).table[s].checkpoint == st.table[s].checkpoint
  {
  }

  lemma NeverBack(st: State, a: Action, s: ShardId)
    requires AheadInv(st, s) && Enabled(st, a) && Harmless(st, a, s)
    requires s in st.table && s in Apply(st, a).table
    ensures st.table[s].checkpoint <= Apply(st, a).table[s].checkpoint
  {
    if (a.Save? || a.Flush?) && a.s == s {
      assert Ahead(st, a.w, At(st, a.w), s);
      WritesForward(st, a, s);
    } else if a.ReleaseFlush? && a.s == s {
      ReleaseWrites(st, a.w, s, a.fate);
    } else if OfPass(a) && a.s != s {
      PassFramed(st, a);
      assert SameRow(st.table, Apply(st, a).table, s);
    } else if !a.ReleaseFlush? {
      OnlyWritesMove(st, a, s);
    }
  }

  lemma WritesForward(st: State, a: Action, s: ShardId)
    requires (a.Save? || a.Flush?) && a.s == s && Enabled(st, a) && Ahead(st, a.w, At(st, a.w), s)
    requires s in st.table && s in Apply(st, a).table
    ensures st.table[s].checkpoint <= Apply(st, a).table[s].checkpoint
  {
  }

  /** A shutdown's write puts the pending ack in the row, if it lands. */
  lemma ReleaseWrites(st: State, w: Worker, s: ShardId, fate: Fate)
    requires Enabled(st, ReleaseFlush(w, s, fate)) && s in st.table
    ensures s in Apply(st, ReleaseFlush(w, s, fate)).table
    ensures Apply(st, ReleaseFlush(w, s, fate)).table[s].checkpoint ==
            if fate.Refused? then st.table[s].checkpoint else At(st, w).pending[s].ack
  {
  }

  // ---- Runs --------------------------------------------------------------------------

  lemma {:induction false} AheadAlways(st: State, acts: seq<Action>, s: ShardId)
    requires AheadInv(st, s) && Runs(st, acts) && Careful(st, acts, s)
    ensures AheadInv(After(st, acts), s)
    decreases |acts|
  {
    if acts != [] {
      hide AheadInv, Enabled, Apply, NotBehind;
      StepKeepsAhead(st, acts[0], s);
      AheadAlways(Apply(st, acts[0]), acts[1..], s);
    }
  }

  lemma {:induction false} MonotoneFrom(st: State, acts: seq<Action>, s: ShardId)
    requires AheadInv(st, s) && GoesOn(st, acts, s)
    ensures s in After(st, acts).table
    ensures st.table[s].checkpoint <= After(st, acts).table[s].checkpoint
    decreases |acts|
  {
    if acts != [] {
      hide AheadInv, Enabled, Apply, NotBehind;
      assert KeepsRow(Apply(st, acts[0]), acts[1..], s);
      NeverBack(st, acts[0], s);
      StepKeepsAhead(st, acts[0], s);
      MonotoneFrom(Apply(st, acts[0]), acts[1..], s);
    }
  }

  lemma FreshIsAhead(st: State, s: ShardId)
    requires Init(st) && st.config.acksInside
    ensures AheadInv(st, s)
  {
  }

  /**
   In any mode, with acks inside their batch: a run that never takes up a pending ack of `s`
   behind the checkpoint never moves the checkpoint of `s` back. Other shards may do as they like.
   */
  lemma MonotoneCheckpoints(st: State, before: seq<Action>, acts: seq<Action>, s: ShardId)
    requires Init(st) && st.config.acksInside && Runs(st, before) && Careful(st, before, s)
    requires GoesOn(After(st, before), acts, s)
    ensures s in After(After(st, before), acts).table
    ensures After(st, before).table[s].checkpoint <= After(After(st, before), acts).table[s].checkpoint
  {
    FreshIsAhead(st, s);
    AheadAlways(st, before, s);
    MonotoneFrom(After(st, before), acts, s);
  }

  /** In such a run a deferred ack of the running ownership is at or ahead of the durable checkpoint. */
  lemma PendingIsAhead(st: State, acts: seq<Action>, w: Worker, s: ShardId)
    requires Init(st) && st.config.acksInside && Runs(st, acts) && Careful(st, acts, s)
    requires var end := After(st, acts);
             s in At(end, w).pending && OwnerIs(end, s, w) && Term(end, s) == At(end, w).pending[s].term
    ensures After(st, acts).table[s].checkpoint <= At(After(st, acts), w).pending[s].ack
  {
    FreshIsAhead(st, s);
    AheadAlways(st, acts, s);
    assert Ahead(After(st, acts), w, At(After(st, acts), w), s);
  }

  /** Without deferring workers no ack is ever pending, so every run keeps the guard. */
  lemma {:induction false} PerBatchIsCareful(st: State, acts: seq<Action>, s: ShardId)
    requires AheadInv(st, s) && st.config.deferred == {} && Runs(st, acts)
    ensures Careful(st, acts, s)
    decreases |acts|
  {
    if acts != [] {
      var a := acts[0];
      assert a.StartPass? || a.ReleaseFlush? ==> Ahead(st, a.w, At(st, a.w), s);
      assert NotBehind(st, a, s);
      hide AheadInv, Enabled, Apply, NotBehind;
      StepKeepsAhead(st, a, s);
      ConfigFixed(st, a);
      PerBatchIsCareful(Apply(st, a), acts[1..], s);
    }
  }

  /** Per-batch mode: under every interleaving the durable checkpoint never moves backwards. */
  lemma PerBatchMonotone(st: State, before: seq<Action>, acts: seq<Action>, s: ShardId)
    requires Init(st) && st.config.acksInside && st.config.deferred == {} && Runs(st, before)
    requires Runs(After(st, before), acts) && KeepsRow(After(st, before), acts, s)
    ensures s in After(After(st, before), acts).table
    ensures After(st, before).table[s].checkpoint <= After(After(st, before), acts).table[s].checkpoint
  {
    FreshIsAhead(st, s);
    PerBatchIsCareful(st, before, s);
    AheadAlways(st, before, s);
    ConfigStays(st, before);
    PerBatchIsCareful(After(st, before), acts, s);
    MonotoneFrom(After(st, before), acts, s);
  }

  lemma {:induction false} ConfigStays(st: State, acts: seq<Action>)
    requires Runs(st, acts)
    ensures After(st, acts).config == st.config
    decreases |acts|
  {
    if acts != [] {
      ConfigFixed(st, acts[0]);
      ConfigStays(Apply(st, acts[0]), acts[1..]);
    }
  }
}
