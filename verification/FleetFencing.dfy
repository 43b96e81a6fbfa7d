/**
 Fencing: once a pass no longer owns its row it never writes again, whatever else the
 fleet does. In per-batch mode with an acking consumer it delivers at most one more batch.
 */
module FleetFencing {
  import opened Types
  import opened LeaseTable
  import opened Fleet
  import opened FleetFrames
  import opened FleetSafety

  predicate OwnerIs(st: State, s: ShardId, w: Worker) {
    s in st.table && st.table[s].owner == Some(w)
  }

  function TermIn(terms: map<ShardId, nat>, s: ShardId): nat {
    if s in terms then terms[s] else 0
  }

  /** While its worker owns the row, a pass knows the row's counter and its term. */
  predicate PassFence(st: State, w: Worker, s: ShardId, p: Pass) {
    && p.id <= st.clock && p.term <= st.clock
    && (OwnerIs(st, s, w) ==> st.table[s].counter == p.counter && Term(st, s) == p.term)
  }

  /** An owned row of a scan that was not worked yet is still what the scan saw, or lost. */
  predicate ScanFence(st: State, w: Worker, s: ShardId, row: Row, term: nat) {
    row.owner == Some(w) && OwnerIs(st, s, w) ==> st.table[s] == row && Term(st, s) == term
  }

  ghost predicate LeaseOk(st: State, w: Worker, l: Local) {
    if l.stage.Running? then
      && (forall s :: s in l.passes ==> s in l.stage.started && PassFence(st, w, s, l.passes[s]))
      && (forall s :: s in l.stage.rows && s !in l.stage.started ==>
            ScanFence(st, w, s, l.stage.rows[s], TermIn(l.stage.terms, s)))
      && (forall s :: TermIn(l.stage.terms, s) <= st.clock)
    else l.passes == map[]
  }

  ghost predicate TermsOk(st: State) {
    forall s :: Term(st, s) <= st.clock
  }

  ghost predicate FenceInv(st: State) {
    && TermsOk(st)
    && (forall w: Worker :: LeaseOk(st, w, At(st, w)))
  }

  // ---- Nobody touches another worker's row without taking it away ---------------------

  /** Every row `v` owns afterwards it owned before, unchanged and under the same term. */
  ghost predicate KeepsRowsOf(st: State, st': State, v: Worker) {
    forall s :: OwnerIs(st', s, v) ==>
      OwnerIs(st, s, v) && st'.table[s] == st.table[s] && Term(st', s) == Term(st, s)
  }

  predicate ByOther(a: Action, v: Worker) {
    a.Append? || a.Close? || a.w != v
  }

  lemma OthersKeepRows(st: State, a: Action, v: Worker)
    requires Enabled(st, a) && ByOther(a, v) && !OfPass(a)
    ensures KeepsRowsOf(st, Apply(st, a), v) && At(Apply(st, a), v) == At(st, v)
  {
    if a.AcquireClaim? || a.ReleaseFlush? || a.Release? {
      OtherLeasesKeepRows(st, a, v);
    }
  }

  lemma OtherLeasesKeepRows(st: State, a: Action, v: Worker)
    requires Enabled(st, a) && (a.AcquireClaim? || a.ReleaseFlush? || a.Release?) && a.w != v
    ensures KeepsRowsOf(st, Apply(st, a), v) && At(Apply(st, a), v) == At(st, v)
  {
  }

  lemma OtherPassesKeepRows(st: State, a: Action, v: Worker)
    requires Enabled(st, a) && OfPass(a) && a.w != v
    ensures KeepsRowsOf(st, Apply(st, a), v) && At(Apply(st, a), v) == At(st, v)
  {
    PassFramed(st, a);
    FramedKeepsRows(st, Apply(st, a), a.w, a.s, v);
  }

  lemma FramedKeepsRows(st: State, st': State, w: Worker, s: ShardId, v: Worker)
    requires Framed(st, st', w, s) && v != w
    ensures KeepsRowsOf(st, st', v) && At(st', v) == At(st, v)
  {
    hide At;
    forall t | OwnerIs(st', t, v) ensures OwnerIs(st, t, v) && st'.table[t] == st.table[t] {
      assert t != s ==> SameRow(st.table, st'.table, t);
    }
  }

  lemma PassTerms(st: State, a: Action)
    requires Enabled(st, a) && OfPass(a)
    ensures st.clock <= Apply(st, a).clock && Apply(st, a).terms == st.terms
  {
    hide Enabled, Apply;
    PassFramed(st, a);
  }

  lemma TermsGrow(st: State, a: Action)
    requires Enabled(st, a) && TermsOk(st)
    ensures st.clock <= Apply(st, a).clock && TermsOk(Apply(st, a))
  {
    if OfPass(a) {
      hide Enabled, Apply;
      PassTerms(st, a);
      forall s ensures Term(Apply(st, a), s) <= Apply(st, a).clock {
        assert Term(st, s) <= st.clock;
      }
    } else {
      var st' := Apply(st, a);
      forall s ensures Term(st', s) <= st'.clock {
        assert Term(st, s) <= st.clock;
      }
    }
  }

  // ---- The invariant is kept ---------------------------------------------------------

  lemma OtherStays(st: State, st': State, v: Worker)
    requires LeaseOk(st, v, At(st, v)) && At(st', v) == At(st, v)
    requires KeepsRowsOf(st, st', v) && st.clock <= st'.clock
    ensures LeaseOk(st', v, At(st', v))
  {
  }

  /** A turn of the cycle: no pass is under way before or after. */
  lemma TurnFence(st: State, a: Action)
    requires !a.Append? && !a.Close? && Enabled(st, a) && LeaseOk(st, a.w, At(st, a.w)) && TermsOk(st)
    requires a.BeginCycle? || a.ScanForTake? || a.AcquireCreate? || a.AcquireRead? || a.AcquireClaim?
      || a.ScanForRun? || a.EndCycle? || a.Crash? || a.BeginRelease? || a.ReleaseFlush? || a.Release?
      || a.Publish? || a.Collect?
    ensures LeaseOk(Apply(st, a), a.w, At(Apply(st, a), a.w))
  {
    if a.ScanForRun? {
      forall s ensures TermIn(st.terms, s) <= st.clock {
        assert Term(st, s) <= st.clock;
      }
    }
  }

  lemma FenceWith(st: State, w: Worker, l: Local, s: ShardId, p: Pass)
    requires LeaseOk(st, w, l) && l.stage.Running? && s in l.stage.started && PassFence(st, w, s, p)
    ensures LeaseOk(st, w, WithPass(l, s, p))
  {
  }

  lemma FenceLess(st: State, w: Worker, l: Local, s: ShardId)
    requires LeaseOk(st, w, l)
    ensures LeaseOk(st, w, PassOver(l, s)) && LeaseOk(st, w, PassLost(l, s))
  {
  }

  /** Moving only this worker's passes and pending acks changes nobody's standing. */
  lemma FenceMoved(st: State, st': State, w: Worker, l: Local)
    requires LeaseOk(st, w, l)
    requires st'.table == st.table && st'.terms == st.terms && st.clock <= st'.clock
    ensures LeaseOk(st', w, l)
  {
  }

  lemma StartFence(st: State, w: Worker, s: ShardId)
    requires FenceInv(st) && Enabled(st, StartPass(w, s))
    ensures LeaseOk(Started(st, w, s), w, At(Started(st, w, s), w))
  {
    assert LeaseOk(st, w, At(st, w));
  }

  lemma ReadFence(st: State, w: Worker, s: ShardId, count: nat, end: bool)
    requires HasPass(st, w, s) && LeaseOk(st, w, At(st, w))
    ensures LeaseOk(Fetched(st, w, s, count, end), w, At(Fetched(st, w, s, count, end), w))
  {
    var st', l, p := Fetched(st, w, s, count, end), At(st, w), PassOf(st, w, s);
    assert PassFence(st, w, s, p);
    if count > 0 {
      FenceWith(st, w, l, s, p.(phase := Holding(count, end)));
    } else if end {
      FenceWith(st, w, l, s, p.(phase := Ending));
    } else {
      FenceLess(st, w, l, s);
    }
    FenceMoved(st, st', w, At(st', w));
  }

  lemma SkipFence(st: State, a: Action)
    requires (a.ReadFails? || a.SkipFlush?) && Enabled(st, a) && LeaseOk(st, a.w, At(st, a.w))
    ensures LeaseOk(Apply(st, a), a.w, At(Apply(st, a), a.w))
  {
    var st', l, p := Apply(st, a), At(st, a.w), PassOf(st, a.w, a.s);
    assert PassFence(st, a.w, a.s, p);
    if a.SkipFlush? {
      FenceWith(st, a.w, l, a.s, p.(phase := Completing));
    } else {
      FenceLess(st, a.w, l, a.s);
    }
    FenceMoved(st, st', a.w, At(st', a.w));
  }

  lemma RepliedFence(st: State, w: Worker, l: Local, s: ShardId, p: Pass, reply: Reply, due: bool)
    requires p.phase.Holding? && s in l.passes && l.passes[s] == p && LeaseOk(st, w, l)
    ensures LeaseOk(st, w, Replied(st.config, w, l, s, p, reply, due))
  {
    var next := p.after + p.phase.count;
    assert PassFence(st, w, s, p);
    match reply {
      case Failed => FenceLess(st, w, l, s);
      case Unacked => FenceWith(st, w, l, s, AfterBatch(p, next, p.phase.end));
      case Acked(ack) =>
        var noted := if w in st.config.deferred then l.(pending := l.pending[s := Pend(ack, p.term)]) else l;
        assert LeaseOk(st, w, noted);
        FenceWith(st, w, noted, s, AfterBatch(p, next, p.phase.end));
        FenceWith(st, w, noted, s, p.(phase := Saving(ack, next, p.phase.end)));
    }
  }

  lemma DeliverFence(st: State, w: Worker, s: ShardId, reply: Reply, due: bool)
    requires HasPass(st, w, s) && PassOf(st, w, s).phase.Holding? && LeaseOk(st, w, At(st, w))
    ensures LeaseOk(Delivered(st, w, s, reply, due), w, At(Delivered(st, w, s, reply, due), w))
  {
    var st' := Delivered(st, w, s, reply, due);
    RepliedFence(st, w, At(st, w), s, PassOf(st, w, s), reply, due);
    FenceMoved(st, st', w, At(st', w));
  }

  /** A write that lands moves the row's counter and the pass's counter together. */
  lemma WrittenFence(st: State, st': State, w: Worker, l: Local, s: ShardId, row: Row)
    requires LeaseOk(st, w, l) && l.stage.Running? && s in l.stage.started && s !in l.passes
    requires st'.table == st.table[s := row] && st'.terms == st.terms && st'.clock == st.clock
    ensures LeaseOk(st', w, l)
  {
  }

  lemma PassIsFenced(st: State, w: Worker, s: ShardId)
    requires LeaseOk(st, w, At(st, w)) && HasPass(st, w, s)
    ensures PassFence(st, w, s, PassOf(st, w, s)) && At(st, w).stage.Running? && s in At(st, w).stage.started
  {
  }

  lemma SaveFence(st: State, w: Worker, s: ShardId, fate: Fate)
    requires Enabled(st, Save(w, s, fate)) && LeaseOk(st, w, At(st, w))
    ensures LeaseOk(Saved(st, w, s, fate), w, At(Saved(st, w, s, fate), w))
  {
    hide LeaseOk;
    var st', l, p := Saved(st, w, s, fate), At(st, w), PassOf(st, w, s);
    PassIsFenced(st, w, s);
    FenceLess(st, w, l, s);
    if fate.Refused? {
      FenceMoved(st, st', w, PassLost(l, s));
    } else {
      WrittenFence(st, st', w, PassLost(l, s), s, st'.table[s]);
      if fate.Landed? {
        var next := AfterBatch(p.(counter := p.counter + 1), p.phase.next, p.phase.end);
        FenceWith(st', w, PassLost(l, s), s, next);
        assert At(st', w) == WithPass(PassLost(l, s), s, next);
      }
    }
  }

  lemma FlushFence(st: State, w: Worker, s: ShardId, fate: Fate)
    requires Enabled(st, Flush(w, s, fate)) && LeaseOk(st, w, At(st, w))
    ensures LeaseOk(Flushed(st, w, s, fate), w, At(Flushed(st, w, s, fate), w))
  {
    hide LeaseOk;
    var st', l, p := Flushed(st, w, s, fate), At(st, w), PassOf(st, w, s);
    PassIsFenced(st, w, s);
    FenceLess(st, w, l, s);
    if fate.Refused? {
      FenceMoved(st, st', w, PassLost(l, s));
    } else {
      WrittenFence(st, st', w, PassLost(l, s), s, st'.table[s]);
      if fate.Landed? {
        var next := p.(counter := p.counter + 1, phase := Completing);
        FenceWith(st', w, PassLost(l, s), s, next);
        assert At(st', w) == WithPass(PassLost(l, s), s, next);
      }
    }
  }

  lemma CompleteFence(st: State, w: Worker, s: ShardId, fate: Fate)
    requires Enabled(st, Complete(w, s, fate)) && LeaseOk(st, w, At(st, w))
    ensures LeaseOk(Apply(st, Complete(w, s, fate)), w, At(Apply(st, Complete(w, s, fate)), w))
  {
    var st', l := Apply(st, Complete(w, s, fate)), At(st, w);
    FenceLess(st, w, l, s);
    if fate.Refused? {
      FenceMoved(st, st', w, PassLost(l, s));
    } else {
      WrittenFence(st, st', w, PassLost(l, s), s, st'.table[s]);
    }
  }

  lemma StepKeepsFence(st: State, a: Action)
    requires FenceInv(st) && Enabled(st, a)
    ensures FenceInv(Apply(st, a))
  {
    TermsGrow(st, a);
    forall v: Worker ensures LeaseOk(Apply(st, a), v, At(Apply(st, a), v)) {
      assert LeaseOk(st, v, At(st, v));
      if ByOther(a, v) {
        if OfPass(a) { OtherPassesKeepRows(st, a, v); } else { OthersKeepRows(st, a, v); }
        OtherStays(st, Apply(st, a), v);
      } else {
        ActorFence(st, a);
      }
    }
  }

  lemma ActorFence(st: State, a: Action)
    requires !a.Append? && !a.Close? && FenceInv(st) && Enabled(st, a)
    ensures LeaseOk(Apply(st, a), a.w, At(Apply(st, a), a.w))
  {
    assert LeaseOk(st, a.w, At(st, a.w));
    match a {
      case StartPass(w, s) => StartFence(st, w, s);
      case Read(w, s, count, end) => ReadFence(st, w, s, count, end);
      case ReadFails(_, _) => SkipFence(st, a);
      case Deliver(w, s, reply, due) => DeliverFence(st, w, s, reply, due);
      case SkipFlush(_, _) => SkipFence(st, a);
      case Save(w, s, fate) => SaveFence(st, w, s, fate);
      case Flush(w, s, fate) => FlushFence(st, w, s, fate);
      case Complete(w, s, fate) => CompleteFence(st, w, s, fate);
      case _ => TurnFence(st, a);
    }
  }

  // ---- Fenced passes -----------------------------------------------------------------

  predicate IsPass(st: State, w: Worker, s: ShardId, id: nat) {
    HasPass(st, w, s) && PassOf(st, w, s).id == id
  }

  /** Pass `id` of `w` on `s` is over, or its worker no longer owns the row. */
  predicate Fenced(st: State, w: Worker, s: ShardId, id: nat) {
    id <= st.clock && (IsPass(st, w, s, id) ==> !OwnerIs(st, s, w))
  }

  /** Another worker's claim on the row fences every pass on it. */
  lemma ClaimFences(st: State, v: Worker, w: Worker, s: ShardId)
    requires FenceInv(st) && v != w && HasPass(st, w, s)
    requires Enabled(st, AcquireClaim(v, true)) && At(st, v).stage.read.value.0 == s
    ensures Fenced(Apply(st, AcquireClaim(v, true)), w, s, PassOf(st, w, s).id)
  {
    assert LeaseOk(st, w, At(st, w));
  }

  predicate IsWrite(a: Action, w: Worker, s: ShardId) {
    (a.Save? || a.Flush? || a.Complete?) && a.w == w && a.s == s
  }

  /** From here on every write of pass `id` is refused. */
  ghost predicate NeverWrites(st: State, acts: seq<Action>, w: Worker, s: ShardId, id: nat)
    requires Runs(st, acts)
    decreases |acts|
  {
    acts == [] ||
    (&& (IsWrite(acts[0], w, s) && IsPass(st, w, s, id) ==> acts[0].fate.Refused?)
     && NeverWrites(Apply(st, acts[0]), acts[1..], w, s, id))
  }

  /** A fenced pass stays fenced: its worker cannot take the row back while a pass runs. */
  lemma StepKeepsFenced(st: State, a: Action, w: Worker, s: ShardId, id: nat)
    requires FenceInv(st) && Enabled(st, a) && Fenced(st, w, s, id)
    ensures Fenced(Apply(st, a), w, s, id)
  {
    TermsGrow(st, a);
    assert LeaseOk(st, w, At(st, w));
    if ByOther(a, w) {
      if OfPass(a) { OtherPassesKeepRows(st, a, w); } else { OthersKeepRows(st, a, w); }
    } else {
      OwnStepKeepsFenced(st, a, s, id);
    }
  }

  /** No pass step changes who owns a row. */
  lemma PassesKeepOwners(st: State, a: Action, s: ShardId)
    requires OfPass(a) && Enabled(st, a)
    ensures OwnerIs(Apply(st, a), s, a.w) ==> OwnerIs(st, s, a.w)
  {
  }

  /** A write leaves the other passes alone, and its own pass goes on only if it landed. */
  lemma WritesKeepIds(st: State, a: Action, w: Worker, s: ShardId)
    requires (a.Save? || a.Flush? || a.Complete?) && Enabled(st, a)
    ensures Apply(st, a).hist == st.hist
    ensures HasPass(Apply(st, a), w, s) ==> HasPass(st, w, s) && PassOf(Apply(st, a), w, s).id == PassOf(st, w, s).id
    ensures a.w == w && a.s == s && !a.fate.Landed? ==> !HasPass(Apply(st, a), w, s)
    ensures (a.w != w || a.s != s) && HasPass(st, w, s) ==>
      HasPass(Apply(st, a), w, s) && PassOf(Apply(st, a), w, s) == PassOf(st, w, s)
  {
  }

  lemma DeliveriesKeepIds(st: State, v: Worker, t: ShardId, reply: Reply, due: bool, w: Worker, s: ShardId)
    requires HasPass(st, v, t) && PassOf(st, v, t).phase.Holding?
    ensures var st' := Delivered(st, v, t, reply, due);
            HasPass(st', w, s) ==> HasPass(st, w, s) && PassOf(st', w, s).id == PassOf(st, w, s).id
  {
  }

  lemma FetchesKeepIds(st: State, v: Worker, t: ShardId, count: nat, end: bool, w: Worker, s: ShardId)
    requires HasPass(st, v, t)
    ensures var st' := Fetched(st, v, t, count, end);
            HasPass(st', w, s) ==> HasPass(st, w, s) && PassOf(st', w, s).id == PassOf(st, w, s).id
  {
  }

  lemma StartsKeepIds(st: State, v: Worker, t: ShardId, w: Worker, s: ShardId, id: nat)
    requires At(st, v).stage.Running? && t in At(st, v).stage.rows && id <= st.clock
    ensures IsPass(Started(st, v, t), w, s, id) ==> IsPass(st, w, s, id)
  {
  }

  lemma ReadsKeepIds(st: State, a: Action, w: Worker, s: ShardId, id: nat)
    requires (a.StartPass? || a.Read? || a.ReadFails? || a.SkipFlush?) && Enabled(st, a) && id <= st.clock
    ensures Apply(st, a).hist == st.hist
    ensures IsPass(Apply(st, a), w, s, id) ==> IsPass(st, w, s, id)
  {
    if a.Read? {
      FetchesKeepIds(st, a.w, a.s, a.count, a.end, w, s);
    } else if a.StartPass? {
      StartsKeepIds(st, a.w, a.s, w, s, id);
    }
  }

  /** An old pass id is never handed out again. */
  lemma PassesKeepIds(st: State, a: Action, s: ShardId, id: nat)
    requires OfPass(a) && Enabled(st, a) && id <= st.clock
    ensures IsPass(Apply(st, a), a.w, s, id) ==> IsPass(st, a.w, s, id)
  {
    if a.Save? || a.Flush? || a.Complete? {
      WritesKeepIds(st, a, a.w, s);
    } else if a.Deliver? {
      DeliveriesKeepIds(st, a.w, a.s, a.reply, a.due, a.w, s);
    } else {
      ReadsKeepIds(st, a, a.w, s, id);
    }
  }

  lemma TurnsRunNoPass(st: State, a: Action)
    requires !OfPass(a) && !a.Append? && !a.Close? && Enabled(st, a) && LeaseOk(st, a.w, At(st, a.w))
    ensures At(Apply(st, a), a.w).passes == map[]
  {
  }

  lemma OwnStepKeepsFenced(st: State, a: Action, s: ShardId, id: nat)
    requires !a.Append? && !a.Close? && Enabled(st, a)
    requires LeaseOk(st, a.w, At(st, a.w)) && Fenced(st, a.w, s, id)
    ensures IsPass(Apply(st, a), a.w, s, id) ==> !OwnerIs(Apply(st, a), s, a.w)
  {
    if OfPass(a) {
      PassesKeepOwners(st, a, s);
      PassesKeepIds(st, a, s, id);
    } else {
      TurnsRunNoPass(st, a);
    }
  }

  /** Fencing: once its worker lost the row, no write of a pass lands, ever. */
  lemma {:induction false} FencedNeverWrites(st: State, acts: seq<Action>, w: Worker, s: ShardId, id: nat)
    requires FenceInv(st) && Runs(st, acts) && Fenced(st, w, s, id)
    ensures NeverWrites(st, acts, w, s, id)
    decreases |acts|
  {
    if acts != [] {
      StepKeepsFence(st, acts[0]);
      StepKeepsFenced(st, acts[0], w, s, id);
      FencedNeverWrites(Apply(st, acts[0]), acts[1..], w, s, id);
    }
  }

  lemma {:induction false} FenceAlways(st: State, acts: seq<Action>)
    requires FenceInv(st) && Runs(st, acts)
    ensures FenceInv(After(st, acts))
    decreases |acts|
  {
    if acts != [] {
      StepKeepsFence(st, acts[0]);
      FenceAlways(Apply(st, acts[0]), acts[1..]);
    }
  }

  // ---- The bounded tail --------------------------------------------------------------

  predicate ByPass(e: Event, w: Worker, s: ShardId, id: nat) {
    e.worker == w && e.shard == s && e.pass == id
  }

  /** How many batches of a history pass `id` delivered. */
  function Count(hist: seq<Event>, w: Worker, s: ShardId, id: nat): nat {
    if hist == [] then 0
    else Count(hist[..|hist| - 1], w, s, id) + if ByPass(hist[|hist| - 1], w, s, id) then 1 else 0
  }

  /** Batches a fenced pass may still deliver: the one in hand, or about to be read. */
  function Credit(st: State, w: Worker, s: ShardId, id: nat): nat {
    if IsPass(st, w, s, id) && (PassOf(st, w, s).phase.Reading? || PassOf(st, w, s).phase.Holding?) then 1
    else 0
  }

  lemma CountStep(h: seq<Event>, e: Event, w: Worker, s: ShardId, id: nat)
    ensures Count(h + [e], w, s, id) == Count(h, w, s, id) + if ByPass(e, w, s, id) then 1 else 0
  {
    assert (h + [e])[..|h|] == h;
  }

  lemma ReadCredit(st: State, a: Action, w: Worker, s: ShardId, id: nat)
    requires (a.StartPass? || a.Read? || a.ReadFails? || a.SkipFlush?) && Enabled(st, a) && id <= st.clock
    ensures Apply(st, a).hist == st.hist
    ensures Credit(Apply(st, a), w, s, id) <= Credit(st, w, s, id)
  {
    match a
    case Read(v, t, count, end) => FetchCredit(st, v, t, count, end, w, s, id);
    case _ =>
  }

  lemma FetchCredit(st: State, v: Worker, t: ShardId, count: nat, end: bool, w: Worker, s: ShardId, id: nat)
    requires HasPass(st, v, t) && PassOf(st, v, t).phase.Reading?
    ensures Fetched(st, v, t, count, end).hist == st.hist
    ensures Credit(Fetched(st, v, t, count, end), w, s, id) <= Credit(st, w, s, id)
  {
  }

  lemma PassCredit(st: State, a: Action, w: Worker, s: ShardId, id: nat)
    requires OfPass(a) && !a.Deliver? && Enabled(st, a) && Fenced(st, w, s, id)
    ensures Apply(st, a).hist == st.hist
    ensures Credit(Apply(st, a), w, s, id) <= Credit(st, w, s, id)
  {
    if a.Save? || a.Flush? || a.Complete? {
      WritesKeepIds(st, a, w, s);
    } else {
      ReadCredit(st, a, w, s, id);
    }
  }

  lemma TurnCredit(st: State, a: Action, w: Worker, s: ShardId, id: nat)
    requires !OfPass(a) && Enabled(st, a) && LeaseOk(st, w, At(st, w))
    ensures Apply(st, a).hist == st.hist
    ensures Credit(Apply(st, a), w, s, id) <= Credit(st, w, s, id)
  {
  }

  /** What a reply leaves a per-batch pass with, when every batch is acked, is no longer reading. */
  lemma ReplySpends(config: Config, w: Worker, l: Local, s: ShardId, p: Pass, reply: Reply, due: bool)
    requires p.phase.Holding? && w !in config.deferred && !reply.Unacked?
    ensures var l' := Replied(config, w, l, s, p, reply, due);
            s in l'.passes ==> l'.passes[s].phase.Saving? && !reply.Failed?
  {
  }

  lemma OwnDeliverCredit(st: State, w: Worker, s: ShardId, reply: Reply, due: bool, id: nat)
    requires Enabled(st, Deliver(w, s, reply, due)) && w !in st.config.deferred && st.config.acksAlways
    ensures var st' := Delivered(st, w, s, reply, due);
            Count(st'.hist, w, s, id) + Credit(st', w, s, id) <= Count(st.hist, w, s, id) + Credit(st, w, s, id)
  {
    var p := PassOf(st, w, s);
    ReplySpends(st.config, w, At(st, w), s, p, reply, due);
    CountStep(st.hist, Event(w, p.id, s, p.after, p.after + p.phase.count), w, s, id);
    hide Replied;
  }

  /** A delivery of another pass. */
  lemma OtherDeliverCredit(st: State, v: Worker, t: ShardId, reply: Reply, due: bool, w: Worker, s: ShardId, id: nat)
    requires HasPass(st, v, t) && PassOf(st, v, t).phase.Holding? && !(v == w && t == s)
    ensures var st' := Delivered(st, v, t, reply, due);
            Count(st'.hist, w, s, id) == Count(st.hist, w, s, id) && Credit(st', w, s, id) == Credit(st, w, s, id)
  {
    var p := PassOf(st, v, t);
    DeliverFramed(st, v, t, reply, due);
    CountStep(st.hist, Event(v, p.id, t, p.after, p.after + p.phase.count), w, s, id);
    hide Replied;
    assert v == w ==> SameAt(At(st, v), At(Delivered(st, v, t, reply, due), v), s);
  }

  /** A delivery spends the credit: an acked batch leads into a write that is refused. */
  lemma DeliverCredit(st: State, v: Worker, t: ShardId, reply: Reply, due: bool, w: Worker, s: ShardId, id: nat)
    requires Enabled(st, Deliver(v, t, reply, due)) && w !in st.config.deferred && st.config.acksAlways
    ensures var st' := Delivered(st, v, t, reply, due);
            Count(st'.hist, w, s, id) + Credit(st', w, s, id) <= Count(st.hist, w, s, id) + Credit(st, w, s, id)
  {
    hide Delivered, Count, Credit;
    if v == w && t == s {
      OwnDeliverCredit(st, w, s, reply, due, id);
    } else {
      OtherDeliverCredit(st, v, t, reply, due, w, s, id);
    }
  }

  lemma StepSpendsCredit(st: State, a: Action, w: Worker, s: ShardId, id: nat)
    requires FenceInv(st) && Enabled(st, a) && Fenced(st, w, s, id)
    requires w !in st.config.deferred && st.config.acksAlways
    ensures var st' := Apply(st, a);
            Count(st'.hist, w, s, id) + Credit(st', w, s, id) <= Count(st.hist, w, s, id) + Credit(st, w, s, id)
  {
    assert LeaseOk(st, w, At(st, w));
    if a.Deliver? {
      DeliverCredit(st, a.w, a.s, a.reply, a.due, w, s, id);
    } else if OfPass(a) {
      PassCredit(st, a, w, s, id);
    } else {
      TurnCredit(st, a, w, s, id);
    }
  }

  lemma ConfigFixed(st: State, a: Action)
    requires Enabled(st, a)
    ensures Apply(st, a).config == st.config
  {
    if OfPass(a) {
      hide Enabled, Apply;
      PassFramed(st, a);
    }
  }

  /** The bounded tail: a fenced pass of an acked per-batch worker delivers at most one more batch. */
  lemma {:induction false} BoundedTail(st: State, acts: seq<Action>, w: Worker, s: ShardId, id: nat)
    requires FenceInv(st) && Runs(st, acts) && Fenced(st, w, s, id)
    requires w !in st.config.deferred && st.config.acksAlways
    ensures Count(After(st, acts).hist, w, s, id) <= Count(st.hist, w, s, id) + Credit(st, w, s, id)
    decreases |acts|
  {
    if acts != [] {
      StepKeepsFence(st, acts[0]);
      StepKeepsFenced(st, acts[0], w, s, id);
      StepSpendsCredit(st, acts[0], w, s, id);
      ConfigFixed(st, acts[0]);
      BoundedTail(Apply(st, acts[0]), acts[1..], w, s, id);
    }
  }

  /**
   Lease loss, from a fresh table: after `before`, worker `v` claims shard `s` away from a
   pass of `w`; whatever happens in `later`, no write of that pass lands, and if `w` acks
   and persists every batch, the pass delivers at most one batch more.
   */
  lemma LeaseLoss(st: State, before: seq<Action>, v: Worker, w: Worker, s: ShardId, later: seq<Action>)
    requires Init(st) && Runs(st, before)
    requires var lost := After(st, before);
             && v != w && HasPass(lost, w, s)
             && Enabled(lost, AcquireClaim(v, true)) && At(lost, v).stage.read.value.0 == s
             && Runs(Apply(lost, AcquireClaim(v, true)), later)
    ensures var lost := After(st, before);
            var id := PassOf(lost, w, s).id;
            var taken := Apply(lost, AcquireClaim(v, true));
            && NeverWrites(taken, later, w, s, id)
            && (w !in taken.config.deferred && taken.config.acksAlways ==>
                Count(After(taken, later).hist, w, s, id) <= Count(taken.hist, w, s, id) + 1)
  {
    var lost := After(st, before);
    FenceAlways(st, before);
    StepKeepsFence(lost, AcquireClaim(v, true));
    ClaimFences(lost, v, w, s);
    var taken, id := Apply(lost, AcquireClaim(v, true)), PassOf(lost, w, s).id;
    FencedNeverWrites(taken, later, w, s, id);
    if w !in taken.config.deferred && taken.config.acksAlways {
      BoundedTail(taken, later, w, s, id);
    }
  }
}
