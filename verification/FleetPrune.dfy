/**
 The prune at the re-list: a running worker has acks in hand only for what its own scan
 lists as its own, so a start behind the checkpoint needs a lease lost and retaken unlisted.
 */
module FleetPrune {
  import opened Types
  import opened LeaseTable
  import opened Fleet
  import opened FleetFrames
  import opened FleetSafety
  import opened FleetFencing
  import opened FleetCheckpoints

  // ---- What a running worker has in hand ---------------------------------------------

  /** While a worker runs, it has a pass or a pending ack of `s` only if its scan lists `s` as its own. */
  predicate Listed(l: Local, w: Worker, s: ShardId) {
    l.stage.Running? && (s in l.pending || s in l.passes) ==>
      s in l.stage.rows && l.stage.rows[s].owner == Some(w) && !l.stage.rows[s].completed
  }

  lemma OwnPassListed(st: State, a: Action, s: ShardId)
    requires OfPass(a) && a.s == s && Enabled(st, a) && Listed(At(st, a.w), a.w, s)
    requires LeaseOk(st, a.w, At(st, a.w))
    ensures Listed(At(Apply(st, a), a.w), a.w, s)
  {
    if !a.StartPass? {
      PassFramed(st, a);
      hide Apply;
    }
  }

  lemma FramedListed(st: State, a: Action, s: ShardId)
    requires OfPass(a) && a.s != s && Enabled(st, a) && Listed(At(st, a.w), a.w, s)
    ensures Listed(At(Apply(st, a), a.w), a.w, s)
  {
    PassFramed(st, a);
    StartKeepsScan(st, a);
    hide Apply, Enabled;
    assert SameAt(At(st, a.w), At(Apply(st, a), a.w), s);
  }

  lemma StartKeepsScan(st: State, a: Action)
    requires OfPass(a) && Enabled(st, a)
    ensures var l, l' := At(st, a.w), At(Apply(st, a), a.w);
            && (l'.stage.Running? <==> l.stage.Running?)
            && (l.stage.Running? ==> l'.stage.rows == l.stage.rows)
            && (l.stage.Running? ==> l'.stage.started == l.stage.started + if a.StartPass? then {a.s} else {})
  {
    PassFramed(st, a);
    if !a.StartPass? {
      hide Apply, Enabled;
    }
  }

  lemma TurnListed(st: State, a: Action, s: ShardId)
    requires !OfPass(a) && !a.Append? && !a.Close? && Enabled(st, a)
    requires Listed(At(st, a.w), a.w, s) && LeaseOk(st, a.w, At(st, a.w))
    ensures Listed(At(Apply(st, a), a.w), a.w, s)
  {
  }

  lemma StepListed(st: State, a: Action, w: Worker, s: ShardId)
    requires Enabled(st, a) && FenceInv(st) && Listed(At(st, w), w, s)
    ensures Listed(At(Apply(st, a), w), w, s)
  {
    assert LeaseOk(st, w, At(st, w));
    hide Enabled, Apply, FenceInv, LeaseOk, Listed, At;
    if ByOther(a, w) {
      if OfPass(a) { OtherPassesKeepRows(st, a, w); } else { OthersKeepRows(st, a, w); }
    } else if !OfPass(a) {
      TurnListed(st, a, s);
    } else if a.s == s {
      OwnPassListed(st, a, s);
    } else {
      FramedListed(st, a, s);
    }
  }

  lemma {:induction false} ListedFrom(st: State, acts: seq<Action>, w: Worker, s: ShardId)
    requires Runs(st, acts) && FenceInv(st) && Listed(At(st, w), w, s)
    ensures Listed(At(After(st, acts), w), w, s)
    decreases |acts|
  {
    if acts != [] {
      hide Enabled, Apply, FenceInv, Listed, At;
      StepListed(st, acts[0], w, s);
      StepKeepsFence(st, acts[0]);
      ListedFrom(Apply(st, acts[0]), acts[1..], w, s);
    }
  }

  lemma FreshIsFenced(st: State, w: Worker)
    requires Init(st)
    ensures FenceInv(st)
  {
  }

  lemma FreshIsListed(st: State, w: Worker, s: ShardId)
    requires Init(st)
    ensures Listed(At(st, w), w, s)
  {
  }

  lemma ListsOwned(l: Local, w: Worker)
    requires forall s: ShardId :: Listed(l, w, s)
    ensures l.stage.Running? ==>
      l.pending.Keys <= Owned(l.stage.rows, w) && l.passes.Keys <= Owned(l.stage.rows, w)
  {
    if l.stage.Running? {
      forall s | s in l.pending || s in l.passes ensures s in Owned(l.stage.rows, w) {
        assert Listed(l, w, s);
      }
    }
  }

  /** In every reachable state a running worker's passes and pending acks are of shards its scan lists as its own. */
  lemma RunningIsPruned(st: State, acts: seq<Action>, w: Worker)
    requires Init(st) && Runs(st, acts)
    ensures var l := At(After(st, acts), w);
            l.stage.Running? ==>
              l.pending.Keys <= Owned(l.stage.rows, w) && l.passes.Keys <= Owned(l.stage.rows, w)
  {
    FreshIsFenced(st, w);
    var l := At(After(st, acts), w);
    hide At, After, Init, FenceInv, Listed;
    forall s: ShardId ensures Listed(l, w, s) {
      FreshIsListed(st, w, s);
      ListedFrom(st, acts, w, s);
    }
    ListsOwned(l, w);
  }

  // ---- Losing a lease and taking it back ---------------------------------------------

  predicate Takes(st: State, a: Action, s: ShardId) {
    && a.AcquireClaim? && a.landed && At(st, a.w).stage.Claiming? && At(st, a.w).stage.read.Some?
    && At(st, a.w).stage.read.value.0 == s
  }

  /** Another worker claims the row of `s` while `w` owns it. */
  predicate Loses(st: State, a: Action, w: Worker, s: ShardId) {
    Takes(st, a, s) && a.w != w && OwnerIs(st, s, w)
  }

  /** `w` acquires the lease of `s`. */
  predicate Retakes(st: State, a: Action, w: Worker, s: ShardId) {
    (Takes(st, a, s) && a.w == w) || a == AcquireCreate(w, s)
  }

  /** `w` lost `s` and has not re-listed since. */
  predicate LostBy(st: State, a: Action, w: Worker, s: ShardId, lost: bool) {
    a != ScanForRun(w) && (lost || Loses(st, a, w, s))
  }

  /** `w` never acquires the lease of `s` between losing it and the re-list after that. */
  ghost predicate Relists(st: State, acts: seq<Action>, w: Worker, s: ShardId, lost: bool)
    requires Runs(st, acts)
    decreases |acts|
  {
    acts == [] ||
    (&& !(lost && Retakes(st, acts[0], w, s))
     && Relists(Apply(st, acts[0]), acts[1..], w, s, LostBy(st, acts[0], w, s, lost)))
  }

  ghost predicate LostAfter(st: State, acts: seq<Action>, w: Worker, s: ShardId, lost: bool)
    requires Runs(st, acts)
    decreases |acts|
  {
    if acts == [] then lost
    else LostAfter(Apply(st, acts[0]), acts[1..], w, s, LostBy(st, acts[0], w, s, lost))
  }

  // ---- The invariant: until the lease is lost ----------------------------------------

  /** The scan lists `s` for a pass that is still to start. */
  predicate Awaits(l: Local, w: Worker, s: ShardId) {
    && l.stage.Running? && s in l.stage.rows && s !in l.stage.started
    && l.stage.rows[s].owner == Some(w) && !l.stage.rows[s].completed
  }

  predicate Active(l: Local, w: Worker, s: ShardId) {
    s in l.pending || s in l.passes || Awaits(l, w, s)
  }

  /** A pass that will write nothing below a checkpoint. */
  predicate PassBeyond(checkpoint: nat, p: Pass) {
    match p.phase
    case Saving(ack, next, _) => checkpoint <= ack <= next
    case Ending => true
    case Completing => true
    case _ => checkpoint <= p.after
  }

  /** The row is `w`'s, and nothing `w` has in hand for it is behind its checkpoint. */
  predicate InHand(st: State, w: Worker, l: Local, s: ShardId) {
    && OwnerIs(st, s, w) && !st.table[s].completed
    && (s in l.pending ==> st.table[s].checkpoint <= l.pending[s].ack)
    && (s in l.passes ==> PassBeyond(st.table[s].checkpoint, l.passes[s]))
  }

  predicate Tracked(st: State, w: Worker, l: Local, s: ShardId, lost: bool) {
    && (lost ==> !OwnerIs(st, s, w))
    && (!lost && Active(l, w, s) ==> InHand(st, w, l, s))
    && (Awaits(l, w, s) && s in l.pending ==> l.stage.rows[s].checkpoint <= l.pending[s].ack)
  }

  /** Another worker's step leaves an incomplete row of `w` alone, unless it takes the lease. */
  lemma OthersLeave(st: State, a: Action, w: Worker, s: ShardId)
    requires Enabled(st, a) && ByOther(a, w) && OwnerIs(st, s, w) && !st.table[s].completed && !Loses(st, a, w, s)
    ensures s in Apply(st, a).table && Apply(st, a).table[s] == st.table[s]
  {
    if OfPass(a) {
      hide Apply, Enabled;
      PassFramed(st, a);
      assert a.s != s ==> SameRow(st.table, Apply(st, a).table, s);
    }
  }

  lemma TrackedByOther(st: State, a: Action, w: Worker, s: ShardId, lost: bool)
    requires Enabled(st, a) && ByOther(a, w) && Tracked(st, w, At(st, w), s, lost)
    ensures Tracked(Apply(st, a), w, At(Apply(st, a), w), s, LostBy(st, a, w, s, lost))
  {
    if OfPass(a) { OtherPassesKeepRows(st, a, w); } else { OthersKeepRows(st, a, w); }
    if OwnerIs(st, s, w) && !st.table[s].completed && !Loses(st, a, w, s) {
      OthersLeave(st, a, w, s);
    }
    if Loses(st, a, w, s) {
      ClaimEnds(st, a, w, s);
    }
    hide Apply, Enabled, Active, Awaits, Loses, At;
  }

  lemma ClaimEnds(st: State, a: Action, w: Worker, s: ShardId)
    requires Enabled(st, a) && Loses(st, a, w, s)
    ensures !OwnerIs(Apply(st, a), s, w)
  {
  }

  // ---- The worker's own steps --------------------------------------------------------

  lemma TurnTracked(st: State, a: Action, s: ShardId, lost: bool)
    requires !OfPass(a) && !a.Append? && !a.Close? && Enabled(st, a) && !a.ScanForRun?
    requires Tracked(st, a.w, At(st, a.w), s, lost) && LeaseOk(st, a.w, At(st, a.w)) && !(lost && Retakes(st, a, a.w, s))
    ensures Tracked(Apply(st, a), a.w, At(Apply(st, a), a.w), s, LostBy(st, a, a.w, s, lost))
  {
  }

  lemma RelistTracked(st: State, w: Worker, s: ShardId, lost: bool)
    requires Enabled(st, ScanForRun(w))
    requires Tracked(st, w, At(st, w), s, lost) && LeaseOk(st, w, At(st, w))
    ensures Tracked(Apply(st, ScanForRun(w)), w, At(Apply(st, ScanForRun(w)), w), s, false)
  {
  }

  lemma StartTracked(st: State, w: Worker, s: ShardId, lost: bool)
    requires Enabled(st, StartPass(w, s)) && Tracked(st, w, At(st, w), s, lost) && LeaseOk(st, w, At(st, w))
    ensures Tracked(Started(st, w, s), w, At(Started(st, w, s), w), s, lost)
  {
    assert ScanFence(st, w, s, At(st, w).stage.rows[s], TermIn(At(st, w).stage.terms, s));
    hide LeaseOk;
  }

  lemma ReadTracked(st: State, w: Worker, s: ShardId, count: nat, end: bool, lost: bool)
    requires Enabled(st, Read(w, s, count, end)) && Tracked(st, w, At(st, w), s, lost) && LeaseOk(st, w, At(st, w))
    ensures Tracked(Fetched(st, w, s, count, end), w, At(Fetched(st, w, s, count, end), w), s, lost)
  {
    PassIsFenced(st, w, s);
    hide LeaseOk;
  }

  lemma SkipTracked(st: State, a: Action, lost: bool)
    requires (a.ReadFails? || a.SkipFlush?) && Enabled(st, a)
    requires Tracked(st, a.w, At(st, a.w), a.s, lost) && LeaseOk(st, a.w, At(st, a.w))
    ensures Tracked(Apply(st, a), a.w, At(Apply(st, a), a.w), a.s, lost)
  {
    PassIsFenced(st, a.w, a.s);
    hide LeaseOk;
  }

  lemma DeliverTracked(st: State, w: Worker, s: ShardId, reply: Reply, due: bool, lost: bool)
    requires Enabled(st, Deliver(w, s, reply, due)) && Tracked(st, w, At(st, w), s, lost) && LeaseOk(st, w, At(st, w))
    requires st.config.acksInside
    ensures Tracked(Delivered(st, w, s, reply, due), w, At(Delivered(st, w, s, reply, due), w), s, lost)
  {
    DeliverIsOk(st, w, s, reply, due);
    PassIsFenced(st, w, s);
    hide Enabled, LeaseOk;
  }

  lemma SaveTracked(st: State, w: Worker, s: ShardId, fate: Fate, lost: bool)
    requires Enabled(st, Save(w, s, fate)) && Tracked(st, w, At(st, w), s, lost) && LeaseOk(st, w, At(st, w))
    ensures Tracked(Saved(st, w, s, fate), w, At(Saved(st, w, s, fate), w), s, lost)
  {
    PassIsFenced(st, w, s);
    hide LeaseOk;
  }

  lemma FlushTracked(st: State, w: Worker, s: ShardId, fate: Fate, lost: bool)
    requires Enabled(st, Flush(w, s, fate)) && Tracked(st, w, At(st, w), s, lost) && LeaseOk(st, w, At(st, w))
    ensures Tracked(Flushed(st, w, s, fate), w, At(Flushed(st, w, s, fate), w), s, lost)
  {
    PassIsFenced(st, w, s);
    hide LeaseOk;
  }

  lemma CompleteTracked(st: State, w: Worker, s: ShardId, fate: Fate, lost: bool)
    requires Enabled(st, Complete(w, s, fate)) && Tracked(st, w, At(st, w), s, lost) && LeaseOk(st, w, At(st, w))
    ensures Tracked(Apply(st, Complete(w, s, fate)), w, At(Apply(st, Complete(w, s, fate)), w), s, lost)
  {
    PassIsFenced(st, w, s);
    hide LeaseOk;
  }

  lemma OwnPassTracked(st: State, a: Action, s: ShardId, lost: bool)
    requires OfPass(a) && a.s == s && Enabled(st, a) && st.config.acksInside
    requires Tracked(st, a.w, At(st, a.w), s, lost) && LeaseOk(st, a.w, At(st, a.w))
    ensures Tracked(Apply(st, a), a.w, At(Apply(st, a), a.w), s, lost)
  {
    hide Enabled, Tracked, LeaseOk, At, Started, Fetched, Delivered, Saved, Flushed;
    match a {
      case StartPass(w, _) => StartTracked(st, w, s, lost);
      case Read(w, _, count, end) => ReadTracked(st, w, s, count, end, lost);
      case ReadFails(_, _) => SkipTracked(st, a, lost);
      case Deliver(w, _, reply, due) => DeliverTracked(st, w, s, reply, due, lost);
      case SkipFlush(_, _) => SkipTracked(st, a, lost);
      case Save(w, _, fate) => SaveTracked(st, w, s, fate, lost);
      case Flush(w, _, fate) => FlushTracked(st, w, s, fate, lost);
      case Complete(w, _, fate) => CompleteTracked(st, w, s, fate, lost);
    }
  }

  /** A step of the pass on another shard. */
  lemma OtherPassTracked(st: State, a: Action, s: ShardId, lost: bool)
    requires OfPass(a) && a.s != s && Enabled(st, a) && Tracked(st, a.w, At(st, a.w), s, lost)
    ensures Tracked(Apply(st, a), a.w, At(Apply(st, a), a.w), s, lost)
  {
    PassFramed(st, a);
    StartKeepsScan(st, a);
    hide Apply, Enabled, At;
    assert SameRow(st.table, Apply(st, a).table, s) && SameAt(At(st, a.w), At(Apply(st, a), a.w), s);
  }

  lemma PassIsNoLoss(a: Action, st: State, w: Worker, s: ShardId, lost: bool)
    requires OfPass(a)
    ensures LostBy(st, a, w, s, lost) == lost
  {
  }

  lemma StepTracked(st: State, a: Action, w: Worker, s: ShardId, lost: bool)
    requires Enabled(st, a) && FenceInv(st) && st.config.acksInside
    requires Tracked(st, w, At(st, w), s, lost) && !(lost && Retakes(st, a, w, s))
    ensures Tracked(Apply(st, a), w, At(Apply(st, a), w), s, LostBy(st, a, w, s, lost))
  {
    assert LeaseOk(st, w, At(st, w));
    hide Enabled, Apply, FenceInv, LeaseOk, Tracked, At, Retakes, Loses;
    if ByOther(a, w) {
      TrackedByOther(st, a, w, s, lost);
    } else if OfPass(a) {
      PassIsNoLoss(a, st, w, s, lost);
      if a.s == s { OwnPassTracked(st, a, s, lost); } else { OtherPassTracked(st, a, s, lost); }
    } else if a.ScanForRun? {
      RelistTracked(st, w, s, lost);
    } else {
      TurnTracked(st, a, s, lost);
    }
  }

  // ---- Runs --------------------------------------------------------------------------

  lemma {:induction false} TrackedAlways(st: State, acts: seq<Action>, w: Worker, s: ShardId, lost: bool)
    requires Runs(st, acts) && FenceInv(st) && st.config.acksInside
    requires Tracked(st, w, At(st, w), s, lost) && Relists(st, acts, w, s, lost)
    ensures FenceInv(After(st, acts)) && After(st, acts).config == st.config
    ensures Tracked(After(st, acts), w, At(After(st, acts), w), s, LostAfter(st, acts, w, s, lost))
    decreases |acts|
  {
    if acts != [] {
      hide Enabled, Apply, FenceInv, Tracked, At, Retakes, LostBy;
      StepTracked(st, acts[0], w, s, lost);
      StepKeepsFence(st, acts[0]);
      ConfigFixed(st, acts[0]);
      TrackedAlways(Apply(st, acts[0]), acts[1..], w, s, LostBy(st, acts[0], w, s, lost));
    }
  }

  lemma FreshIsTracked(st: State, w: Worker, s: ShardId)
    requires Init(st)
    ensures Tracked(st, w, At(st, w), s, false)
  {
  }

  /** Whatever is in hand is not behind. */
  lemma TrackedIsNotBehind(st: State, a: Action, s: ShardId, lost: bool)
    requires Enabled(st, a) && (a.StartPass? || a.ReleaseFlush? ==> Tracked(st, a.w, At(st, a.w), s, lost))
    ensures NotBehind(st, a, s)
  {
  }

  /** A worker that re-lists between losing `s` and acquiring it again keeps the guard of `s`. */
  lemma RelistingKeepsGuard(st: State, acts: seq<Action>, a: Action, s: ShardId)
    requires Init(st) && st.config.acksInside && Runs(st, acts) && Enabled(After(st, acts), a)
    requires a.StartPass? || a.ReleaseFlush? ==> Relists(st, acts, a.w, s, false)
    ensures NotBehind(After(st, acts), a, s)
  {
    if a.StartPass? || a.ReleaseFlush? {
      FreshIsTracked(st, a.w, s);
      FreshIsFenced(st, a.w);
      TrackedAlways(st, acts, a.w, s, false);
      TrackedIsNotBehind(After(st, acts), a, s, LostAfter(st, acts, a.w, s, false));
    }
  }

  // ---- The same, with the moments named ----------------------------------------------

  ghost function StateAt(st: State, acts: seq<Action>, i: nat): State
    requires Runs(st, acts) && i <= |acts|
    decreases i
  {
    if i == 0 then st else StateAt(Apply(st, acts[0]), acts[1..], i - 1)
  }

  /** At `i` worker `w` loses `s`, at `j` it acquires it again, and it has not re-listed in between. */
  ghost predicate RetakenUnlisted(st: State, acts: seq<Action>, w: Worker, s: ShardId, i: nat, j: nat)
    requires Runs(st, acts)
  {
    && i < j < |acts| && Loses(StateAt(st, acts, i), acts[i], w, s) && Retakes(StateAt(st, acts, j), acts[j], w, s)
    && ScanForRun(w) !in acts[i + 1..j]
  }

  /** Lost before the run, acquired at `j`, and not re-listed until then. */
  ghost predicate RetakenAt(st: State, acts: seq<Action>, w: Worker, s: ShardId, j: nat)
    requires Runs(st, acts)
  {
    j < |acts| && Retakes(StateAt(st, acts, j), acts[j], w, s) && ScanForRun(w) !in acts[..j]
  }

  lemma SliceShifts(acts: seq<Action>, i: nat, j: nat)
    requires i <= j < |acts|
    ensures acts[i + 1..j + 1] == acts[1..][i..j]
  {
  }

  lemma SliceStarts(acts: seq<Action>, j: nat)
    requires j < |acts|
    ensures acts[..j + 1] == [acts[0]] + acts[1..][..j] && acts[1..][0..j] == acts[1..][..j]
  {
  }

  lemma {:induction false} UnlistedRetake(st: State, acts: seq<Action>, w: Worker, s: ShardId, lost: bool)
    returns (i: nat, j: nat)
    requires Runs(st, acts) && !Relists(st, acts, w, s, lost)
    ensures RetakenUnlisted(st, acts, w, s, i, j) || (lost && RetakenAt(st, acts, w, s, j))
    decreases |acts|
  {
    hide Enabled, Apply, Retakes, Loses;
    var a, rest := acts[0], acts[1..];
    if lost && Retakes(st, a, w, s) {
      i, j := 0, 0;
      assert acts[..0] == [];
      return;
    }
    i, j := UnlistedRetake(Apply(st, a), rest, w, s, LostBy(st, a, w, s, lost));
    if RetakenUnlisted(Apply(st, a), rest, w, s, i, j) {
      SliceShifts(acts, i + 1, j);
      i, j := i + 1, j + 1;
    } else {
      SliceShifts(acts, 0, j);
      SliceStarts(acts, j);
      i, j := 0, j + 1;
    }
  }

  /**
   When the guard of `s` is broken, by a pass that starts or a shutdown's write that lands,
   the worker lost the lease of `s` to another before, acquired it again, and did not re-list
   between the two.
   */
  lemma BrokenGuardWasRetaken(st: State, acts: seq<Action>, a: Action, s: ShardId) returns (i: nat, j: nat)
    requires Init(st) && st.config.acksInside && Runs(st, acts)
    requires Enabled(After(st, acts), a) && !NotBehind(After(st, acts), a, s)
    ensures (a.StartPass? || a.ReleaseFlush?) && RetakenUnlisted(st, acts, a.w, s, i, j)
  {
    hide Enabled, Apply, Relists, RetakenUnlisted;
    if Relists(st, acts, a.w, s, false) {
      RelistingKeepsGuard(st, acts, a, s);
    }
    i, j := UnlistedRetake(st, acts, a.w, s, false);
  }

  // ---- Runs in which everyone re-lists -----------------------------------------------

  lemma {:induction false} RelistedIsCareful(st: State, acts: seq<Action>, s: ShardId, lost: Worker -> bool)
    requires Runs(st, acts) && FenceInv(st) && st.config.acksInside
    requires forall w: Worker :: Tracked(st, w, At(st, w), s, lost(w)) && Relists(st, acts, w, s, lost(w))
    ensures Careful(st, acts, s)
    decreases |acts|
  {
    if acts != [] {
      var a := acts[0];
      hide Enabled, Apply, FenceInv, Tracked, At, Retakes, NotBehind, LostBy;
      var lost' := (w: Worker) => LostBy(st, a, w, s, lost(w));
      forall w: Worker
        ensures Tracked(Apply(st, a), w, At(Apply(st, a), w), s, lost'(w)) && Relists(Apply(st, a), acts[1..], w, s, lost'(w))
      {
        assert Tracked(st, w, At(st, w), s, lost(w)) && Relists(st, acts, w, s, lost(w));
        StepTracked(st, a, w, s, lost(w));
      }
      if a.StartPass? || a.ReleaseFlush? {
        assert Tracked(st, a.w, At(st, a.w), s, lost(a.w));
        TrackedIsNotBehind(st, a, s, lost(a.w));
      } else {
        TrackedIsNotBehind(st, a, s, false);
      }
      StepKeepsFence(st, a);
      ConfigFixed(st, a);
      RelistedIsCareful(Apply(st, a), acts[1..], s, lost');
    }
  }

  /**
   No guard is needed then: a run in which every worker re-lists between losing `s` and
   acquiring it again never moves the checkpoint of `s` back.
   */
  lemma RelistedNeverGoesBack(st: State, before: seq<Action>, acts: seq<Action>, s: ShardId)
    requires Init(st) && st.config.acksInside && Runs(st, before)
    requires Runs(After(st, before), acts) && KeepsRow(After(st, before), acts, s)
    requires forall w: Worker ::
      Relists(st, before, w, s, false) && Relists(After(st, before), acts, w, s, LostAfter(st, before, w, s, false))
    ensures s in After(After(st, before), acts).table
    ensures After(st, before).table[s].checkpoint <= After(After(st, before), acts).table[s].checkpoint
  {
    FreshIsFenced(st, 0);
    var mid := After(st, before);
    hide Enabled, Apply, Init, FenceInv, Tracked, At, Relists, LostAfter, Runs, Careful, KeepsRow;
    forall w: Worker
      ensures Tracked(st, w, At(st, w), s, false)
      ensures Tracked(mid, w, At(mid, w), s, LostAfter(st, before, w, s, false))
    {
      FreshIsTracked(st, w, s);
      TrackedAlways(st, before, w, s, false);
    }
    TrackedAlways(st, before, 0, s, false);
    RelistedIsCareful(st, before, s, (w: Worker) => false);
    RelistedIsCareful(mid, acts, s, (w: Worker) => LostAfter(st, before, w, s, false));
    MonotoneCheckpoints(st, before, acts, s);
  }
}
