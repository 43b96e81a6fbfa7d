/**
 The checkpoint guard is exact: in a run that kept it, the next step is safe if and only if
 it keeps it too. A start that breaks it can always go on to lower the checkpoint.
 */
module FleetGuard {
  import opened Types
  import opened LeaseTable
  import opened Fleet
  import opened FleetFrames
  import opened FleetSafety
  import opened FleetFencing
  import opened FleetCheckpoints

  /** From `st` the run `acts` goes on to `end`. */
  ghost predicate GoesTo(st: State, acts: seq<Action>, s: ShardId, end: State) {
    GoesOn(st, acts, s) && After(st, acts) == end
  }

  /** Whatever careful run follows, the checkpoint of `s` is never below what it is now. */
  ghost predicate SafeStep(st: State, a: Action, s: ShardId)
    requires Enabled(st, a) && s in st.table
  {
    forall acts, end :: GoesTo(Apply(st, a), acts, s, end) ==>
      s in end.table && st.table[s].checkpoint <= end.table[s].checkpoint
  }

  lemma GoesNowhere(st: State, s: ShardId)
    requires s in st.table
    ensures GoesTo(st, [], s, st)
  {
  }

  lemma {:induction false} GoesFurther(st: State, acts: seq<Action>, s: ShardId, end: State, a: Action)
    requires GoesTo(st, acts, s, end) && Enabled(end, a) && NotBehind(end, a, s) && s in Apply(end, a).table
    ensures GoesTo(st, acts + [a], s, Apply(end, a))
    decreases |acts|
  {
    hide Enabled, Apply, NotBehind;
    if acts == [] {
      assert acts + [a] == [a] && [a][1..] == [];
      GoesNowhere(Apply(st, a), s);
      assert Runs(st, [a]) && Careful(st, [a], s) && KeepsRow(st, [a], s) && After(st, [a]) == Apply(st, a);
    } else {
      GoesFurther(Apply(st, acts[0]), acts[1..], s, end, a);
      assert (acts + [a])[0] == acts[0];
      assert (acts + [a])[1..] == acts[1..] + [a];
    }
  }

  ghost predicate Step(st: State, a: Action, st': State) {
    Enabled(st, a) && Apply(st, a) == st'
  }

  /** Nothing but a start and a shutdown's write is guarded. */
  lemma Onward(st: State, acts: seq<Action>, s: ShardId, mid: State, a: Action, end: State)
    requires GoesTo(st, acts, s, mid) && Step(mid, a, end) && s in end.table
    requires !a.StartPass? && !a.ReleaseFlush?
    ensures GoesTo(st, acts + [a], s, end)
  {
    hide GoesTo, Enabled, Apply;
    GoesFurther(st, acts, s, mid, a);
  }

  /** A harmless step, in a state reached by keeping the guard, is safe. */
  lemma HarmlessIsSafe(st: State, a: Action, s: ShardId)
    requires AheadInv(st, s) && Enabled(st, a) && Harmless(st, a, s) && s in st.table
    ensures SafeStep(st, a, s)
  {
    hide Enabled, Apply, Harmless;
    forall acts, end | GoesTo(Apply(st, a), acts, s, end)
      ensures s in end.table && st.table[s].checkpoint <= end.table[s].checkpoint
    {
      NeverBack(st, a, s);
      StepKeepsAhead(st, a, s);
      MonotoneFrom(Apply(st, a), acts, s);
    }
  }

  /** `w` is about to start a pass on a row it holds, with a pending ack the guard refuses. */
  ghost predicate StaleStart(st: State, w: Worker, s: ShardId) {
    && Inv(st) && Enabled(st, StartPass(w, s)) && !NotBehind(st, StartPass(w, s), s)
    && OwnerIs(st, s, w) && At(st, w).stage.rows[s] == st.table[s] && w in st.config.deferred
  }

  /** A pass of `w` at `p` on a row it holds, with a pending ack. */
  predicate Working(st: State, w: Worker, s: ShardId, p: Pass, ack: nat, row: Row) {
    && HasPass(st, w, s) && PassOf(st, w, s) == p && s in At(st, w).pending && At(st, w).pending[s].ack == ack
    && s in st.table && st.table[s] == row && row.owner == Some(w) && row.counter == p.counter
    && s in st.logs && w in st.config.deferred
  }

  lemma StartWorks(st: State, w: Worker, s: ShardId) returns (p: Pass)
    requires StaleStart(st, w, s)
    ensures Started(st, w, s).logs == st.logs && Started(st, w, s).config == st.config
    ensures p.phase.Reading? && p.after == At(st, w).pending[s].ack
    ensures Working(Started(st, w, s), w, s, p, At(st, w).pending[s].ack, st.table[s])
    ensures At(st, w).pending[s].ack + Slack(st.config) < st.table[s].checkpoint <= st.logs[s].len
  {
    CheckpointInLog(st, s);
    hide Inv;
    p := PassOf(Started(st, w, s), w, s);
  }

  function Closed(st: State, s: ShardId): State
    requires s in st.logs
  {
    st.(logs := st.logs[s := Log(st.logs[s].len, true)])
  }

  lemma CloseWorks(st: State, w: Worker, s: ShardId, p: Pass, ack: nat, row: Row)
    requires Working(st, w, s, p, ack, row)
    ensures Step(st, Close(s), Closed(st, s)) && Working(Closed(st, s), w, s, p, ack, row)
    ensures Closed(st, s).logs == st.logs[s := Log(st.logs[s].len, true)]
    ensures Closed(st, s).config == st.config
  {
  }

  lemma ReadWorks(st: State, w: Worker, s: ShardId, p: Pass, ack: nat, row: Row, n: nat, end: bool)
    requires Working(st, w, s, p, ack, row) && p.phase.Reading? && n > 0 && p.after + n <= st.logs[s].len
    requires end ==> st.logs[s].closed && p.after + n == st.logs[s].len
    ensures Step(st, Read(w, s, n, end), Fetched(st, w, s, n, end))
    ensures Working(Fetched(st, w, s, n, end), w, s, p.(phase := Holding(n, end)), ack, row)
    ensures Fetched(st, w, s, n, end).config == st.config
  {
  }

  lemma UnackedWorks(st: State, w: Worker, s: ShardId, p: Pass, ack: nat, row: Row)
    requires Working(st, w, s, p, ack, row) && p.phase.Holding? && p.phase.end && !st.config.acksAlways
    ensures Step(st, Deliver(w, s, Unacked, false), Delivered(st, w, s, Unacked, false))
    ensures Working(Delivered(st, w, s, Unacked, false), w, s,
                    p.(after := p.after + p.phase.count, phase := Ending), ack, row)
  {
  }

  lemma FlushLands(st: State, w: Worker, s: ShardId, p: Pass, ack: nat, row: Row)
    requires Working(st, w, s, p, ack, row) && p.phase.Ending?
    ensures Step(st, Flush(w, s, Landed), Flushed(st, w, s, Landed)) && s in Flushed(st, w, s, Landed).table
    ensures Flushed(st, w, s, Landed).table[s].checkpoint == ack
  {
  }

  lemma AckedWorks(st: State, w: Worker, s: ShardId, p: Pass, ack: nat, row: Row)
    requires Working(st, w, s, p, ack, row) && p.phase.Holding? && p.phase.count == 1
    ensures Step(st, Deliver(w, s, Acked(p.after + 1), true), Delivered(st, w, s, Acked(p.after + 1), true))
    ensures Working(Delivered(st, w, s, Acked(p.after + 1), true), w, s,
                    p.(phase := Saving(p.after + 1, p.after + 1, p.phase.end)), p.after + 1, row)
  {
  }

  lemma SaveLands(st: State, w: Worker, s: ShardId, p: Pass, ack: nat, row: Row)
    requires Working(st, w, s, p, ack, row) && p.phase.Saving?
    ensures Step(st, Save(w, s, Landed), Saved(st, w, s, Landed)) && s in Saved(st, w, s, Landed).table
    ensures Saved(st, w, s, Landed).table[s].checkpoint == p.phase.ack
  {
  }

  /** If a batch may go unacked: the log ends, the last batch is not acked, the stale ack is flushed. */
  lemma UnackedGoesBack(st: State, w: Worker, s: ShardId) returns (acts: seq<Action>, end: State)
    requires StaleStart(st, w, s) && !st.config.acksAlways
    ensures GoesTo(Started(st, w, s), acts, s, end) && |acts| == 4
    ensures s in end.table && end.table[s].checkpoint < st.table[s].checkpoint
  {
    var p := StartWorks(st, w, s);
    var st0, ack, row := Started(st, w, s), At(st, w).pending[s].ack, st.table[s];
    var n := st.logs[s].len - ack;
    hide GoesTo, StaleStart, Step, Started, Fetched, Delivered, Flushed, At;
    GoesNowhere(st0, s);
    CloseWorks(st0, w, s, p, ack, row);
    var st1 := Closed(st0, s);
    Onward(st0, [], s, st0, Close(s), st1);
    ReadWorks(st1, w, s, p, ack, row, n, true);
    var st2, p2 := Fetched(st1, w, s, n, true), p.(phase := Holding(n, true));
    acts := [] + [Close(s)];
    Onward(st0, acts, s, st1, Read(w, s, n, true), st2);
    UnackedWorks(st2, w, s, p2, ack, row);
    var st3, p3 := Delivered(st2, w, s, Unacked, false), p2.(after := p2.after + n, phase := Ending);
    acts := acts + [Read(w, s, n, true)];
    Onward(st0, acts, s, st2, Deliver(w, s, Unacked, false), st3);
    FlushLands(st3, w, s, p3, ack, row);
    end := Flushed(st3, w, s, Landed);
    acts := acts + [Deliver(w, s, Unacked, false)];
    Onward(st0, acts, s, st3, Flush(w, s, Landed), end);
    acts := acts + [Flush(w, s, Landed)];
  }

  /** If every batch is acked: the next record is acked and its checkpoint written at once. */
  lemma AckedGoesBack(st: State, w: Worker, s: ShardId) returns (acts: seq<Action>, end: State)
    requires StaleStart(st, w, s) && st.config.acksAlways
    ensures GoesTo(Started(st, w, s), acts, s, end) && |acts| == 3
    ensures s in end.table && end.table[s].checkpoint < st.table[s].checkpoint
  {
    var p := StartWorks(st, w, s);
    var st0, ack, row := Started(st, w, s), At(st, w).pending[s].ack, st.table[s];
    hide GoesTo, StaleStart, Step, Started, Fetched, Delivered, Saved, At;
    GoesNowhere(st0, s);
    ReadWorks(st0, w, s, p, ack, row, 1, false);
    var st1, p1 := Fetched(st0, w, s, 1, false), p.(phase := Holding(1, false));
    Onward(st0, [], s, st0, Read(w, s, 1, false), st1);
    AckedWorks(st1, w, s, p1, ack, row);
    var told := Deliver(w, s, Acked(ack + 1), true);
    var st2, p2 := Delivered(st1, w, s, Acked(ack + 1), true), p1.(phase := Saving(ack + 1, ack + 1, false));
    acts := [] + [Read(w, s, 1, false)];
    Onward(st0, acts, s, st1, told, st2);
    SaveLands(st2, w, s, p2, ack + 1, row);
    end := Saved(st2, w, s, Landed);
    acts := acts + [told];
    Onward(st0, acts, s, st2, Save(w, s, Landed), end);
    acts := acts + [Save(w, s, Landed)];
  }

  /** Whenever the guard is broken on a held row, four more steps at most lower its checkpoint. */
  lemma StaleStartGoesBack(st: State, w: Worker, s: ShardId) returns (acts: seq<Action>, end: State)
    requires StaleStart(st, w, s)
    ensures GoesTo(Started(st, w, s), acts, s, end) && |acts| <= 4
    ensures s in end.table && end.table[s].checkpoint < st.table[s].checkpoint
  {
    hide GoesTo, StaleStart;
    if st.config.acksAlways {
      acts, end := AckedGoesBack(st, w, s);
    } else {
      acts, end := UnackedGoesBack(st, w, s);
    }
  }

  /**
   The exact condition, for every step of every worker: after a run that kept the guard of
   `s`, a step is safe for the checkpoint of `s` if and only if it keeps the guard too, or
   starts a pass on a row its worker has lost.
   */
  lemma SafeExactly(st: State, before: seq<Action>, a: Action, s: ShardId)
    requires Init(st) && st.config.acksInside && Runs(st, before) && Careful(st, before, s)
    requires Enabled(After(st, before), a) && s in After(st, before).table
    ensures SafeStep(After(st, before), a, s) <==> Harmless(After(st, before), a, s)
  {
    var here := After(st, before);
    FreshIsAhead(st, s);
    AheadAlways(st, before, s);
    if Harmless(here, a, s) {
      HarmlessIsSafe(here, a, s);
    } else {
      HarmfulIsUnsafe(here, a, s);
    }
  }

  lemma HarmfulIsUnsafe(st: State, a: Action, s: ShardId)
    requires AheadInv(st, s) && Enabled(st, a) && s in st.table && !Harmless(st, a, s)
    ensures !SafeStep(st, a, s)
  {
    if a.StartPass? {
      AheadFacts(st, a.w, s);
      assert ScanFence(st, a.w, s, At(st, a.w).stage.rows[s], TermIn(At(st, a.w).stage.terms, s));
      var acts, end := StaleStartGoesBack(st, a.w, s);
      assert GoesTo(Apply(st, a), acts, s, end);
    } else {
      ReleaseWrites(st, a.w, s, a.fate);
      GoesNowhere(Apply(st, a), s);
    }
  }
}
