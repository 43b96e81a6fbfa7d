/**
 One pass over a shard, as the worker runs it, amid a fleet that does what it likes between
 any two calls. The pass is shown to be a run of the fleet's step system: each call to the
 source, the consumer or the store is one of its steps.
 */
module ShardPass {
  import opened Types
  import opened LeaseTable
  import opened Fleet
  import opened FleetFrames
  import opened FleetSafety
  import opened CkptDefer

  /** What the world has in store for one call: foreign steps first, then the answers. */
  datatype Round = Round(others: seq<Action>, count: nat, end: bool, reply: Reply, fate: Fate, now: nat)

  datatype PassOutcome = Active | Idle | Ended | Stopped | SourceFailed

  /** A step that neither belongs to the pass nor kills the process it runs in. */
  predicate Foreign(a: Action, w: Worker, s: ShardId) {
    !(a.Crash? && a.w == w) && !(OfPass(a) && a.w == w && a.s == s)
  }

  /** The pass of `w` on `s` is under way. */
  predicate InPass(st: State, w: Worker, s: ShardId) {
    HasPass(st, w, s) && At(st, w).stage.Running? && s in At(st, w).stage.started
  }

  function PendingOf(st: State, w: Worker, s: ShardId): Option<nat> {
    if s in At(st, w).pending then Some(At(st, w).pending[s].ack) else None
  }

  predicate Spared(st: State, st': State, w: Worker, s: ShardId)
    requires InPass(st, w, s)
  {
    && InPass(st', w, s) && PassOf(st', w, s) == PassOf(st, w, s)
    && PendingOf(st', w, s) == PendingOf(st, w, s) && st'.config == st.config
  }

  lemma StartSpares(st: State, v: Worker, t: ShardId, w: Worker, s: ShardId)
    requires InPass(st, w, s) && Enabled(st, StartPass(v, t)) && !(v == w && t == s)
    ensures Spared(st, Apply(st, StartPass(v, t)), w, s)
  {
  }

  lemma FramedSpares(st: State, st': State, v: Worker, t: ShardId, w: Worker, s: ShardId)
    requires InPass(st, w, s) && Framed(st, st', v, t) && !(v == w && t == s)
    requires At(st', v).stage == At(st, v).stage
    ensures Spared(st, st', w, s)
  {
    assert v == w ==> SameAt(At(st, v), At(st', v), s);
    hide At;
  }

  lemma PassesSpare(st: State, a: Action, w: Worker, s: ShardId)
    requires InPass(st, w, s) && OfPass(a) && !a.StartPass? && Enabled(st, a) && !(a.w == w && a.s == s)
    ensures Spared(st, Apply(st, a), w, s)
  {
    hide Enabled, Apply, Framed, InPass, Spared, At;
    PassFramed(st, a);
    FramedSpares(st, Apply(st, a), a.w, a.s, w, s);
  }

  lemma TablesSpare(st: State, a: Action, w: Worker, s: ShardId)
    requires InPass(st, w, s) && Enabled(st, a)
    requires a.Append? || a.Close? || a.Publish? || a.Collect? || a.AcquireCreate?
    ensures Spared(st, Apply(st, a), w, s)
  {
  }

  lemma CyclesSpare(st: State, a: Action, w: Worker, s: ShardId)
    requires InPass(st, w, s) && Enabled(st, a) && !(a.Crash? && a.w == w)
    requires !OfPass(a) && !(a.Append? || a.Close? || a.Publish? || a.Collect? || a.AcquireCreate?)
    ensures Spared(st, Apply(st, a), w, s)
  {
  }

  /** Foreign steps leave a pass and its pending ack alone. */
  lemma ForeignSpares(st: State, a: Action, w: Worker, s: ShardId)
    requires InPass(st, w, s) && Enabled(st, a) && Foreign(a, w, s)
    ensures Spared(st, Apply(st, a), w, s)
  {
    hide Enabled, Apply, Spared, InPass, HasPass, PassOf, At;
    if a.StartPass? {
      StartSpares(st, a.w, a.s, w, s);
    } else if OfPass(a) {
      PassesSpare(st, a, w, s);
    } else if a.Append? || a.Close? || a.Publish? || a.Collect? || a.AcquireCreate? {
      TablesSpare(st, a, w, s);
    } else {
      CyclesSpare(st, a, w, s);
    }
  }

  /** The calls of the pass of `w` on `s` among the steps of a run. */
  predicate OfThisPass(a: Action, w: Worker, s: ShardId) {
    OfPass(a) && a.w == w && a.s == s
  }

  function PassActs(acts: seq<Action>, w: Worker, s: ShardId): seq<Action> {
    if acts == [] then []
    else
      var a := acts[|acts| - 1];
      PassActs(acts[..|acts| - 1], w, s) + if OfThisPass(a, w, s) then [a] else []
  }

  lemma PassActsStep(acts: seq<Action>, a: Action, w: Worker, s: ShardId)
    ensures PassActs(acts + [a], w, s) == PassActs(acts, w, s) + if OfThisPass(a, w, s) then [a] else []
  {
    assert (acts + [a])[..|acts|] == acts;
  }

  /** The calls `w` makes to release its leases among the steps of a run. */
  predicate OfRelease(a: Action, w: Worker) {
    (a.ReleaseFlush? || a.Release?) && a.w == w
  }

  function ReleaseActs(acts: seq<Action>, w: Worker): seq<Action> {
    if acts == [] then []
    else
      var a := acts[|acts| - 1];
      ReleaseActs(acts[..|acts| - 1], w) + if OfRelease(a, w) then [a] else []
  }

  lemma ReleaseActsStep(acts: seq<Action>, a: Action, w: Worker)
    ensures ReleaseActs(acts + [a], w) == ReleaseActs(acts, w) + if OfRelease(a, w) then [a] else []
  {
    assert (acts + [a])[..|acts|] == acts;
  }

  // ---- What the world answered -------------------------------------------------------

  /** One pass over a shard, or the release of a worker's leases. */
  datatype Task = OnePass(w: Worker, s: ShardId) | Shutdown(w: Worker)

  /** The calls of a task that wait for an answer. */
  predicate Waits(a: Action, t: Task) {
    match t
    case OnePass(w, s) => OfThisPass(a, w, s) && !a.StartPass? && !a.SkipFlush?
    case Shutdown(w) => OfRelease(a, w)
  }

  /** The consumer's answer, if it is one to a batch of this range. */
  function ReplyOf(rounds: seq<Round>, config: Config, lo: nat, hi: nat): Reply {
    if rounds != [] && AckOk(config, lo, hi, rounds[0].reply) then rounds[0].reply else Reply.Failed
  }

  /** The store's answer to a write: refused if the lease is lost, whatever the world has in store. */
  function FateOf(rounds: seq<Round>, held: bool): Fate {
    if rounds != [] && held then rounds[0].fate else Refused
  }

  /** In `st` the call came out as the next round of the world says. */
  ghost predicate Answers(st: State, a: Action, rounds: seq<Round>)
    requires Enabled(st, a)
  {
    match a
    case Read(_, _, count, end) => rounds != [] && rounds[0].count == count && rounds[0].end == end
    case ReadFails(w, s) => rounds == [] || !Enabled(st, Read(w, s, rounds[0].count, rounds[0].end))
    case Deliver(w, s, reply, _) =>
      var p := PassOf(st, w, s);
      reply == ReplyOf(rounds, st.config, p.after, p.after + p.phase.count)
    case Save(w, s, fate) => fate == FateOf(rounds, Held(st.table, s, w, PassOf(st, w, s).counter))
    case Flush(w, s, fate) => fate == FateOf(rounds, Held(st.table, s, w, PassOf(st, w, s).counter))
    case Complete(w, s, fate) => fate == FateOf(rounds, Held(st.table, s, w, PassOf(st, w, s).counter))
    case ReleaseFlush(w, s, fate) => fate == FateOf(rounds, Held(st.table, s, w, At(st, w).stage.held[s]))
    case Release(w, s, fate) => fate == FateOf(rounds, Held(st.table, s, w, At(st, w).stage.held[s]))
    case _ => true
  }

  ghost function Asked(acts: seq<Action>, t: Task): nat {
    if acts == [] then 0 else (if Waits(acts[0], t) then 1 else 0) + Asked(acts[1..], t)
  }

  /** Round by round, every call that waits for an answer came out as the world said. */
  ghost predicate Honest(st: State, acts: seq<Action>, t: Task, rounds: seq<Round>)
    requires Runs(st, acts)
    decreases |acts|
  {
    acts == [] ||
    (&& (Waits(acts[0], t) ==> Answers(st, acts[0], rounds))
     && Honest(Apply(st, acts[0]), acts[1..], t, Later(rounds, if Waits(acts[0], t) then 1 else 0)))
  }

  /** From one moment to another: a run, in which each call that waits used up a round and got its answer. */
  ghost predicate Went(st: State, acts: seq<Action>, rounds: seq<Round>,
                       st': State, acts': seq<Action>, rounds': seq<Round>, t: Task) {
    && acts <= acts' && Reaches(st, acts'[|acts|..], st')
    && Honest(st, acts'[|acts|..], t, rounds) && rounds' == Later(rounds, Asked(acts'[|acts|..], t))
  }

  lemma HonestOne(st: State, a: Action, t: Task, rounds: seq<Round>)
    requires Enabled(st, a) && (Waits(a, t) ==> Answers(st, a, rounds))
    ensures Reaches(st, [a], Apply(st, a)) && Honest(st, [a], t, rounds) && Asked([a], t) == if Waits(a, t) then 1 else 0
  {
    hide Enabled, Apply, Waits, Answers, Later;
    ReachNone(Apply(st, a));
    HonestFirst(st, a, [], Apply(st, a), t, rounds);
    assert [a] + [] == [a];
  }

  /** A run starts with one call and goes on from there. */
  lemma HonestFirst(st: State, a: Action, rest: seq<Action>, end: State, t: Task, rounds: seq<Round>)
    requires Enabled(st, a) && Reaches(Apply(st, a), rest, end)
    ensures Reaches(st, [a] + rest, end)
    ensures Asked([a] + rest, t) == (if Waits(a, t) then 1 else 0) + Asked(rest, t)
    ensures Honest(st, [a] + rest, t, rounds) <==>
      && (Waits(a, t) ==> Answers(st, a, rounds))
      && Honest(Apply(st, a), rest, t, Later(rounds, if Waits(a, t) then 1 else 0))
  {
    hide Enabled, Apply, Waits, Answers, Later;
    assert ([a] + rest)[0] == a && ([a] + rest)[1..] == rest;
  }

  lemma HonestStep(st: State, acts: seq<Action>, end: State, a: Action, t: Task, rounds: seq<Round>)
    requires Reaches(st, acts, end) && Honest(st, acts, t, rounds) && Enabled(end, a)
    requires Waits(a, t) ==> Answers(end, a, Later(rounds, Asked(acts, t)))
    ensures Reaches(st, acts + [a], Apply(end, a)) && Honest(st, acts + [a], t, rounds)
    ensures Asked(acts + [a], t) == Asked(acts, t) + if Waits(a, t) then 1 else 0
  {
    HonestOne(end, a, t, Later(rounds, Asked(acts, t)));
    hide *;
    HonestJoin(st, acts, end, [a], Apply(end, a), t, rounds);
  }

  lemma {:induction false} HonestJoin(st: State, a: seq<Action>, mid: State, b: seq<Action>, end: State, t: Task, rounds: seq<Round>)
    requires Reaches(st, a, mid) && Honest(st, a, t, rounds)
    requires Reaches(mid, b, end) && Honest(mid, b, t, Later(rounds, Asked(a, t)))
    ensures Reaches(st, a + b, end) && Honest(st, a + b, t, rounds) && Asked(a + b, t) == Asked(a, t) + Asked(b, t)
    decreases |a|
  {
    hide Enabled, Apply, Waits, Answers, Later;
    if a == [] {
      LaterNone(rounds);
      assert a + b == b;
    } else {
      var n := if Waits(a[0], t) then 1 else 0;
      LaterLater(rounds, n, Asked(a[1..], t));
      HonestJoin(Apply(st, a[0]), a[1..], mid, b, end, t, Later(rounds, n));
      HonestFirst(st, a[0], a[1..] + b, end, t, rounds);
      assert a + b == [a[0]] + (a[1..] + b);
    }
  }

  lemma WentNowhere(st: State, acts: seq<Action>, rounds: seq<Round>, t: Task)
    ensures Went(st, acts, rounds, st, acts, rounds, t)
  {
    assert acts[|acts|..] == [];
    LaterNone(rounds);
  }

  lemma WentStep(st0: State, acts0: seq<Action>, rounds0: seq<Round>, st: State, acts: seq<Action>, rounds: seq<Round>,
                 a: Action, t: Task)
    requires Went(st0, acts0, rounds0, st, acts, rounds, t) && Enabled(st, a)
    requires Waits(a, t) ==> Answers(st, a, rounds)
    ensures Went(st0, acts0, rounds0, Apply(st, a), acts + [a], Later(rounds, if Waits(a, t) then 1 else 0), t)
  {
    hide Enabled, Apply, Waits, Answers, Later, Reaches, Honest, Asked;
    var seg := acts[|acts0|..];
    HonestStep(st0, seg, st, a, t, rounds0);
    assert (acts + [a])[|acts0|..] == seg + [a];
    LaterLater(rounds0, Asked(seg, t), if Waits(a, t) then 1 else 0);
  }

  lemma WentGrows(st: State, acts: seq<Action>, rounds: seq<Round>, st': State, acts': seq<Action>, rounds': seq<Round>, t: Task)
    requires Went(st, acts, rounds, st', acts', rounds', t)
    ensures acts <= acts'
  {
  }

  lemma WentOn(st0: State, acts0: seq<Action>, rounds0: seq<Round>, st1: State, acts1: seq<Action>, rounds1: seq<Round>,
               st2: State, acts2: seq<Action>, rounds2: seq<Round>, t: Task)
    requires Went(st0, acts0, rounds0, st1, acts1, rounds1, t) && Went(st1, acts1, rounds1, st2, acts2, rounds2, t)
    ensures Went(st0, acts0, rounds0, st2, acts2, rounds2, t) && acts0 <= acts2
  {
    hide Waits, Later, Reaches, Honest, Asked;
    var a, b := acts1[|acts0|..], acts2[|acts1|..];
    HonestJoin(st0, a, st1, b, st2, t, rounds0);
    assert acts2[|acts0|..] == a + b;
    LaterLater(rounds0, Asked(a, t), Asked(b, t));
  }

  class World {
    var st: State
    var script: seq<Round>
    var now: nat
    ghost const start: State
    ghost var acts: seq<Action>

    ghost predicate Valid()
      reads this
    {
      Reaches(start, acts, st)
    }

    constructor (st: State, script: seq<Round>)
      ensures Valid() && this.st == st && acts == []
    {
      this.st, this.script, now, start, acts := st, script, 0, st, [];
    }

    /** The calls of one pass so far. */
    ghost function Mine(w: Worker, s: ShardId): seq<Action>
      reads this`acts
    {
      PassActs(acts, w, s)
    }

    /** Take one step of the system. */
    method Do(a: Action)
      requires Valid() && Enabled(st, a)
      modifies this`st, this`acts
      ensures Valid() && st == Apply(old(st), a) && acts == old(acts) + [a]
    {
      ReachThenStep(start, acts, st, a);
      st := Apply(st, a);
      acts := acts + [a];
    }

    /** One call of the pass. */
    method Call(a: Action, w: Worker, s: ShardId)
      requires Valid() && Enabled(st, a) && OfThisPass(a, w, s)
      modifies this`st, this`acts
      ensures Valid() && st == Apply(old(st), a) && acts == old(acts) + [a]
      ensures Mine(w, s) == old(Mine(w, s)) + [a]
    {
      PassActsStep(acts, a, w, s);
      hide PassActs;
      Do(a);
    }

    /** The rest of the fleet moves; then the world has its answers ready. */
    method Turn(w: Worker, s: ShardId) returns (r: Option<Round>)
      requires Valid() && InPass(st, w, s)
      modifies this
      ensures Valid() && InPass(st, w, s) && PassOf(st, w, s) == old(PassOf(st, w, s))
      ensures PendingOf(st, w, s) == old(PendingOf(st, w, s)) && st.config == old(st.config)
      ensures old(acts) <= acts && old(now) <= now && Mine(w, s) == old(Mine(w, s))
      ensures |script| <= |old(script)| && (r.Some? ==> |script| < |old(script)|)
      ensures script == Later(old(script), 1) && r == if old(script) == [] then None else Some(old(script)[0])
      ensures Went(old(st), old(acts), old(script), st, acts, old(script), OnePass(w, s))
    {
      WentNowhere(st, acts, script, OnePass(w, s));
      if script == [] {
        return None;
      }
      ghost var rounds := script;
      var round := script[0];
      script, now := script[1..], Max(now, round.now);
      for i := 0 to |round.others|
        invariant Valid() && InPass(st, w, s) && PassOf(st, w, s) == old(PassOf(st, w, s))
        invariant PendingOf(st, w, s) == old(PendingOf(st, w, s)) && st.config == old(st.config)
        invariant old(acts) <= acts && |script| < |old(script)| && old(now) <= now
        invariant Mine(w, s) == old(Mine(w, s)) && script == Later(rounds, 1)
        invariant Went(old(st), old(acts), rounds, st, acts, rounds, OnePass(w, s))
      {
        var a := round.others[i];
        if Foreign(a, w, s) && Enabled(st, a) {
          hide Enabled, Apply, PassActs, Went;
          ForeignSpares(st, a, w, s);
          PassActsStep(acts, a, w, s);
          WentStep(old(st), old(acts), rounds, st, acts, rounds, a, OnePass(w, s));
          LaterNone(rounds);
          assert Spared(st, Apply(st, a), w, s);
          Do(a);
        }
      }
      r := Some(round);
    }

    /** Read on after the given position, or fail. */
    method GetRecords(w: Worker, s: ShardId, after: nat) returns (batch: Option<(nat, bool)>)
      requires Valid() && InPass(st, w, s) && PassOf(st, w, s).phase.Reading? && PassOf(st, w, s).after == after
      modifies this
      ensures Valid() && old(acts) <= acts && old(now) <= now && st.config == old(st.config)
      ensures PendingOf(st, w, s) == old(PendingOf(st, w, s))
      ensures batch.None? ==> !HasPass(st, w, s)
      ensures batch.Some? ==> |script| < |old(script)|
      ensures batch.Some? && batch.value == (0, false) ==> !HasPass(st, w, s)
      ensures batch.Some? && batch.value != (0, false) ==>
        InPass(st, w, s) && PassOf(st, w, s) == old(PassOf(st, w, s)).(phase :=
          if batch.value.0 > 0 then Holding(batch.value.0, batch.value.1) else Ending)
      ensures Mine(w, s) == old(Mine(w, s)) +
        [if batch.Some? then Read(w, s, batch.value.0, batch.value.1) else ReadFails(w, s)]
      ensures Went(old(st), old(acts), old(script), st, acts, script, OnePass(w, s))
    {
      hide Went, Reaches;
      ghost var rounds := script;
      var r := Turn(w, s);
      WentStep(old(st), old(acts), rounds, st, acts, rounds,
               if r.Some? && Enabled(st, Read(w, s, r.value.count, r.value.end))
               then Read(w, s, r.value.count, r.value.end) else ReadFails(w, s), OnePass(w, s));
      if r.Some? && Enabled(st, Read(w, s, r.value.count, r.value.end)) {
        Call(Read(w, s, r.value.count, r.value.end), w, s);
        batch := Some((r.value.count, r.value.end));
      } else {
        Call(ReadFails(w, s), w, s);
        batch := None;
      }
    }

    /** Hand the batch to the consumer and wait for its answer. */
    method Consult(w: Worker, s: ShardId) returns (reply: Reply)
      requires Valid() && InPass(st, w, s) && PassOf(st, w, s).phase.Holding?
      modifies this
      ensures Valid() && InPass(st, w, s) && PassOf(st, w, s) == old(PassOf(st, w, s))
      ensures PendingOf(st, w, s) == old(PendingOf(st, w, s)) && st.config == old(st.config)
      ensures old(acts) <= acts && old(now) <= now && |script| <= |old(script)| && Mine(w, s) == old(Mine(w, s))
      ensures AckOk(st.config, PassOf(st, w, s).after, PassOf(st, w, s).after + PassOf(st, w, s).phase.count, reply)
      ensures var p := PassOf(st, w, s); reply == ReplyOf(old(script), st.config, p.after, p.after + p.phase.count)
      ensures Went(old(st), old(acts), old(script), st, acts, old(script), OnePass(w, s)) && script == Later(old(script), 1)
    {
      hide Went, Reaches;
      var r := Turn(w, s);
      var p := PassOf(st, w, s);
      reply := if r.Some? && AckOk(st.config, p.after, p.after + p.phase.count, r.value.reply) then r.value.reply else Reply.Failed;
    }

    /** The consumer's answer takes effect. */
    method Told(w: Worker, s: ShardId, reply: Reply, due: bool, ghost rounds: seq<Round>)
      requires Valid() && InPass(st, w, s) && PassOf(st, w, s).phase.Holding?
      requires AckOk(st.config, PassOf(st, w, s).after, PassOf(st, w, s).after + PassOf(st, w, s).phase.count, reply)
      requires var p := PassOf(st, w, s); reply == ReplyOf(rounds, st.config, p.after, p.after + p.phase.count)
      modifies this`st, this`acts
      ensures Valid() && old(acts) <= acts && st.config == old(st.config)
      ensures Went(old(st), old(acts), rounds, st, acts, Later(rounds, 1), OnePass(w, s))
      ensures reply.Failed? ==> !HasPass(st, w, s) && PendingOf(st, w, s) == None
      ensures !reply.Failed? ==> InPass(st, w, s)
      ensures reply.Unacked? ==> PendingOf(st, w, s) == old(PendingOf(st, w, s))
      ensures reply.Acked? ==>
        PendingOf(st, w, s) == if w in st.config.deferred then Some(reply.ack) else old(PendingOf(st, w, s))
      ensures !reply.Failed? ==> var p := old(PassOf(st, w, s));
        PassOf(st, w, s) ==
          if reply.Acked? && (due || w !in st.config.deferred)
          then p.(phase := Saving(reply.ack, p.after + p.phase.count, p.phase.end))
          else AfterBatch(p, p.after + p.phase.count, p.phase.end)
      ensures Mine(w, s) == old(Mine(w, s)) + [Deliver(w, s, reply, due)]
    {
      hide Reaches, PassActs, Went;
      WentNowhere(st, acts, rounds, OnePass(w, s));
      WentStep(st, acts, rounds, st, acts, rounds, Deliver(w, s, reply, due), OnePass(w, s));
      Call(Deliver(w, s, reply, due), w, s);
    }

    /** A conditional write of the pass: it may fail at any time, and lands only if still held. */
    method Attempt(w: Worker, s: ShardId, counter: nat) returns (fate: Fate)
      requires Valid() && InPass(st, w, s) && PassOf(st, w, s).counter == counter
      modifies this
      ensures Valid() && InPass(st, w, s) && PassOf(st, w, s) == old(PassOf(st, w, s))
      ensures PendingOf(st, w, s) == old(PendingOf(st, w, s)) && st.config == old(st.config)
      ensures old(acts) <= acts && old(now) <= now && |script| <= |old(script)| && Mine(w, s) == old(Mine(w, s))
      ensures FateOk(fate, Held(st.table, s, w, counter)) && fate == FateOf(old(script), Held(st.table, s, w, counter))
      ensures Went(old(st), old(acts), old(script), st, acts, old(script), OnePass(w, s)) && script == Later(old(script), 1)
    {
      hide Went, Reaches;
      var r := Turn(w, s);
      fate := if r.Some? && Held(st.table, s, w, counter) then r.value.fate else Refused;
    }

    method Checkpoint(w: Worker, s: ShardId, counter: nat, ack: nat) returns (next: Option<nat>, ghost fate: Fate)
      requires Valid() && InPass(st, w, s) && PassOf(st, w, s).counter == counter
      requires PassOf(st, w, s).phase.Saving? && PassOf(st, w, s).phase.ack == ack
      modifies this
      ensures Valid() && old(acts) <= acts && old(now) <= now && st.config == old(st.config) && |script| <= |old(script)|
      ensures PendingOf(st, w, s) == None
      ensures next.None? ==> !HasPass(st, w, s)
      ensures next.Some? ==> next == Some(counter + 1) && InPass(st, w, s)
      ensures next.Some? ==> var p := old(PassOf(st, w, s));
        PassOf(st, w, s) == AfterBatch(p.(counter := counter + 1), p.phase.next, p.phase.end)
      ensures Mine(w, s) == old(Mine(w, s)) + [Save(w, s, fate)] && (next.Some? <==> fate.Landed?)
      ensures Went(old(st), old(acts), old(script), st, acts, script, OnePass(w, s))
    {
      hide Went, Reaches;
      ghost var rounds := script;
      var answer := Attempt(w, s, counter);
      WentStep(old(st), old(acts), rounds, st, acts, rounds, Save(w, s, answer), OnePass(w, s));
      Call(Save(w, s, answer), w, s);
      next, fate := if answer.Landed? then Some(counter + 1) else None, answer;
    }

    method FlushCheckpoint(w: Worker, s: ShardId, counter: nat, ack: nat) returns (next: Option<nat>, ghost fate: Fate)
      requires Valid() && InPass(st, w, s) && PassOf(st, w, s).counter == counter
      requires PassOf(st, w, s).phase.Ending? && PendingOf(st, w, s) == Some(ack)
      modifies this
      ensures Valid() && old(acts) <= acts && old(now) <= now && st.config == old(st.config) && |script| <= |old(script)|
      ensures PendingOf(st, w, s) == None
      ensures next.None? ==> !HasPass(st, w, s)
      ensures next.Some? ==> next == Some(counter + 1) && InPass(st, w, s)
      ensures next.Some? ==>
        PassOf(st, w, s) == old(PassOf(st, w, s)).(counter := counter + 1, phase := Completing)
      ensures Mine(w, s) == old(Mine(w, s)) + [Flush(w, s, fate)] && (next.Some? <==> fate.Landed?)
      ensures Went(old(st), old(acts), old(script), st, acts, script, OnePass(w, s))
    {
      hide Went, Reaches;
      ghost var rounds := script;
      var answer := Attempt(w, s, counter);
      WentStep(old(st), old(acts), rounds, st, acts, rounds, Flush(w, s, answer), OnePass(w, s));
      Call(Flush(w, s, answer), w, s);
      next, fate := if answer.Landed? then Some(counter + 1) else None, answer;
    }

    /** The flush of a release: the pending ack is written, or dropped. */
    method Flushes(w: Worker, s: ShardId, counter: nat, ack: nat, fate: Fate, ghost rounds: seq<Round>)
      requires Valid() && At(st, w).stage.Releasing? && s in At(st, w).stage.held && At(st, w).stage.held[s] == counter
      requires PendingOf(st, w, s) == Some(ack) && fate == FateOf(rounds, Held(st.table, s, w, counter))
      modifies this`st, this`acts
      ensures Valid() && old(acts) <= acts && st.config == old(st.config)
      ensures At(st, w).stage == Releasing(old(At(st, w)).stage.held[s := if fate.Landed? then counter + 1 else counter])
      ensures At(st, w).pending == old(At(st, w)).pending - {s}
      ensures fate.Landed? ==> st.table == Checkpointed(old(st.table), s, w, counter, ack)
      ensures ReleaseActs(acts, w) == old(ReleaseActs(acts, w)) + [ReleaseFlush(w, s, fate)]
      ensures Went(old(st), old(acts), rounds, st, acts, Later(rounds, 1), Shutdown(w))
    {
      ReleaseActsStep(acts, ReleaseFlush(w, s, fate), w);
      hide ReleaseActs, Went, Reaches;
      WentNowhere(st, acts, rounds, Shutdown(w));
      WentStep(st, acts, rounds, st, acts, rounds, ReleaseFlush(w, s, fate), Shutdown(w));
      Do(ReleaseFlush(w, s, fate));
    }

    method Releases(w: Worker, s: ShardId, counter: nat, fate: Fate, ghost rounds: seq<Round>)
      requires Valid() && At(st, w).stage.Releasing? && s in At(st, w).stage.held && At(st, w).stage.held[s] == counter
      requires s !in At(st, w).pending && fate == FateOf(rounds, Held(st.table, s, w, counter))
      modifies this`st, this`acts
      ensures Valid() && old(acts) <= acts && st.config == old(st.config)
      ensures At(st, w) == old(At(st, w)).(stage := Releasing(old(At(st, w)).stage.held - {s}))
      ensures fate.Landed? ==> st.table == Released(old(st.table), s, w, counter)
      ensures ReleaseActs(acts, w) == old(ReleaseActs(acts, w)) + [Release(w, s, fate)]
      ensures Went(old(st), old(acts), rounds, st, acts, Later(rounds, 1), Shutdown(w))
    {
      ReleaseActsStep(acts, Release(w, s, fate), w);
      hide ReleaseActs, Went, Reaches;
      WentNowhere(st, acts, rounds, Shutdown(w));
      WentStep(st, acts, rounds, st, acts, rounds, Release(w, s, fate), Shutdown(w));
      Do(Release(w, s, fate));
    }

    method MarkComplete(w: Worker, s: ShardId, counter: nat) returns (ghost fate: Fate)
      requires Valid() && InPass(st, w, s) && PassOf(st, w, s).counter == counter && PassOf(st, w, s).phase.Completing?
      modifies this
      ensures Valid() && old(acts) <= acts && old(now) <= now && st.config == old(st.config) && |script| <= |old(script)|
      ensures !HasPass(st, w, s) && PendingOf(st, w, s) == None
      ensures Mine(w, s) == old(Mine(w, s)) + [Complete(w, s, fate)]
      ensures Went(old(st), old(acts), old(script), st, acts, script, OnePass(w, s))
    {
      hide Went, Reaches;
      ghost var rounds := script;
      var answer := Attempt(w, s, counter);
      WentStep(old(st), old(acts), rounds, st, acts, rounds, Complete(w, s, answer), OnePass(w, s));
      Call(Complete(w, s, answer), w, s);
      fate := answer;
    }
  }

  // ---- The pass ----------------------------------------------------------------------

  /** The worker's deferral cache says about `s` what the system says. */
  ghost predicate Agree(world: World, defer: CkptDefer?, w: Worker, s: ShardId)
    reads world, defer
  {
    && (defer != null <==> w in world.st.config.deferred)
    && (defer == null ==> PendingOf(world.st, w, s) == None)
    && (defer != null ==>
          && defer.Valid() && s !in defer.writing && defer.Clock(s) <= world.now
          && PendingOf(world.st, w, s) == if s in defer.Pending() then Some(defer.Pending()[s]) else None)
  }

  /** A batch was handed to the consumer and not refused. */
  ghost predicate Handed(trace: seq<Action>) {
    exists i :: 0 <= i < |trace| && Tells(trace[i])
  }

  /** What the calls of a pass, and the last one above all, say about how it ended. */
  ghost predicate EndsAs(trace: seq<Action>, outcome: PassOutcome) {
    trace != [] &&
    var last := trace[|trace| - 1];
    match outcome
    case Active => last.Read? && last.count == 0 && !last.end && Handed(trace)
    case Idle => last.Read? && last.count == 0 && !last.end && |trace| == 1
    case Ended => last.Complete?
    case Stopped =>
      || (last.Deliver? && last.reply.Failed?)
      || ((last.Save? || last.Flush?) && !last.fate.Landed?)
    case SourceFailed => last.ReadFails?
  }

  /**
   Drive one pass: deliver in order, checkpoint under the lease, flush and complete at the
   end of the shard. Whatever the world does, what happens is a run of the step system, and
   at the end the pass is over there too.
   */
  method ProcessShard(world: World, defer: CkptDefer?, w: Worker, s: ShardId, leased: nat, checkpoint: nat)
    returns (outcome: PassOutcome)
    requires world.Valid() && Agree(world, defer, w, s) && InPass(world.st, w, s)
    requires var p := PassOf(world.st, w, s);
             && p.phase.Reading? && p.counter == leased
             && p.after == if PendingOf(world.st, w, s).Some? then PendingOf(world.st, w, s).value else checkpoint
    modifies world, defer
    ensures world.Valid() && old(world.acts) <= world.acts
    ensures !HasPass(world.st, w, s) && Agree(world, defer, w, s)
    ensures old(world.Mine(w, s)) <= world.Mine(w, s)
    ensures EndsAs(world.Mine(w, s)[|old(world.Mine(w, s))|..], outcome)
    // Each call used up one round of the world, and came out as that round says.
    ensures Went(old(world.st), old(world.acts), old(world.script), world.st, world.acts, world.script, OnePass(w, s))
  {
    hide Reaches, Spared, Enabled, Apply, PassActs, At, PassOf, HasPass, PendingOf, Went, Agree, SoFar, EndsAs;
    ghost var st0, acts0, rounds0, task := world.st, world.acts, world.script, OnePass(w, s);
    WentNowhere(st0, acts0, rounds0, task);
    var counter, deliveredAny := leased, false;
    var after := ResumeAt(world, defer, w, s, checkpoint);
    ghost var before := world.Mine(w, s);
    NotYet(before);
    while true
      invariant world.Valid() && Agree(world, defer, w, s)
      invariant InPass(world.st, w, s) && PassOf(world.st, w, s).phase.Reading?
      invariant PassOf(world.st, w, s).counter == counter && PassOf(world.st, w, s).after == after
      invariant before <= world.Mine(w, s) && SoFar(before, world.Mine(w, s), deliveredAny)
      invariant Went(st0, acts0, rounds0, world.st, world.acts, world.script, task) && acts0 <= world.acts
      decreases |world.script|
    {
      ghost var st1, acts1, rounds1 := world.st, world.acts, world.script;
      var done;
      done, counter, after := Advance(world, defer, w, s, counter, after, deliveredAny, before);
      WentOn(st0, acts0, rounds0, st1, acts1, rounds1, world.st, world.acts, world.script, task);
      if done.Some? {
        return done.value;
      }
      deliveredAny := true;
    }
  }

  /** Fetch once and deal with what comes: deliver it, wind the shard up, or end the pass. */
  method Advance(world: World, defer: CkptDefer?, w: Worker, s: ShardId, leased: nat, position: nat, handed: bool,
                 ghost before: seq<Action>)
    returns (done: Option<PassOutcome>, counter: nat, after: nat)
    requires world.Valid() && Agree(world, defer, w, s) && InPass(world.st, w, s)
    requires PassOf(world.st, w, s).phase.Reading?
    requires PassOf(world.st, w, s).counter == leased && PassOf(world.st, w, s).after == position
    requires before <= world.Mine(w, s) && SoFar(before, world.Mine(w, s), handed)
    modifies world, defer
    ensures world.Valid() && Agree(world, defer, w, s) && before <= world.Mine(w, s)
    ensures Went(old(world.st), old(world.acts), old(world.script), world.st, world.acts, world.script, OnePass(w, s))
    ensures done.Some? ==> !HasPass(world.st, w, s) && EndsAs(world.Mine(w, s)[|before|..], done.value)
    ensures done.None? ==> |world.script| < |old(world.script)| && InPass(world.st, w, s)
    ensures done.None? ==> PassOf(world.st, w, s).phase.Reading?
    ensures done.None? ==> PassOf(world.st, w, s).counter == counter && PassOf(world.st, w, s).after == after
    ensures done.None? ==> SoFar(before, world.Mine(w, s), true)
  {
    hide Reaches, Spared, Enabled, Apply, PassActs, At, PassOf, HasPass, PendingOf, Went;
    hide Agree, SoFar, EndsAs, BatchCalls, WindUpCalls, InPass;
    ghost var here, task := world.Mine(w, s), OnePass(w, s);
    counter, after := leased, position;
    var batch := Fetch(world, defer, w, s, after);
    if batch.None? {
      SourceEnds(before, here, w, s);
      return Some(SourceFailed), counter, after;
    }
    var (count, end) := batch.value;
    ghost var calls := [Read(w, s, count, end)];
    if count > 0 {
      var next;
      ghost var answer, due, fate;
      ghost var st1, acts1, rounds1 := world.st, world.acts, world.script;
      next, answer, due, fate := DeliverBatch(world, defer, w, s, counter, after, count, end);
      WentOn(old(world.st), old(world.acts), old(world.script), st1, acts1, rounds1, world.st, world.acts, world.script, task);
      calls := calls + BatchCalls(defer != null, w, s, answer, due, fate);
      assert world.Mine(w, s) == here + calls;
      BatchEnds(before, here, calls, count, end, defer != null, w, s, answer, due, fate, next.None?);
      if next.None? {
        return Some(Stopped), counter, after;
      }
      counter, after := next.value, after + count;
    }
    if end {
      var ok;
      ghost var fate;
      ghost var pending := PendingOf(world.st, w, s);
      ghost var st1, acts1, rounds1 := world.st, world.acts, world.script;
      ok, fate := WindUp(world, defer, w, s, counter);
      WentOn(old(world.st), old(world.acts), old(world.script), st1, acts1, rounds1, world.st, world.acts, world.script, task);
      ghost var all := calls + WindUpCalls(w, s, pending.Some?, ok, fate);
      assert world.Mine(w, s) == here + all;
      ShardEnds(before, here, calls, all, w, s, pending.Some?, ok, fate);
      return Some(if ok then Ended else Stopped), counter, after;
    }
    if count == 0 {
      RunsDry(before, here, w, s, handed);
      return Some(if handed then Active else PassOutcome.Idle), counter, after;
    }
    done := None;
  }

  /** Ask the source for more; the deferral cache is not involved. */
  method Fetch(world: World, defer: CkptDefer?, w: Worker, s: ShardId, after: nat) returns (batch: Option<(nat, bool)>)
    requires world.Valid() && Agree(world, defer, w, s) && InPass(world.st, w, s)
    requires PassOf(world.st, w, s).phase.Reading? && PassOf(world.st, w, s).after == after
    modifies world
    ensures world.Valid() && Agree(world, defer, w, s)
    ensures batch.None? ==> !HasPass(world.st, w, s)
    ensures batch.Some? ==> |world.script| < |old(world.script)|
    ensures batch == Some((0, false)) ==> !HasPass(world.st, w, s)
    ensures batch.Some? && batch.value != (0, false) ==>
      InPass(world.st, w, s) && PassOf(world.st, w, s) == old(PassOf(world.st, w, s)).(phase :=
        if batch.value.0 > 0 then Holding(batch.value.0, batch.value.1) else Ending)
    ensures world.Mine(w, s) == old(world.Mine(w, s)) +
      [if batch.Some? then Read(w, s, batch.value.0, batch.value.1) else ReadFails(w, s)]
    ensures Went(old(world.st), old(world.acts), old(world.script), world.st, world.acts, world.script, OnePass(w, s))
  {
    hide Reaches, PassActs, At, Paced, Acks, Went;
    batch := world.GetRecords(w, s, after);
  }

  /** The pending ack is where to go on from, when there is one. */
  method ResumeAt(world: World, defer: CkptDefer?, w: Worker, s: ShardId, checkpoint: nat) returns (after: nat)
    requires Agree(world, defer, w, s)
    ensures after == if PendingOf(world.st, w, s).Some? then PendingOf(world.st, w, s).value else checkpoint
  {
    after := checkpoint;
    if defer != null {
      var pending := defer.ResumeFrom(s);
      if pending.Some? {
        after := pending.value;
      }
    }
  }

  lemma NotYet(before: seq<Action>)
    ensures SoFar(before, before, false)
  {
  }

  /** The calls of the pass since `before`: some batch was handed over, or there were none. */
  ghost predicate SoFar(before: seq<Action>, mine: seq<Action>, handed: bool)
    requires before <= mine
  {
    if handed then Handed(mine[|before|..]) else mine == before
  }

  lemma SourceEnds(before: seq<Action>, here: seq<Action>, w: Worker, s: ShardId)
    requires before <= here
    ensures before <= here + [ReadFails(w, s)] && EndsAs((here + [ReadFails(w, s)])[|before|..], SourceFailed)
  {
    Onwards(before, here, [ReadFails(w, s)]);
  }

  lemma BatchEnds(before: seq<Action>, here: seq<Action>, calls: seq<Action>, count: nat, end: bool, deferred: bool,
                  w: Worker, s: ShardId, answer: Reply, due: bool, fate: Fate, stops: bool)
    requires before <= here && calls == [Read(w, s, count, end)] + BatchCalls(deferred, w, s, answer, due, fate)
    requires stops <==> answer.Failed? || (answer.Acked? && (due || !deferred) && !fate.Landed?)
    ensures before <= here + calls
    ensures stops ==> EndsAs((here + calls)[|before|..], Stopped)
    ensures !stops ==> SoFar(before, here + calls, true)
  {
    Onwards(before, here, calls);
    if !stops {
      assert Tells(calls[1]);
    }
  }

  lemma ShardEnds(before: seq<Action>, here: seq<Action>, read: seq<Action>, calls: seq<Action>, w: Worker, s: ShardId, pending: bool,
                  ok: bool, fate: Fate)
    requires !ok ==> !fate.Landed?
    requires before <= here && calls == read + WindUpCalls(w, s, pending, ok, fate)
    ensures before <= here + calls && EndsAs((here + calls)[|before|..], if ok then Ended else Stopped)
  {
    Onwards(before, here, calls);
  }

  lemma RunsDry(before: seq<Action>, here: seq<Action>, w: Worker, s: ShardId, handed: bool)
    requires before <= here && SoFar(before, here, handed)
    ensures before <= here + [Read(w, s, 0, false)]
    ensures EndsAs((here + [Read(w, s, 0, false)])[|before|..], if handed then Active else PassOutcome.Idle)
  {
    Onwards(before, here, [Read(w, s, 0, false)]);
  }

  lemma Onwards(before: seq<Action>, here: seq<Action>, calls: seq<Action>)
    requires before <= here && calls != []
    ensures before <= here + calls && (here + calls)[|before|..] == here[|before|..] + calls
    ensures Handed(here[|before|..]) || Handed(calls) ==> Handed((here + calls)[|before|..])
  {
    var trace, mine := (here + calls)[|before|..], here[|before|..];
    assert trace == mine + calls;
    if Handed(mine) {
      var i :| 0 <= i < |mine| && Tells(mine[i]);
      assert Tells(trace[i]);
    }
    if Handed(calls) {
      var i :| 0 <= i < |calls| && Tells(calls[i]);
      assert Tells(trace[|mine| + i]);
    }
  }

  /** The calls one batch takes: hand it over; write the ack at once, or under deferral when due. */
  ghost function BatchCalls(deferred: bool, w: Worker, s: ShardId, answer: Reply, due: bool, fate: Fate): seq<Action> {
    [Deliver(w, s, answer, due)] + if answer.Acked? && (due || !deferred) then [Save(w, s, fate)] else []
  }

  /** Deliver one batch and save its ack, at once or when due; None if the pass must stop. */
  method DeliverBatch(world: World, defer: CkptDefer?, w: Worker, s: ShardId, counter: nat, after: nat,
                      count: nat, end: bool)
    returns (next: Option<nat>, ghost answer: Reply, ghost due: bool, ghost fate: Fate)
    requires world.Valid() && Agree(world, defer, w, s) && InPass(world.st, w, s)
    requires PassOf(world.st, w, s).phase == Holding(count, end)
    requires PassOf(world.st, w, s).counter == counter && PassOf(world.st, w, s).after == after
    modifies world, defer
    ensures world.Valid() && Agree(world, defer, w, s)
    ensures |world.script| <= |old(world.script)|
    ensures next.None? ==> !HasPass(world.st, w, s)
    ensures next.Some? ==> InPass(world.st, w, s)
    ensures next.Some? ==>
      PassOf(world.st, w, s) == AfterBatch(old(PassOf(world.st, w, s)), after + count, end).(counter := next.value)
    ensures world.Mine(w, s) == old(world.Mine(w, s)) + BatchCalls(defer != null, w, s, answer, due, fate)
    ensures next.None? <==> answer.Failed? || (answer.Acked? && (due || defer == null) && !fate.Landed?)
    ensures Went(old(world.st), old(world.acts), old(world.script), world.st, world.acts, world.script, OnePass(w, s))
  {
    hide Reaches, Spared, Enabled, Apply, PassActs, AckOk, Paced, Acks, At, Went, ReplyOf;
    ghost var rounds, task := world.script, OnePass(w, s);
    var reply := world.Consult(w, s);
    ghost var st1, acts1 := world.st, world.acts;
    answer, due, fate := reply, false, Refused;
    match reply
    case Failed =>
      world.Told(w, s, reply, false, rounds);
      WentOn(old(world.st), old(world.acts), rounds, st1, acts1, rounds, world.st, world.acts, world.script, task);
      if defer != null {
        defer.Forget(s);
      }
      next := None;
    case Unacked =>
      world.Told(w, s, reply, false, rounds);
      WentOn(old(world.st), old(world.acts), rounds, st1, acts1, rounds, world.st, world.acts, world.script, task);
      next := Some(counter);
    case Acked(ack) =>
      if defer == null {
        world.Told(w, s, reply, false, rounds);
        ghost var st2, acts2, rounds2 := world.st, world.acts, world.script;
        WentOn(old(world.st), old(world.acts), rounds, st1, acts1, rounds, st2, acts2, rounds2, task);
        next, fate := world.Checkpoint(w, s, counter, ack);
        WentOn(old(world.st), old(world.acts), rounds, st2, acts2, rounds2, world.st, world.acts, world.script, task);
      } else {
        next, due, fate := DeferAck(world, defer, w, s, counter, after, count, end, ack, rounds);
        WentOn(old(world.st), old(world.acts), rounds, st1, acts1, rounds, world.st, world.acts, world.script, task);
      }
  }

  /** An ack under deferral: remember it, and write it exactly if the interval is over. */
  method DeferAck(world: World, defer: CkptDefer, w: Worker, s: ShardId, counter: nat, after: nat,
                  count: nat, end: bool, ack: nat, ghost rounds: seq<Round>)
    returns (next: Option<nat>, ghost due: bool, ghost fate: Fate)
    requires world.Valid() && Agree(world, defer, w, s) && InPass(world.st, w, s)
    requires PassOf(world.st, w, s).phase == Holding(count, end)
    requires PassOf(world.st, w, s).counter == counter && PassOf(world.st, w, s).after == after
    requires AckOk(world.st.config, after, after + count, Acked(ack))
    requires world.script == Later(rounds, 1) && Acked(ack) == ReplyOf(rounds, world.st.config, after, after + count)
    modifies world, defer
    ensures Went(old(world.st), old(world.acts), rounds, world.st, world.acts, world.script, OnePass(w, s))
    ensures world.Valid() && Agree(world, defer, w, s)
    ensures |world.script| <= |old(world.script)|
    ensures next.None? ==> !HasPass(world.st, w, s)
    ensures next.Some? ==> InPass(world.st, w, s)
    ensures next.Some? ==>
      PassOf(world.st, w, s) == AfterBatch(old(PassOf(world.st, w, s)), after + count, end).(counter := next.value)
    ensures world.Mine(w, s) == old(world.Mine(w, s)) + BatchCalls(true, w, s, Acked(ack), due, fate)
    ensures due <==> s in old(defer.state) && old(world.now) >= old(defer.state)[s].lastPersist + defer.interval
    ensures next.None? <==> due && !fate.Landed?
  {
    hide Reaches, Spared, Enabled, Apply, PassActs, Paced, Acks, At, Went, ReplyOf;
    var now := world.now;
    var persist := defer.RecordAck(s, ack, now);
    due, fate := persist.Some?, Refused;
    world.Told(w, s, Acked(ack), persist.Some?, rounds);
    if persist.Some? {
      ghost var st1, acts1, rounds1 := world.st, world.acts, world.script;
      next, fate := world.Checkpoint(w, s, counter, persist.value);
      WentOn(old(world.st), old(world.acts), rounds, st1, acts1, rounds1, world.st, world.acts, world.script, OnePass(w, s));
      if next.Some? {
        defer.Persisted(s, now);
      } else {
        defer.Forget(s);
      }
    } else {
      next := Some(counter);
    }
  }

  /** The calls at the end of the shard: the flush of what is pending, and only if it landed the completion. */
  ghost function WindUpCalls(w: Worker, s: ShardId, pending: bool, ok: bool, fate: Fate): seq<Action> {
    if !ok then [Flush(w, s, fate)]
    else [if pending then Flush(w, s, Landed) else SkipFlush(w, s), Complete(w, s, fate)]
  }

  lemma SkipIsQuiet(st: State, acts: seq<Action>, rounds: seq<Round>, w: Worker, s: ShardId)
    ensures Enabled(st, SkipFlush(w, s)) ==>
      Went(st, acts, rounds, Apply(st, SkipFlush(w, s)), acts + [SkipFlush(w, s)], rounds, OnePass(w, s))
  {
    if Enabled(st, SkipFlush(w, s)) {
      hide Went, Apply;
      WentNowhere(st, acts, rounds, OnePass(w, s));
      WentStep(st, acts, rounds, st, acts, rounds, SkipFlush(w, s), OnePass(w, s));
      LaterNone(rounds);
    }
  }

  /** The end of the shard: flush what is pending, then mark it complete. */
  method WindUp(world: World, defer: CkptDefer?, w: Worker, s: ShardId, leased: nat) returns (ok: bool, ghost fate: Fate)
    requires world.Valid() && Agree(world, defer, w, s) && InPass(world.st, w, s)
    requires PassOf(world.st, w, s).phase.Ending? && PassOf(world.st, w, s).counter == leased
    modifies world, defer
    ensures world.Valid() && Agree(world, defer, w, s)
    ensures !HasPass(world.st, w, s)
    ensures world.Mine(w, s) == old(world.Mine(w, s)) + WindUpCalls(w, s, old(PendingOf(world.st, w, s)).Some?, ok, fate)
    ensures !ok ==> old(PendingOf(world.st, w, s)).Some? && !fate.Landed?
    ensures Went(old(world.st), old(world.acts), old(world.script), world.st, world.acts, world.script, OnePass(w, s))
  {
    hide Reaches, Spared, PassActs, Paced, Acks, Went;
    var counter := leased;
    ghost var task := OnePass(w, s);
    SkipIsQuiet(world.st, world.acts, world.script, w, s);
    if defer != null {
      var pending := defer.TakePending(s);
      if pending.Some? {
        var next;
        next, fate := world.FlushCheckpoint(w, s, counter, pending.value);
        if next.None? {
          defer.Forget(s);
          return false, fate;
        }
        counter := next.value;
      } else {
        world.Call(SkipFlush(w, s), w, s);
      }
      defer.Forget(s);
    } else {
      world.Call(SkipFlush(w, s), w, s);
    }
    ghost var st1, acts1, rounds1 := world.st, world.acts, world.script;
    fate := world.MarkComplete(w, s, counter);
    WentOn(old(world.st), old(world.acts), old(world.script), st1, acts1, rounds1, world.st, world.acts, world.script, task);
    ok := true;
  }

  // ---- Graceful release --------------------------------------------------------------

  /** A step of the source or of another worker. */
  predicate ByOthers(a: Action, w: Worker) {
    a.Append? || a.Close? || a.w != w
  }

  lemma OthersKeepLocal(st: State, a: Action, w: Worker)
    requires Enabled(st, a) && ByOthers(a, w)
    ensures At(Apply(st, a), w) == At(st, w) && Apply(st, a).config == st.config
  {
    if OfPass(a) {
      OtherPassKeepsLocal(st, a, w);
    }
  }

  lemma OtherPassKeepsLocal(st: State, a: Action, w: Worker)
    requires OfPass(a) && Enabled(st, a) && a.w != w
    ensures At(Apply(st, a), w) == At(st, w) && Apply(st, a).config == st.config
  {
    hide Enabled, Apply;
    PassFramed(st, a);
  }

  /** The deferral cache says what the system says, about every shard. */
  ghost predicate AgreeAll(world: World, defer: CkptDefer?, w: Worker)
    reads world, defer
  {
    && (defer == null ==> At(world.st, w).pending == map[])
    && (defer != null ==> defer.Valid() && defer.Pending() == AcksIn(At(world.st, w).pending))
  }

  function AcksIn(pending: map<ShardId, Pend>): map<ShardId, nat> {
    map s | s in pending :: pending[s].ack
  }

  lemma AcksLess(pending: map<ShardId, Pend>, s: ShardId)
    ensures AcksIn(pending - {s}) == AcksIn(pending) - {s}
    ensures s !in pending ==> AcksIn(pending) - {s} == AcksIn(pending) && pending - {s} == pending
    ensures AcksIn(pending) - {s} - {s} == AcksIn(pending) - {s}
  {
  }

  /** The other workers move while this one waits. */
  method Wait(world: World, w: Worker) returns (fate: Fate)
    requires world.Valid()
    modifies world
    ensures world.Valid() && old(world.acts) <= world.acts
    ensures At(world.st, w) == old(At(world.st, w)) && world.st.config == old(world.st.config)
    ensures ReleaseActs(world.acts, w) == old(ReleaseActs(world.acts, w))
    ensures world.script == Later(old(world.script), 1) && fate == FateOf(old(world.script), true)
    ensures Went(old(world.st), old(world.acts), old(world.script), world.st, world.acts, old(world.script), Shutdown(w))
  {
    hide Enabled, Apply, At, Reaches, ReleaseActs, Went;
    ghost var st0, acts0, rounds := world.st, world.acts, world.script;
    WentNowhere(st0, acts0, rounds, Shutdown(w));
    if world.script == [] {
      return Refused;
    }
    var round := world.script[0];
    world.script := world.script[1..];
    for i := 0 to |round.others|
      invariant world.Valid() && acts0 <= world.acts
      invariant At(world.st, w) == old(At(world.st, w)) && world.st.config == old(world.st.config)
      invariant ReleaseActs(world.acts, w) == old(ReleaseActs(world.acts, w)) && world.script == Later(rounds, 1)
      invariant Went(st0, acts0, rounds, world.st, world.acts, rounds, Shutdown(w))
    {
      var a := round.others[i];
      if ByOthers(a, w) && Enabled(world.st, a) {
        OthersKeepLocal(world.st, a, w);
        ReleaseActsStep(world.acts, a, w);
        WentStep(st0, acts0, rounds, world.st, world.acts, rounds, a, Shutdown(w));
        LaterNone(rounds);
        world.Do(a);
      }
    }
    fate := round.fate;
  }

  /** What became of the release of one lease: of its flush, if an ack was pending, and of the release itself. */
  datatype Outcome = Outcome(flush: Option<Fate>, release: Fate)

  /** The calls that release one lease: the flush first, if there is anything to flush. */
  function ReleaseCalls(w: Worker, s: ShardId, o: Outcome): seq<Action> {
    (if o.flush.Some? then [ReleaseFlush(w, s, o.flush.value)] else []) + [Release(w, s, o.release)]
  }

  /** Flush what is pending for one shard; the counter to release under is returned. */
  method FlushPending(world: World, defer: CkptDefer, w: Worker, s: ShardId, leased: nat)
    returns (counter: nat, ghost flush: Option<Fate>)
    requires world.Valid() && AgreeAll(world, defer, w)
    requires At(world.st, w).stage.Releasing? && s in At(world.st, w).stage.held && At(world.st, w).stage.held[s] == leased
    modifies world, defer
    ensures world.Valid() && AgreeAll(world, defer, w)
    ensures At(world.st, w).stage == Releasing(old(At(world.st, w)).stage.held[s := counter])
    ensures At(world.st, w).pending == old(At(world.st, w)).pending - {s}
    ensures flush.Some? <==> s in old(At(world.st, w)).pending
    ensures counter == if flush == Some(Landed) then leased + 1 else leased
    ensures ReleaseActs(world.acts, w) == old(ReleaseActs(world.acts, w)) +
      if flush.Some? then [ReleaseFlush(w, s, flush.value)] else []
    ensures Went(old(world.st), old(world.acts), old(world.script), world.st, world.acts, world.script, Shutdown(w))
  {
    hide At, Held, Reaches, ReleaseActs, Went;
    ghost var rounds, task := world.script, Shutdown(w);
    WentNowhere(world.st, world.acts, rounds, task);
    counter, flush := leased, None;
    ghost var l := At(world.st, w);
    AcksLess(l.pending, s);
    var pending := defer.TakePending(s);
    if pending.Some? {
      var fate := Wait(world, w);
      fate := if Held(world.st.table, s, w, counter) then fate else Refused;
      ghost var st1, acts1 := world.st, world.acts;
      world.Flushes(w, s, counter, pending.value, fate, rounds);
      WentOn(old(world.st), old(world.acts), rounds, st1, acts1, rounds, world.st, world.acts, world.script, task);
      flush := Some(fate);
      if fate.Landed? {
        counter := counter + 1;
      }
    } else {
      assert l.stage.held[s := counter] == l.stage.held;
    }
    defer.Forget(s);
  }

  /** Flush, then let the lease go, on the counter the flush left: the flush comes first. */
  method ReleaseShard(world: World, defer: CkptDefer?, w: Worker, s: ShardId, leased: nat)
    returns (ok: bool, ghost outcome: Outcome)
    requires world.Valid() && AgreeAll(world, defer, w)
    requires At(world.st, w).stage.Releasing? && s in At(world.st, w).stage.held && At(world.st, w).stage.held[s] == leased
    modifies world, defer
    ensures world.Valid() && AgreeAll(world, defer, w)
    ensures At(world.st, w).stage == Releasing(old(At(world.st, w)).stage.held - {s})
    ensures At(world.st, w).pending == old(At(world.st, w)).pending - {s}
    ensures ReleaseActs(world.acts, w) == old(ReleaseActs(world.acts, w)) + ReleaseCalls(w, s, outcome)
    ensures outcome.flush.Some? <==> s in old(At(world.st, w)).pending
    ensures ok <==> outcome.release.Landed?
    ensures Went(old(world.st), old(world.acts), old(world.script), world.st, world.acts, world.script, Shutdown(w))
  {
    hide At, Held, Reaches, ReleaseActs, Went;
    ghost var task := Shutdown(w);
    WentNowhere(world.st, world.acts, world.script, task);
    var counter := leased;
    ghost var held, flush := At(world.st, w).stage.held, None;
    if defer != null {
      counter, flush := FlushPending(world, defer, w, s, counter);
    } else {
      AcksLess(At(world.st, w).pending, s);
    }
    ghost var st1, acts1, rounds := world.st, world.acts, world.script;
    var fate := Wait(world, w);
    fate := if Held(world.st.table, s, w, counter) then fate else Refused;
    WentOn(old(world.st), old(world.acts), old(world.script), st1, acts1, rounds, world.st, world.acts, rounds, task);
    ghost var st2, acts2 := world.st, world.acts;
    world.Releases(w, s, counter, fate, rounds);
    WentOn(old(world.st), old(world.acts), old(world.script), st2, acts2, rounds, world.st, world.acts, world.script, task);
    outcome := Outcome(flush, fate);
    assert held[s := counter] - {s} == held - {s};
    ok := fate.Landed?;
  }

  /** The calls that release a list of leases, one after another. */
  ghost function AllReleaseCalls(w: Worker, rows: seq<(ShardId, nat)>, outcomes: seq<Outcome>): seq<Action>
    requires |rows| == |outcomes|
  {
    if rows == [] then []
    else AllReleaseCalls(w, rows[..|rows| - 1], outcomes[..|rows| - 1])
         + ReleaseCalls(w, rows[|rows| - 1].0, outcomes[|rows| - 1])
  }

  ghost function LetGo(outcomes: seq<Outcome>): nat {
    if outcomes == [] then 0
    else LetGo(outcomes[..|outcomes| - 1]) + if outcomes[|outcomes| - 1].release.Landed? then 1 else 0
  }

  lemma OneMore(w: Worker, rows: seq<(ShardId, nat)>, i: nat, outcomes: seq<Outcome>, o: Outcome)
    requires i < |rows| && |outcomes| == i
    ensures AllReleaseCalls(w, rows[..i + 1], outcomes + [o]) ==
            AllReleaseCalls(w, rows[..i], outcomes) + ReleaseCalls(w, rows[i].0, o)
    ensures LetGo(outcomes + [o]) == LetGo(outcomes) + if o.release.Landed? then 1 else 0
  {
    assert rows[..i + 1][..i] == rows[..i] && (outcomes + [o])[..i] == outcomes;
  }

  function ShardsOf(rows: seq<(ShardId, nat)>): set<ShardId> {
    set r | r in rows :: r.0
  }

  lemma OneRowMore<V>(rows: seq<(ShardId, nat)>, i: nat, m: map<ShardId, V>)
    requires i < |rows| && forall j, k :: 0 <= j < k < |rows| ==> rows[j].0 != rows[k].0
    ensures m - ShardsOf(rows[..i + 1]) == m - ShardsOf(rows[..i]) - {rows[i].0}
    ensures rows[i].0 !in ShardsOf(rows[..i])
  {
    assert rows[..i + 1] == rows[..i] + [rows[i]];
    assert ShardsOf(rows[..i + 1]) == ShardsOf(rows[..i]) + {rows[i].0};
  }

  lemma NoRows<V>(m: map<ShardId, V>)
    ensures m - ShardsOf([]) == m
  {
  }

  /**
   Release every lease of the shutdown scan, one after another, each flushed first if an ack
   is pending; lost ones are skipped. Nothing stays pending for the released shards, and the
   result counts the releases that landed.
   */
  method ReleaseOwned(world: World, defer: CkptDefer?, w: Worker, rows: seq<(ShardId, nat)>)
    returns (released: nat, ghost outcomes: seq<Outcome>)
    requires world.Valid() && AgreeAll(world, defer, w) && At(world.st, w).stage.Releasing?
    requires forall i :: 0 <= i < |rows| ==>
      rows[i].0 in At(world.st, w).stage.held && At(world.st, w).stage.held[rows[i].0] == rows[i].1
    requires forall i, j :: 0 <= i < j < |rows| ==> rows[i].0 != rows[j].0
    modifies world, defer
    ensures world.Valid() && old(world.acts) <= world.acts && AgreeAll(world, defer, w)
    ensures At(world.st, w).stage == Releasing(old(At(world.st, w)).stage.held - ShardsOf(rows))
    ensures At(world.st, w).pending == old(At(world.st, w)).pending - ShardsOf(rows)
    ensures |outcomes| == |rows| && released == LetGo(outcomes)
    ensures ReleaseActs(world.acts, w) == old(ReleaseActs(world.acts, w)) + AllReleaseCalls(w, rows, outcomes)
    ensures forall i :: 0 <= i < |rows| ==> (outcomes[i].flush.Some? <==> rows[i].0 in old(At(world.st, w)).pending)
    ensures Went(old(world.st), old(world.acts), old(world.script), world.st, world.acts, world.script, Shutdown(w))
  {
    hide At, Reaches, ReleaseActs, ReleaseCalls, AgreeAll, ShardsOf, Went;
    ghost var st0, acts0, rounds0 := world.st, world.acts, world.script;
    WentNowhere(st0, acts0, rounds0, Shutdown(w));
    released, outcomes := 0, [];
    ghost var l := At(world.st, w);
    NoRows(l.stage.held);
    NoRows(l.pending);
    assert rows[..0] == [];
    for i := 0 to |rows|
      invariant world.Valid() && AgreeAll(world, defer, w)
      invariant At(world.st, w).stage == Releasing(l.stage.held - ShardsOf(rows[..i]))
      invariant At(world.st, w).pending == l.pending - ShardsOf(rows[..i])
      invariant |outcomes| == i && released == LetGo(outcomes)
      invariant ReleaseActs(world.acts, w) == old(ReleaseActs(world.acts, w)) + AllReleaseCalls(w, rows[..i], outcomes)
      invariant forall j :: 0 <= j < i ==> (outcomes[j].flush.Some? <==> rows[j].0 in l.pending)
      invariant Went(st0, acts0, rounds0, world.st, world.acts, world.script, Shutdown(w))
    {
      hide AllReleaseCalls, LetGo;
      OneRowMore(rows, i, l.stage.held);
      OneRowMore(rows, i, l.pending);
      var ok;
      ghost var o;
      ghost var st1, acts1, rounds1 := world.st, world.acts, world.script;
      ok, o := ReleaseShard(world, defer, w, rows[i].0, rows[i].1);
      WentOn(st0, acts0, rounds0, st1, acts1, rounds1, world.st, world.acts, world.script, Shutdown(w));
      OneMore(w, rows, i, outcomes, o);
      outcomes := outcomes + [o];
      if ok {
        released := released + 1;
      }
    }
    assert rows[..|rows|] == rows;
    WentGrows(st0, acts0, rounds0, world.st, world.acts, world.script, Shutdown(w));
  }
}
