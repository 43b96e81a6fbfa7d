/**
 The bounded pool: `k` workers drain the queue of due shards, and what each pass saw sets
 the shard's next due time by an exponential idle schedule.
 */
module Pool {
  import opened Types

  const MAX_IDLE_BACKOFF_MS: nat := 5000

  datatype ShardSched = ShardSched(backoff: nat, dueAt: nat)

  datatype PassOutcome = Active | Idle | Ended | Stopped

  datatype Outcome = Outcome(shard: ShardId, seen: PassOutcome)

  /** The scheduler's choice: which worker moves next, and how its pass ends if one is running. */
  datatype Turn = Turn(worker: nat, seen: PassOutcome)

  // ---- The idle schedule -------------------------------------------------------------

  function NextBackoff(poll: nat, backoff: nat): nat {
    if backoff == 0 then Max(poll, 1) else Min(backoff * 2, MAX_IDLE_BACKOFF_MS)
  }

  /** The backoff after `n` consecutive idle passes. */
  function NthBackoff(poll: nat, n: nat): nat {
    if n == 0 then 0 else NextBackoff(poll, NthBackoff(poll, n - 1))
  }

  function Pow2(n: nat): (p: nat)
    ensures p >= 1
  {
    if n == 0 then 1 else 2 * Pow2(n - 1)
  }

  lemma {:induction false} BackoffFormula(poll: nat, n: nat)
    requires n >= 1 && poll <= MAX_IDLE_BACKOFF_MS
    ensures NthBackoff(poll, n) == Min(Max(poll, 1) * Pow2(n - 1), MAX_IDLE_BACKOFF_MS)
    ensures 1 <= NthBackoff(poll, n)
    decreases n
  {
    if n > 1 {
      BackoffFormula(poll, n - 1);
      assert Max(poll, 1) * Pow2(n - 1) == 2 * (Max(poll, 1) * Pow2(n - 2));
    } else {
      assert NthBackoff(poll, 0) == 0;
      assert Max(poll, 1) * Pow2(0) == Max(poll, 1);
    }
  }

  /** The capped doubling holds exactly for poll intervals up to the cap: the first backoff is not capped. */
  lemma BackoffExactly(poll: nat)
    ensures (forall n: nat :: n >= 1 ==> NthBackoff(poll, n) == Min(Max(poll, 1) * Pow2(n - 1), MAX_IDLE_BACKOFF_MS))
            <==> poll <= MAX_IDLE_BACKOFF_MS
  {
    if poll <= MAX_IDLE_BACKOFF_MS {
      forall n: nat | n >= 1
        ensures NthBackoff(poll, n) == Min(Max(poll, 1) * Pow2(n - 1), MAX_IDLE_BACKOFF_MS)
      {
        BackoffFormula(poll, n);
      }
    } else {
      assert NthBackoff(poll, 0) == 0 && NthBackoff(poll, 1) == poll;
    }
  }

  // ---- One cycle ---------------------------------------------------------------------

  predicate Distinct(s: seq<ShardId>) {
    forall i, j :: 0 <= i < j < |s| ==> s[i] != s[j]
  }

  function Shards(outcomes: seq<Outcome>): (s: seq<ShardId>)
    ensures |s| == |outcomes| && forall i :: 0 <= i < |s| ==> s[i] == outcomes[i].shard
  {
    seq(|outcomes|, i requires 0 <= i < |outcomes| => outcomes[i].shard)
  }

  /** What each worker slot holds. */
  ghost function Held(slots: seq<Option<ShardId>>): multiset<ShardId> {
    if slots == [] then multiset{} else Held(slots[..|slots| - 1]) + One(slots[|slots| - 1])
  }

  function One(o: Option<ShardId>): multiset<ShardId> {
    if o.Some? then multiset{o.value} else multiset{}
  }

  lemma {:induction false} HeldUpdate(slots: seq<Option<ShardId>>, i: nat, o: Option<ShardId>)
    requires i < |slots|
    ensures Held(slots[i := o]) + One(slots[i]) == Held(slots) + One(o)
    decreases |slots|
  {
    var n, next := |slots| - 1, slots[i := o];
    HeldLast(slots);
    HeldLast(next);
    hide Held, One;
    if i == n {
      assert next[..n] == slots[..n] && next[n] == o;
      Commutes(Held(slots[..n]), One(o), One(slots[i]));
    } else {
      HeldUpdate(slots[..n], i, o);
      assert next[..n] == slots[..n][i := o] && next[n] == slots[n];
      Shifts(Held(next[..n]), One(slots[i]), Held(slots[..n]), One(o), One(slots[n]));
    }
  }

  lemma HeldLast(slots: seq<Option<ShardId>>)
    requires slots != []
    ensures Held(slots) == Held(slots[..|slots| - 1]) + One(slots[|slots| - 1])
  {
  }

  lemma Commutes(a: multiset<ShardId>, b: multiset<ShardId>, c: multiset<ShardId>)
    ensures (a + b) + c == (a + c) + b
  {
  }

  lemma Shifts(a: multiset<ShardId>, b: multiset<ShardId>, c: multiset<ShardId>, d: multiset<ShardId>, e: multiset<ShardId>)
    requires a + b == c + d
    ensures (a + e) + b == (c + e) + d
  {
    assert (a + e) + b == (a + b) + e && (c + e) + d == (c + d) + e;
  }

  lemma {:induction false} HeldNone(slots: seq<Option<ShardId>>)
    requires forall i :: 0 <= i < |slots| ==> slots[i].None?
    ensures Held(slots) == multiset{}
    decreases |slots|
  {
    if slots != [] {
      HeldNone(slots[..|slots| - 1]);
    }
  }

  lemma {:induction false} HeldHas(slots: seq<Option<ShardId>>, i: nat)
    requires i < |slots| && slots[i].Some?
    ensures slots[i].value in Held(slots)
    decreases |slots|
  {
    if i < |slots| - 1 {
      HeldHas(slots[..|slots| - 1], i);
    }
  }

  /** Queued, running and finished shards are together the due shards, each once. */
  ghost predicate Partition(due: seq<ShardId>, queue: seq<ShardId>, slots: seq<Option<ShardId>>, outcomes: seq<Outcome>) {
    multiset(queue) + Held(slots) + multiset(Shards(outcomes)) == multiset(due)
  }

  lemma DistinctMultiset(s: seq<ShardId>, x: ShardId)
    requires Distinct(s)
    ensures multiset(s)[x] <= 1
    decreases |s|
  {
    if s != [] {
      assert s == s[..|s| - 1] + [s[|s| - 1]];
      DistinctMultiset(s[..|s| - 1], x);
      if x == s[|s| - 1] {
        assert x !in s[..|s| - 1];
      }
    }
  }

  lemma HeldSize(slots: seq<Option<ShardId>>, i: nat, o: Option<ShardId>)
    requires i < |slots|
    ensures |Held(slots[i := o])| + |One(slots[i])| == |Held(slots)| + |One(o)|
  {
    HeldUpdate(slots, i, o);
    assert |Held(slots[i := o]) + One(slots[i])| == |Held(slots) + One(o)|;
  }

  lemma Hands(queue: multiset<ShardId>, held: multiset<ShardId>, first: multiset<ShardId>, rest: multiset<ShardId>,
              held': multiset<ShardId>, done: multiset<ShardId>)
    requires queue == first + rest && held' == held + first
    ensures rest + held' + done == queue + held + done
  {
  }

  lemma FirstTaken(queue: seq<ShardId>)
    requires queue != []
    ensures multiset(queue) == multiset{queue[0]} + multiset(queue[1..])
  {
    assert queue == [queue[0]] + queue[1..];
  }

  lemma ClaimKeeps(due: seq<ShardId>, queue: seq<ShardId>, slots: seq<Option<ShardId>>, outcomes: seq<Outcome>, w: nat)
    requires Partition(due, queue, slots, outcomes) && w < |slots| && slots[w].None? && queue != []
    ensures Partition(due, queue[1..], slots[w := Some(queue[0])], outcomes)
  {
    hide Held, Shards;
    var first, slots' := multiset{queue[0]}, slots[w := Some(queue[0])];
    HeldUpdate(slots, w, Some(queue[0]));
    assert Held(slots') == Held(slots') + One(slots[w]);
    FirstTaken(queue);
    Hands(multiset(queue), Held(slots), first, multiset(queue[1..]), Held(slots'), multiset(Shards(outcomes)));
  }

  lemma FinishKeeps(due: seq<ShardId>, queue: seq<ShardId>, slots: seq<Option<ShardId>>, outcomes: seq<Outcome>, w: nat, o: Outcome)
    requires Partition(due, queue, slots, outcomes) && w < |slots| && slots[w] == Some(o.shard)
    ensures Partition(due, queue, slots[w := None], outcomes + [o])
  {
    HeldUpdate(slots, w, None);
    assert Shards(outcomes + [o]) == Shards(outcomes) + [o.shard];
    assert multiset(Shards(outcomes + [o])) == multiset(Shards(outcomes)) + multiset{o.shard};
    assert Held(slots) == Held(slots[w := None]) + multiset{o.shard};
  }

  /** No two workers hold the same shard, and no held shard is queued or finished. */
  lemma NoShardTwice(due: seq<ShardId>, queue: seq<ShardId>, slots: seq<Option<ShardId>>, outcomes: seq<Outcome>, i: nat, j: nat)
    requires Distinct(due) && Partition(due, queue, slots, outcomes)
    requires i < |slots| && slots[i].Some?
    ensures slots[i].value !in queue && slots[i].value !in Shards(outcomes)
    ensures j < |slots| && j != i ==> slots[j] != slots[i]
  {
    hide Held;
    var s := slots[i].value;
    HeldHas(slots, i);
    DistinctMultiset(due, s);
    if j < |slots| && j != i {
      var others := slots[i := None];
      HeldUpdate(slots, i, None);
      assert (Held(others) + One(slots[i]))[s] == Held(others)[s] + 1;
      assert (Held(slots) + One(None))[s] == Held(slots)[s];
      if slots[j] == slots[i] {
        HeldHas(others, j);
      }
    }
  }

  function IdlesIn(idles: map<ShardId, nat>, s: ShardId): nat {
    if s in idles then idles[s] else 0
  }

  /** Every entry's backoff is the schedule's for its idle passes, and it is due by then. */
  ghost predicate OnSchedule(poll: nat, sched: map<ShardId, ShardSched>, idles: map<ShardId, nat>, clock: nat) {
    forall s :: s in sched ==>
      && sched[s].backoff == NthBackoff(poll, IdlesIn(idles, s))
      && sched[s].dueAt <= clock + sched[s].backoff
  }

  lemma PlanOnSchedule(poll: nat, sched: map<ShardId, ShardSched>, idles: map<ShardId, nat>, clock: nat,
                       owned: seq<ShardId>, now: nat, kept: map<ShardId, nat>)
    requires OnSchedule(poll, sched, idles, clock) && clock <= now
    requires kept == map s | s in sched && s in idles :: idles[s]
    ensures OnSchedule(poll, Refreshed(sched, owned, now), kept, now)
  {
    assert NthBackoff(poll, 0) == 0;
  }

  // ---- What a history of cycles says -------------------------------------------------

  /** One cycle: what was owned when it was planned, what was due, what the passes saw, and when it ended. */
  datatype Cycle = Cycle(owned: seq<ShardId>, now: nat, due: seq<ShardId>, outcomes: seq<Outcome>, end: nat)

  /** What one cycle is given: the owned shards, the pool's size, its clock readings and its turns. */
  datatype Input = Input(owned: seq<ShardId>, k: nat, now: nat, turns: seq<Turn>, end: nat)

  predicate Timely(inputs: seq<Input>, clock: nat) {
    inputs == [] ||
    (&& Distinct(inputs[0].owned) && inputs[0].k >= 1 && clock <= inputs[0].now <= inputs[0].end
     && Timely(inputs[1..], inputs[0].end))
  }

  /** How a pass that is over in turn `n` ended; past the end of the list they all stop. */
  function EndedIn(turns: seq<Turn>, n: nat): PassOutcome {
    if n < |turns| then turns[n].seen else Stopped
  }

  /** Each outcome is what was seen in the turn in which its pass was over: `ends` names these turns, in order. */
  ghost predicate SeenBy(outcomes: seq<Outcome>, turns: seq<Turn>, ends: seq<nat>) {
    && |ends| == |outcomes| && (forall i, j :: 0 <= i < j < |ends| ==> ends[i] < ends[j])
    && forall i :: 0 <= i < |ends| ==> outcomes[i].seen == EndedIn(turns, ends[i])
  }

  /** No outcome is made up: a cycle of `n` passes takes `2 * n` turns, and the outcomes are from these. */
  ghost predicate Seen(outcomes: seq<Outcome>, turns: seq<Turn>) {
    exists ends: seq<nat> :: SeenBy(outcomes, turns, ends) && forall i :: 0 <= i < |ends| ==> ends[i] < 2 * |outcomes|
  }

  /** The same while the cycle goes on, after `n` turns. */
  ghost predicate SeenUpTo(outcomes: seq<Outcome>, turns: seq<Turn>, ends: seq<nat>, n: nat) {
    SeenBy(outcomes, turns, ends) && forall i :: 0 <= i < |ends| ==> ends[i] < n
  }

  lemma SeenPush(outcomes: seq<Outcome>, turns: seq<Turn>, ends: seq<nat>, n: nat, shard: ShardId)
    requires SeenUpTo(outcomes, turns, ends, n)
    ensures SeenUpTo(outcomes + [Outcome(shard, EndedIn(turns, n))], turns, ends + [n], n + 1)
  {
  }

  lemma SeenNext(outcomes: seq<Outcome>, turns: seq<Turn>, ends: seq<nat>, n: nat)
    requires SeenUpTo(outcomes, turns, ends, n)
    ensures SeenUpTo(outcomes, turns, ends, n + 1)
  {
  }

  lemma SeenAll(outcomes: seq<Outcome>, turns: seq<Turn>, ends: seq<nat>, n: nat)
    requires SeenUpTo(outcomes, turns, ends, n) && n <= 2 * |outcomes|
    ensures Seen(outcomes, turns)
  {
  }

  lemma NoneSeen(turns: seq<Turn>)
    ensures SeenUpTo([], turns, [], 0)
  {
  }

  lemma NoneHeld(slots: seq<Option<ShardId>>)
    requires forall i :: 0 <= i < |slots| ==> slots[i].None?
    ensures |Held(slots)| == 0
  {
    HeldNone(slots);
  }

  lemma NothingSeen(turns: seq<Turn>)
    ensures Seen([], turns)
  {
    assert SeenBy([], turns, []);
  }

  /** Queued, running and finished passes are as many as there are due shards. */
  lemma PartitionSize(due: seq<ShardId>, queue: seq<ShardId>, slots: seq<Option<ShardId>>, outcomes: seq<Outcome>)
    requires Partition(due, queue, slots, outcomes)
    ensures |queue| + |Held(slots)| + |outcomes| == |due|
  {
    hide Held;
    assert |multiset(queue) + Held(slots) + multiset(Shards(outcomes))| == |multiset(due)|;
  }

  function Saw(outcomes: seq<Outcome>, s: ShardId): Option<PassOutcome> {
    if outcomes == [] then None
    else
      var o := outcomes[|outcomes| - 1];
      if o.shard == s then Some(o.seen) else Saw(outcomes[..|outcomes| - 1], s)
  }

  lemma {:induction false} SawMeans(outcomes: seq<Outcome>, s: ShardId)
    requires Distinct(Shards(outcomes))
    ensures Saw(outcomes, s).None? <==> s !in Shards(outcomes)
    ensures forall j :: 0 <= j < |outcomes| && outcomes[j].shard == s ==> Saw(outcomes, s) == Some(outcomes[j].seen)
    decreases |outcomes|
  {
    if outcomes != [] {
      var front, names := outcomes[..|outcomes| - 1], Shards(outcomes);
      assert Shards(front) == names[..|front|] && names == Shards(front) + [names[|front|]];
      SawMeans(front, s);
      assert forall j :: 0 <= j < |front| ==> names[j] != names[|front|];
    }
  }

  /** Owned in the last cycle, and not ended or stopped by it. */
  predicate Scheduled(log: seq<Cycle>, s: ShardId) {
    && log != [] && s in log[|log| - 1].owned
    && Saw(log[|log| - 1].outcomes, s) != Some(Ended) && Saw(log[|log| - 1].outcomes, s) != Some(Stopped)
  }

  /** Idle passes in a row up to now. */
  function Streak(log: seq<Cycle>, s: ShardId): nat {
    if !Scheduled(log, s) then 0
    else
      match Saw(log[|log| - 1].outcomes, s)
      case None => Streak(log[..|log| - 1], s)
      case Some(Idle) => Streak(log[..|log| - 1], s) + 1
      case _ => 0
  }

  /** When the shard's last pass was folded in, or else when it came on the schedule. */
  function Since(log: seq<Cycle>, s: ShardId): nat {
    if log == [] then 0
    else if Saw(log[|log| - 1].outcomes, s).Some? then log[|log| - 1].end
    else if Scheduled(log[..|log| - 1], s) then Since(log[..|log| - 1], s)
    else log[|log| - 1].now
  }

  function DueTime(poll: nat, log: seq<Cycle>, s: ShardId): nat {
    Since(log, s) + NthBackoff(poll, Streak(log, s))
  }

  predicate TracksAt(poll: nat, log: seq<Cycle>, sched: map<ShardId, ShardSched>, idles: map<ShardId, nat>, s: ShardId) {
    && (s in sched <==> Scheduled(log, s))
    && (s in sched ==> IdlesIn(idles, s) == Streak(log, s))
    && (s in sched ==> sched[s] == ShardSched(NthBackoff(poll, Streak(log, s)), DueTime(poll, log, s)))
  }

  /** The schedule is what the history says it should be. */
  ghost predicate Tracks(poll: nat, log: seq<Cycle>, sched: map<ShardId, ShardSched>, idles: map<ShardId, nat>) {
    forall s :: TracksAt(poll, log, sched, idles, s)
  }

  /** One cycle after others: each owned shard whose time has come gets one pass, and no other. */
  ghost predicate CycleFits(poll: nat, log: seq<Cycle>, r: Cycle) {
    && (log != [] ==> log[|log| - 1].end <= r.now) && r.now <= r.end
    && Distinct(Shards(r.outcomes)) && multiset(Shards(r.outcomes)) == multiset(r.due)
    && forall s :: s in r.due <==> s in r.owned && (Scheduled(log, s) ==> DueTime(poll, log, s) <= r.now)
  }

  ghost predicate LogFits(poll: nat, log: seq<Cycle>) {
    forall i :: 0 <= i < |log| ==> CycleFits(poll, log[..i], log[i])
  }

  lemma LogGrows(poll: nat, log: seq<Cycle>, r: Cycle)
    requires LogFits(poll, log) && CycleFits(poll, log, r)
    ensures LogFits(poll, log + [r])
  {
    hide CycleFits;
    forall i | 0 <= i < |log + [r]| ensures CycleFits(poll, (log + [r])[..i], (log + [r])[i]) {
      assert (log + [r])[..i] == log[..i];
      assert i == |log| ==> log[..i] == log;
    }
  }

  lemma {:induction false} SinceIsPast(poll: nat, log: seq<Cycle>, s: ShardId)
    requires LogFits(poll, log) && log != []
    ensures Since(log, s) <= log[|log| - 1].end
    decreases |log|
  {
    var front := log[..|log| - 1];
    assert CycleFits(poll, front, log[|log| - 1]);
    if front != [] {
      assert forall i :: 0 <= i < |front| ==> front[..i] == log[..i];
      SinceIsPast(poll, front, s);
    }
  }

  lemma DueIsVisited(poll: nat, log: seq<Cycle>, r: Cycle, s: ShardId)
    requires CycleFits(poll, log, r) && s in r.due
    ensures s in Shards(r.outcomes)
  {
    assert s in multiset(r.due);
  }

  /** A shard active on its last pass is worked in the very next cycle that owns it, whenever that is. */
  lemma HotShardIsVisited(poll: nat, log: seq<Cycle>, i: nat, s: ShardId)
    requires LogFits(poll, log) && 0 < i < |log| && s in log[i].owned && Saw(log[i - 1].outcomes, s) == Some(Active)
    ensures s in Shards(log[i].outcomes)
  {
    assert CycleFits(poll, log[..i], log[i]) && log[..i][i - 1] == log[i - 1];
    assert Scheduled(log[..i], s) ==> Streak(log[..i], s) == 0 && Since(log[..i], s) == log[i - 1].end;
    assert NthBackoff(poll, 0) == 0;
    DueIsVisited(poll, log[..i], log[i], s);
  }

  /** Within the cap on the poll interval: the due time is capped doubling from the last pass on. */
  lemma DueTimeFormula(poll: nat, log: seq<Cycle>, s: ShardId)
    requires poll <= MAX_IDLE_BACKOFF_MS
    ensures DueTime(poll, log, s) == Since(log, s) +
      if Streak(log, s) == 0 then 0 else Min(Max(poll, 1) * Pow2(Streak(log, s) - 1), MAX_IDLE_BACKOFF_MS)
  {
    if Streak(log, s) > 0 {
      BackoffFormula(poll, Streak(log, s));
    }
  }

  lemma LogFront(poll: nat, log: seq<Cycle>, i: nat)
    requires LogFits(poll, log) && i <= |log|
    ensures LogFits(poll, log[..i])
  {
    hide CycleFits;
    assert forall j :: 0 <= j < i ==> log[..i][..j] == log[..j];
  }

  /** No shard starves: a cycle planned the longest backoff after the last one works every shard it owns. */
  lemma EveryShardIsVisited(poll: nat, log: seq<Cycle>, i: nat, s: ShardId)
    requires LogFits(poll, log) && i < |log| && s in log[i].owned && poll <= MAX_IDLE_BACKOFF_MS
    requires i > 0 ==> log[i].now >= log[i - 1].end + MAX_IDLE_BACKOFF_MS
    ensures s in Shards(log[i].outcomes)
  {
    assert CycleFits(poll, log[..i], log[i]);
    LogFront(poll, log, i);
    if i > 0 {
      assert log[..i][i - 1] == log[i - 1];
      SinceIsPast(poll, log[..i], s);
      DueTimeFormula(poll, log[..i], s);
    }
    hide LogFits, DueTime, Since, Streak, Min, Max, Pow2;
    DueIsVisited(poll, log[..i], log[i], s);
  }

  /** The plan queues the owned shards whose time has come. */
  lemma PlannedIsDue(poll: nat, log: seq<Cycle>, sched: map<ShardId, ShardSched>, idles: map<ShardId, nat>,
                     owned: seq<ShardId>, now: nat, s: ShardId)
    requires Tracks(poll, log, sched, idles)
    ensures s in Filter(owned, Due(Refreshed(sched, owned, now), now)) <==>
      s in owned && (Scheduled(log, s) ==> DueTime(poll, log, s) <= now)
  {
    FilterMembers(owned, Due(Refreshed(sched, owned, now), now));
    assert TracksAt(poll, log, sched, idles, s);
    hide DueTime, Scheduled, Streak;
  }

  /** What the fold makes of the planned entry of one shard. */
  predicate FoldedAt(poll: nat, outcomes: seq<Outcome>, end: nat, planned: map<ShardId, ShardSched>, counts: map<ShardId, nat>,
                     sched: map<ShardId, ShardSched>, idles: map<ShardId, nat>, s: ShardId) {
    match Saw(outcomes, s)
    case None =>
      (s in sched <==> s in planned) && (s in sched ==> IdlesIn(idles, s) == IdlesIn(counts, s) && sched[s] == planned[s])
    case Some(Active) => s in planned && s in sched && IdlesIn(idles, s) == 0 && sched[s] == ShardSched(0, end)
    case Some(Idle) =>
      var n := IdlesIn(counts, s) + 1;
      && s in planned && s in sched && IdlesIn(idles, s) == n
      && sched[s] == ShardSched(NthBackoff(poll, n), end + NthBackoff(poll, n))
    case _ => s !in sched
  }

  /** The planned entry of one shard: kept, or new and due at once. */
  predicate PlannedAt(owned: seq<ShardId>, now: nat, sched: map<ShardId, ShardSched>, idles: map<ShardId, nat>,
                      planned: map<ShardId, ShardSched>, counts: map<ShardId, nat>, s: ShardId) {
    && (s in planned <==> s in owned)
    && (s in planned ==> planned[s] == if s in sched then sched[s] else ShardSched(0, now))
    && (s in planned ==> IdlesIn(counts, s) == if s in sched then IdlesIn(idles, s) else 0)
  }

  lemma FoldTracks(poll: nat, log: seq<Cycle>, r: Cycle, sched: map<ShardId, ShardSched>, idles: map<ShardId, nat>,
                   planned: map<ShardId, ShardSched>, counts: map<ShardId, nat>,
                   sched': map<ShardId, ShardSched>, idles': map<ShardId, nat>)
    requires Tracks(poll, log, sched, idles)
    requires forall s :: PlannedAt(r.owned, r.now, sched, idles, planned, counts, s)
    requires forall s :: FoldedAt(poll, r.outcomes, r.end, planned, counts, sched', idles', s)
    ensures Tracks(poll, log + [r], sched', idles')
  {
    hide TracksAt, PlannedAt, FoldedAt;
    forall s ensures TracksAt(poll, log + [r], sched', idles', s) {
      assert TracksAt(poll, log, sched, idles, s) && PlannedAt(r.owned, r.now, sched, idles, planned, counts, s);
      assert FoldedAt(poll, r.outcomes, r.end, planned, counts, sched', idles', s);
      FoldTracksAt(poll, log, r, sched, idles, planned, counts, sched', idles', s);
    }
  }

  lemma FoldTracksAt(poll: nat, log: seq<Cycle>, r: Cycle, sched: map<ShardId, ShardSched>, idles: map<ShardId, nat>,
                     planned: map<ShardId, ShardSched>, counts: map<ShardId, nat>,
                     sched': map<ShardId, ShardSched>, idles': map<ShardId, nat>, s: ShardId)
    requires TracksAt(poll, log, sched, idles, s) && PlannedAt(r.owned, r.now, sched, idles, planned, counts, s)
    requires FoldedAt(poll, r.outcomes, r.end, planned, counts, sched', idles', s)
    ensures TracksAt(poll, log + [r], sched', idles', s)
  {
    assert (log + [r])[..|log|] == log && (log + [r])[|log|] == r;
    assert !Scheduled(log, s) ==> Streak(log, s) == 0;
    assert NthBackoff(poll, 0) == 0;
    hide Saw;
  }

  lemma SameShards(a: seq<ShardId>, b: seq<ShardId>)
    requires multiset(a) == multiset(b) && Distinct(b)
    ensures Distinct(a) && forall s :: s in a <==> s in b
  {
    forall i, j | 0 <= i < j < |a| ensures a[i] != a[j] {
      DistinctMultiset(b, a[j]);
      assert a == a[..j] + [a[j]] + a[j + 1..];
      assert a[i] in a[..j];
    }
    forall s ensures s in a <==> s in b {
      assert s in a <==> s in multiset(a);
      assert s in b <==> s in multiset(b);
    }
  }

  class BoundedPool {
    const poll: nat
    var sched: map<ShardId, ShardSched>
    var queue: seq<ShardId>
    var slots: seq<Option<ShardId>>
    var outcomes: seq<Outcome>
    // History: this cycle's due shards, consecutive idle passes, and the latest clock reading.
    ghost var due: seq<ShardId>
    ghost var idles: map<ShardId, nat>
    ghost var clock: nat
    ghost var log: seq<Cycle>

    ghost function Idles(s: ShardId): nat
      reads this`idles
    {
      IdlesIn(idles, s)
    }

    ghost predicate SchedOk()
      reads this`sched, this`idles, this`clock
    {
      OnSchedule(poll, sched, idles, clock)
    }

    ghost predicate CycleOk()
      reads this`queue, this`slots, this`outcomes, this`due
    {
      Distinct(due) && Partition(due, queue, slots, outcomes)
    }

    constructor (poll: nat)
      ensures SchedOk() && CycleOk() && sched == map[] && slots == [] && clock == 0
      ensures this.poll == poll && log == [] && Kept()
    {
      this.poll, sched, queue, slots, outcomes := poll, map[], [], [], [];
      due, idles, clock, log := [], map[], 0, [];
    }

    /** Between two cycles. */
    ghost predicate Kept()
      reads this`sched, this`idles, this`clock, this`log
    {
      && SchedOk() && LogFits(poll, log) && Tracks(poll, log, sched, idles)
      && (log != [] ==> log[|log| - 1].end == clock)
    }

    /** Keep the schedule of what is still owned, add the new, and queue what is due. */
    method Plan(owned: seq<ShardId>, k: nat, now: nat)
      requires SchedOk() && Distinct(owned) && clock <= now
      modifies this`sched, this`queue, this`slots, this`outcomes, this`due, this`idles, this`clock
      ensures SchedOk() && CycleOk() && clock == now && |slots| == k && outcomes == []
      ensures sched == Refreshed(old(sched), owned, now)
      ensures forall s :: s in sched ==> Idles(s) == if s in old(sched) then old(Idles(s)) else 0
      ensures queue == due == Filter(owned, Due(sched, now))
    {
      hide OnSchedule, Distinct, Filter, Refreshed;
      idles := map s | s in sched && s in idles :: idles[s];
      slots := seq(k, _ => None);
      outcomes := [];
      Select(owned, now);
      clock := now;
      due := queue;
      PlanOnSchedule(poll, old(sched), old(idles), old(clock), owned, now, idles);
      PlanIsPartition(owned, Due(sched, now), k);
    }

    /** The loop of the plan: refresh the schedule and queue what is due. */
    method Select(owned: seq<ShardId>, now: nat)
      modifies this`sched, this`queue
      ensures sched == Refreshed(old(sched), owned, now) && queue == Filter(owned, Due(sched, now))
    {
      hide Filter, Refreshed, Due;
      ghost var target := Refreshed(sched, owned, now);
      RefreshedRows(sched, owned, now);
      sched := Retained(sched, owned);
      queue := [];
      FilterNone(Due(target, now));
      assert owned[..0] == [];
      for i := 0 to |owned|
        invariant forall s :: s in sched <==> s in owned && (s in old(sched) || s in owned[..i])
        invariant forall s :: s in sched ==> sched[s] == target[s]
        invariant queue == Filter(owned[..i], Due(target, now))
      {
        var s := owned[i];
        FilterStep(owned, i, Due(target, now));
        assert owned[..i + 1] == owned[..i] + [s];
        if s !in sched {
          sched := sched[s := ShardSched(0, now)];
        }
        IsDue(target, now, s);
        if sched[s].dueAt <= now {
          queue := queue + [s];
        }
      }
      assert owned[..|owned|] == owned;
      assert sched == target;
    }

    /** An idle worker claims the first queued shard. */
    method Claim(w: nat)
      requires CycleOk() && w < |slots| && slots[w].None? && queue != []
      modifies this`queue, this`slots
      ensures CycleOk() && queue == old(queue)[1..] && slots == old(slots)[w := Some(old(queue)[0])]
    {
      hide Partition, Distinct;
      ClaimKeeps(due, queue, slots, outcomes, w);
      slots := slots[w := Some(queue[0])];
      queue := queue[1..];
    }

    /** A worker's pass is over. */
    method Finish(w: nat, seen: PassOutcome)
      requires CycleOk() && w < |slots| && slots[w].Some?
      modifies this`slots, this`outcomes
      ensures CycleOk() && slots == old(slots)[w := None]
      ensures outcomes == old(outcomes) + [Outcome(old(slots)[w].value, seen)]
    {
      hide Partition, Distinct;
      var o := Outcome(slots[w].value, seen);
      FinishKeeps(due, queue, slots, outcomes, w, o);
      outcomes := outcomes + [o];
      slots := slots[w := None];
    }

    /** The pool runs until its queue is empty and every worker is done: one outcome per due shard. */
    method Drain(turns: seq<Turn>)
      requires CycleOk() && |slots| >= 1 && outcomes == []
      modifies this`queue, this`slots, this`outcomes
      ensures CycleOk() && queue == [] && multiset(Shards(outcomes)) == multiset(due) && |slots| == old(|slots|)
      ensures Seen(outcomes, turns)
    {
      hide Held, Distinct, Partition, SeenUpTo, Seen, Shards;
      ghost var ends: seq<nat> := [];
      NoneSeen(turns);
      PartitionSize(due, queue, slots, outcomes);
      var next := 0;
      var working: bool, busy: nat := Busy();
      while queue != [] || working
        invariant CycleOk() && |slots| == old(|slots|)
        invariant working ==> busy < |slots| && slots[busy].Some?
        invariant !working ==> forall i :: 0 <= i < |slots| ==> slots[i].None?
        invariant SeenUpTo(outcomes, turns, ends, next) && next + 2 * |queue| + |Held(slots)| <= 2 * |due|
        decreases 2 * |queue| + |Held(slots)|
      {
        var w := if next < |turns| then turns[next].worker % |slots| else 0;
        var seen := EndedIn(turns, next);
        if slots[w].Some? || queue == [] {
          w := if slots[w].Some? then w else busy;
          HeldSize(slots, w, None);
          SeenPush(outcomes, turns, ends, next, slots[w].value);
          ends := ends + [next];
          Finish(w, seen);
        } else {
          HeldSize(slots, w, Some(queue[0]));
          SeenNext(outcomes, turns, ends, next);
          Claim(w);
        }
        next := next + 1;
        working, busy := Busy();
      }
      AllFinished(due, slots, outcomes);
      PartitionSize(due, queue, slots, outcomes);
      NoneHeld(slots);
      SeenAll(outcomes, turns, ends, next);
    }

    method Busy() returns (found: bool, w: nat)
      ensures found ==> w < |slots| && slots[w].Some?
      ensures !found ==> forall i :: 0 <= i < |slots| ==> slots[i].None?
    {
      w := 0;
      while w < |slots|
        invariant w <= |slots| && forall j :: 0 <= j < w ==> slots[j].None?
      {
        if slots[w].Some? {
          return true, w;
        }
        w := w + 1;
      }
      found := false;
    }

    /** What one pass saw sets its shard's next due time. */
    method FoldOne(o: Outcome, now: nat)
      requires SchedOk() && clock == now && o.shard in sched
      modifies this`sched, this`idles
      ensures SchedOk() && Folded(o, old(Idles(o.shard)), now)
      ensures forall s :: s != o.shard ==> (s in sched <==> s in old(sched)) && Idles(s) == old(Idles(s))
      ensures forall s :: s != o.shard && s in sched ==> sched[s] == old(sched)[s]
    {
      hide Min, Max;
      assert NthBackoff(poll, Idles(o.shard) + 1) == NextBackoff(poll, sched[o.shard].backoff);
      assert NthBackoff(poll, 0) == 0;
      match o.seen
      case Active =>
        sched := sched[o.shard := ShardSched(0, now)];
        idles := idles[o.shard := 0];
      case Idle =>
        var backoff := NextBackoff(poll, sched[o.shard].backoff);
        sched := sched[o.shard := ShardSched(backoff, now + backoff)];
        idles := idles[o.shard := Idles(o.shard) + 1];
      case _ =>
        sched := sched - {o.shard};
    }

    /** Active shards stay due, idle ones back off, ended and stopped ones leave the schedule. */
    method Fold(now: nat)
      requires SchedOk() && clock <= now
      requires Distinct(Shards(outcomes)) && forall o :: o in outcomes ==> o.shard in sched
      modifies this`sched, this`idles, this`clock
      ensures SchedOk() && clock == now
      ensures forall j :: 0 <= j < |outcomes| ==> Folded(outcomes[j], old(Idles(outcomes[j].shard)), now)
      ensures forall s :: s !in Shards(outcomes) ==>
        (s in sched <==> s in old(sched)) && Idles(s) == old(Idles(s)) && (s in sched ==> sched[s] == old(sched)[s])
    {
      clock := now;
      ghost var names := Shards(outcomes);
      for i := 0 to |outcomes|
        invariant SchedOk() && clock == now
        invariant forall s :: s !in names[..i] ==>
          (s in sched <==> s in old(sched)) && Idles(s) == old(Idles(s)) && (s in sched ==> sched[s] == old(sched)[s])
        invariant forall j :: 0 <= j < i ==> Folded(outcomes[j], old(Idles(outcomes[j].shard)), now)
      {
        hide FoldedIn, OnSchedule, IdlesIn;
        ghost var sched0, idles0 := sched, idles;
        assert names[..i + 1] == names[..i] + [outcomes[i].shard];
        assert outcomes[i].shard == names[i] && outcomes[i] in outcomes && outcomes[i].shard !in names[..i];
        forall j | 0 <= j < i ensures outcomes[j].shard != outcomes[i].shard {
          assert names[j] == outcomes[j].shard;
        }
        FoldOne(outcomes[i], now);
        forall j | 0 <= j < i ensures Folded(outcomes[j], old(Idles(outcomes[j].shard)), now) {
          FoldedStays(poll, sched0, idles0, sched, idles, outcomes[j], old(Idles(outcomes[j].shard)), now);
        }
      }
      assert names[..|outcomes|] == names;
    }

    /** The passes of one cycle, and what they leave of the schedule. */
    method DrainAndFold(turns: seq<Turn>, end: nat)
      requires SchedOk() && CycleOk() && |slots| >= 1 && outcomes == [] && clock <= end
      requires forall s :: s in due ==> s in sched
      modifies this`queue, this`slots, this`outcomes, this`sched, this`idles, this`clock
      ensures SchedOk() && clock == end && Distinct(Shards(outcomes)) && multiset(Shards(outcomes)) == multiset(due)
      ensures forall s :: FoldedAt(poll, outcomes, end, old(sched), old(idles), sched, idles, s)
      ensures Seen(outcomes, turns)
    {
      hide Seen, Partition, Distinct, OnSchedule, Held;
      Drain(turns);
      SameShards(Shards(outcomes), due);
      ShardsIn(outcomes);
      Fold(end);
      forall s ensures FoldedAt(poll, outcomes, end, old(sched), old(idles), sched, idles, s) {
        SawMeans(outcomes, s);
        SawFrom(outcomes, s);
      }
    }

    /** One cycle of the pool: plan, drain what is due, fold in what the passes saw. */
    method RunCycle(owned: seq<ShardId>, k: nat, now: nat, turns: seq<Turn>, end: nat)
      requires Kept() && Distinct(owned) && clock <= now <= end && k >= 1
      modifies this
      ensures Kept() && log == old(log) + [Cycle(owned, now, due, outcomes, if due == [] then now else end)]
      ensures Seen(outcomes, turns)
    {
      hide Seen, LogFits, Tracks, Partition, Distinct, OnSchedule, Refreshed, Due, DueTime, Scheduled, Filter, FoldedAt, PlannedAt;
      Plan(owned, k, now);
      ghost var planned, counts := sched, idles;
      PlannedRows(old(sched), old(idles), owned, now, planned, counts);
      forall s ensures s in due <==> s in owned && (Scheduled(log, s) ==> DueTime(poll, log, s) <= now) {
        PlannedIsDue(poll, log, old(sched), old(idles), owned, now, s);
      }
      if queue == [] {
        SameShards(Shards(outcomes), due);
        NothingSeen(turns);
        NothingFolded(poll, now, sched, idles);
      } else {
        DrainAndFold(turns, end);
      }
      ghost var r := Cycle(owned, now, due, outcomes, if due == [] then now else end);
      FoldTracks(poll, log, r, old(sched), old(idles), planned, counts, sched, idles);
      LogGrows(poll, log, r);
      log := log + [r];
    }

    /** Cycle after cycle, whatever is owned, however the passes interleave and whatever they see. */
    method Run(inputs: seq<Input>)
      requires Kept() && Timely(inputs, clock)
      modifies this
      ensures Kept() && |log| == |old(log)| + |inputs| && old(log) <= log
      ensures forall i :: 0 <= i < |inputs| ==>
        && log[|old(log)| + i].owned == inputs[i].owned && log[|old(log)| + i].now == inputs[i].now
        && Seen(log[|old(log)| + i].outcomes, inputs[i].turns)
    {
      hide SchedOk, LogFits, Tracks, Seen;
      for i := 0 to |inputs|
        invariant Kept() && Timely(inputs[i..], clock)
        invariant |log| == |old(log)| + i && old(log) <= log
        invariant forall j :: 0 <= j < i ==>
          && log[|old(log)| + j].owned == inputs[j].owned && log[|old(log)| + j].now == inputs[j].now
          && Seen(log[|old(log)| + j].outcomes, inputs[j].turns)
      {
        var input := inputs[i];
        assert inputs[i..][0] == input && inputs[i..][1..] == inputs[i + 1..];
        RunCycle(input.owned, input.k, input.now, input.turns, input.end);
        TimelyLater(inputs[i + 1..], input.end, clock);
      }
    }

    ghost predicate Folded(o: Outcome, before: nat, now: nat)
      reads this`sched, this`idles
    {
      FoldedIn(poll, sched, idles, o, before, now)
    }
  }

  predicate FoldedIn(poll: nat, sched: map<ShardId, ShardSched>, idles: map<ShardId, nat>, o: Outcome, before: nat, now: nat) {
    match o.seen
    case Active => o.shard in sched && sched[o.shard] == ShardSched(0, now) && IdlesIn(idles, o.shard) == 0
    case Idle =>
      && o.shard in sched && IdlesIn(idles, o.shard) == before + 1
      && sched[o.shard] == ShardSched(NthBackoff(poll, before + 1), now + NthBackoff(poll, before + 1))
    case _ => o.shard !in sched
  }

  lemma FoldedStays(poll: nat, sched: map<ShardId, ShardSched>, idles: map<ShardId, nat>,
                    sched': map<ShardId, ShardSched>, idles': map<ShardId, nat>, o: Outcome, before: nat, now: nat)
    requires FoldedIn(poll, sched, idles, o, before, now) && IdlesIn(idles', o.shard) == IdlesIn(idles, o.shard)
    requires (o.shard in sched' <==> o.shard in sched) && (o.shard in sched' ==> sched'[o.shard] == sched[o.shard])
    ensures FoldedIn(poll, sched', idles', o, before, now)
  {
  }

  function Refreshed(sched: map<ShardId, ShardSched>, owned: seq<ShardId>, now: nat): map<ShardId, ShardSched> {
    map s | s in owned :: if s in sched then sched[s] else ShardSched(0, now)
  }

  /** Entries of shards that are no longer owned go. */
  function Retained(sched: map<ShardId, ShardSched>, owned: seq<ShardId>): (r: map<ShardId, ShardSched>)
    ensures forall s :: s in r <==> s in sched && s in owned
    ensures forall s :: s in r ==> r[s] == sched[s]
  {
    map s | s in sched && s in owned :: sched[s]
  }

  lemma RefreshedRows(sched: map<ShardId, ShardSched>, owned: seq<ShardId>, now: nat)
    ensures forall s :: s in Refreshed(sched, owned, now) <==> s in owned
    ensures forall s :: s in owned ==> Refreshed(sched, owned, now)[s] == if s in sched then sched[s] else ShardSched(0, now)
  {
  }

  lemma IsDue(sched: map<ShardId, ShardSched>, now: nat, s: ShardId)
    ensures Due(sched, now)(s) <==> s in sched && sched[s].dueAt <= now
  {
  }

  lemma TimelyLater(inputs: seq<Input>, clock: nat, earlier: nat)
    requires Timely(inputs, clock) && earlier <= clock
    ensures Timely(inputs, earlier)
  {
  }

  lemma PlannedRows(sched: map<ShardId, ShardSched>, idles: map<ShardId, nat>, owned: seq<ShardId>, now: nat,
                    planned: map<ShardId, ShardSched>, counts: map<ShardId, nat>)
    requires planned == Refreshed(sched, owned, now)
    requires forall s :: s in planned ==> IdlesIn(counts, s) == if s in sched then IdlesIn(idles, s) else 0
    ensures forall s :: PlannedAt(owned, now, sched, idles, planned, counts, s)
    ensures forall s :: s in planned <==> s in owned
  {
  }

  lemma NothingFolded(poll: nat, end: nat, sched: map<ShardId, ShardSched>, idles: map<ShardId, nat>)
    ensures forall s :: FoldedAt(poll, [], end, sched, idles, sched, idles, s)
  {
  }

  lemma {:induction false} SawFrom(outcomes: seq<Outcome>, s: ShardId)
    ensures Saw(outcomes, s).Some? ==> exists j :: 0 <= j < |outcomes| && outcomes[j] == Outcome(s, Saw(outcomes, s).value)
    decreases |outcomes|
  {
    if outcomes != [] && outcomes[|outcomes| - 1].shard != s {
      var front := outcomes[..|outcomes| - 1];
      SawFrom(front, s);
      if Saw(front, s).Some? {
        var j :| 0 <= j < |front| && front[j] == Outcome(s, Saw(front, s).value);
        assert outcomes[j] == front[j];
      }
    } else if outcomes != [] {
      assert outcomes[|outcomes| - 1] == Outcome(s, outcomes[|outcomes| - 1].seen);
    }
  }

  lemma ShardsIn(outcomes: seq<Outcome>)
    ensures forall o :: o in outcomes ==> o.shard in Shards(outcomes)
  {
    forall o | o in outcomes ensures o.shard in Shards(outcomes) {
      var j :| 0 <= j < |outcomes| && outcomes[j] == o;
      assert Shards(outcomes)[j] == o.shard;
    }
  }

  function Due(sched: map<ShardId, ShardSched>, now: nat): ShardId -> bool {
    (s: ShardId) => s in sched && sched[s].dueAt <= now
  }

  lemma FilterNone(p: ShardId -> bool)
    ensures Filter<ShardId>([], p) == []
  {
  }

  lemma PlanIsPartition(owned: seq<ShardId>, p: ShardId -> bool, k: nat)
    requires Distinct(owned)
    ensures Distinct(Filter(owned, p)) && Partition(Filter(owned, p), Filter(owned, p), seq(k, _ => None), [])
  {
    FilterKeepsDistinct(owned, p);
    HeldNone(seq(k, _ => None));
    assert Shards([]) == [];
  }

  lemma AllFinished(due: seq<ShardId>, slots: seq<Option<ShardId>>, outcomes: seq<Outcome>)
    requires Partition(due, [], slots, outcomes) && forall i :: 0 <= i < |slots| ==> slots[i].None?
    ensures multiset(Shards(outcomes)) == multiset(due)
  {
    HeldNone(slots);
  }

  /** A shard active on its last pass is due again at once, at whatever later time the next cycle runs. */
  lemma ActiveIsDue(pool: BoundedPool, s: ShardId, now: nat)
    requires pool.SchedOk() && s in pool.sched && pool.sched[s].backoff == 0 && pool.clock <= now
    ensures Due(pool.sched, now)(s)
  {
  }

  /** An idle shard is due again once its backoff has passed, and with a poll interval up to the cap within the cap. */
  lemma IdleIsDueInTime(pool: BoundedPool, s: ShardId, now: nat)
    requires pool.SchedOk() && s in pool.sched && pool.poll <= MAX_IDLE_BACKOFF_MS
    requires now >= pool.clock + MAX_IDLE_BACKOFF_MS
    ensures Due(pool.sched, now)(s)
  {
    if pool.Idles(s) > 0 {
      BackoffFormula(pool.poll, pool.Idles(s));
    }
  }

  lemma {:induction false} FilterKeepsDistinct(s: seq<ShardId>, p: ShardId -> bool)
    requires Distinct(s)
    ensures Distinct(Filter(s, p))
    decreases |s|
  {
    if s != [] {
      var rest := s[..|s| - 1];
      FilterKeepsDistinct(rest, p);
      FilterMembers(rest, p);
      var f := Filter(rest, p);
      forall i | 0 <= i < |f| ensures f[i] != s[|s| - 1] {
        assert f[i] in rest;
      }
    }
  }
}
