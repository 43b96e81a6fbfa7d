/**
 The fleet protocol as a step system: any number of workers run coordination cycles
 against one lease table, interleaved at the granularity of single store operations.

 A worker's cycle scans the table, may publish and collect rows (Leading), scans again
 and takes leases (Claiming), scans a third time and runs one pass per owned, eligible
 shard (Running). It may crash at any point, and it may shut down gracefully (Releasing).
 Which worker leads and which keys it takes are left open here, so every theorem holds
 whatever the election and the taker decide.
 */
module Fleet {
  import opened Types
  import opened LeaseTable

  /** The part of one shard's log that exists so far. A closed log grows no more. */
  datatype Log = Log(len: nat, closed: bool)

  /**
   What stays fixed over a run: the single-parent lineage, the workers that defer their
   checkpoints, and two facts about the consumers (every ack lies inside the batch it
   answers; every delivered batch is acked).
   */
  datatype Config = Config(
    parent: map<ShardId, Option<ShardId>>,
    deferred: set<Worker>,
    acksInside: bool,
    acksAlways: bool)

  /** One delivery: pass `pass` of `worker` handed records [lo, hi) of `shard` to its consumer. */
  datatype Event = Event(worker: Worker, pass: nat, shard: ShardId, lo: nat, hi: nat)

  /** Where a shard pass stands between two store, source or consumer calls. */
  datatype Phase =
    | Reading
    | Holding(count: nat, end: bool)
    | Saving(ack: nat, next: nat, end: bool)
    | Ending
    | Completing

  /** `term` is the ownership term the pass was started under (history only). */
  datatype Pass = Pass(id: nat, term: nat, counter: nat, after: nat, phase: Phase)

  /** A deferred ack, with the ownership term it was recorded under (history only). */
  datatype Pend = Pend(ack: nat, term: nat)

  datatype Stage =
    | Idle
    | Leading(rows: map<ShardId, Row>)
    | Claiming(rows: map<ShardId, Row>, read: Option<(ShardId, nat)>)
    | Running(rows: map<ShardId, Row>, terms: map<ShardId, nat>, started: set<ShardId>)
    | Releasing(held: map<ShardId, nat>)

  datatype Local = Local(stage: Stage, passes: map<ShardId, Pass>, pending: map<ShardId, Pend>)

  /**
   `hist`, `front`, `published` and `terms` are history: no guard reads them. `hist` lists
   the deliveries, `front` says how far each shard was delivered without a gap,
   `published` holds every shard that ever had a row, and `terms` stamps takeovers.
   */
  datatype State = State(
    config: Config,
    logs: map<ShardId, Log>,
    table: map<ShardId, Row>,
    locals: map<Worker, Local>,
    hist: seq<Event>,
    front: map<ShardId, nat>,
    published: set<ShardId>,
    terms: map<ShardId, nat>,
    clock: nat)

  /** What became of a write whose condition is checked by the store. */
  datatype Fate =
    | Landed      // applied, and the worker knows
    | Unheard     // applied, but the worker saw an error
    | Refused     // not applied

  datatype Reply = Failed | Unacked | Acked(ack: nat)

  datatype Action =
    | Append(s: ShardId, n: nat)
    | Close(s: ShardId)
    | BeginCycle(w: Worker)
    | Publish(w: Worker, s: ShardId)
    | Collect(w: Worker, s: ShardId)
    | ScanForTake(w: Worker)
    | AcquireCreate(w: Worker, s: ShardId)
    | AcquireRead(w: Worker, s: ShardId)
    | AcquireClaim(w: Worker, landed: bool)
    | ScanForRun(w: Worker)
    | StartPass(w: Worker, s: ShardId)
    | Read(w: Worker, s: ShardId, count: nat, end: bool)
    | ReadFails(w: Worker, s: ShardId)
    | Deliver(w: Worker, s: ShardId, reply: Reply, due: bool)
    | Save(w: Worker, s: ShardId, fate: Fate)
    | Flush(w: Worker, s: ShardId, fate: Fate)
    | SkipFlush(w: Worker, s: ShardId)
    | Complete(w: Worker, s: ShardId, fate: Fate)
    | EndCycle(w: Worker)
    | Crash(w: Worker)
    | BeginRelease(w: Worker)
    | ReleaseFlush(w: Worker, s: ShardId, fate: Fate)
    | Release(w: Worker, s: ShardId, fate: Fate)

  // ---- Reading the state -------------------------------------------------------------

  const FRESH: Local := Local(Idle, map[], map[])

  function At(st: State, w: Worker): Local {
    if w in st.locals then st.locals[w] else FRESH
  }

  function Put(st: State, w: Worker, l: Local): State {
    st.(locals := st.locals[w := l])
  }

  function Term(st: State, s: ShardId): nat {
    if s in st.terms then st.terms[s] else 0
  }

  function Front(st: State, s: ShardId): nat {
    if s in st.front then st.front[s] else 0
  }

  /** The children of `s` that have a row in a scan. */
  predicate IsChild(rows: map<ShardId, Row>, s: ShardId, c: ShardId) {
    c in rows && s in rows[c].parents
  }

  /** A tombstone may go once it has children rows and all of them have made progress. */
  predicate SafeToDelete(rows: map<ShardId, Row>, s: ShardId) {
    && s in rows && rows[s].completed
    && (exists c :: c in rows && IsChild(rows, s, c))
    && (forall c :: c in rows && IsChild(rows, s, c) ==> rows[c].completed || rows[c].checkpoint > 0)
  }

  predicate Eligible(rows: map<ShardId, Row>, s: ShardId) {
    && s in rows && !rows[s].completed
    && forall p :: p in rows[s].parents ==> (p in rows ==> rows[p].completed)
  }

  /** The discovery gate: a root, or a shard whose parent the scan shows complete. */
  predicate Discoverable(st: State, rows: map<ShardId, Row>, s: ShardId) {
    && s in st.config.parent && s !in rows
    && match st.config.parent[s]
       case None => true
       case Some(p) => p in rows && rows[p].completed
  }

  function ParentList(st: State, s: ShardId): seq<ShardId>
    requires s in st.config.parent
  {
    match st.config.parent[s]
    case None => []
    case Some(p) => [p]
  }

  predicate HasPass(st: State, w: Worker, s: ShardId) {
    s in At(st, w).passes
  }

  function PassOf(st: State, w: Worker, s: ShardId): Pass
    requires HasPass(st, w, s)
  {
    At(st, w).passes[s]
  }

  /** A write may land only if its condition holds; it may be refused at any time. */
  predicate FateOk(fate: Fate, condition: bool) {
    fate != Refused ==> condition
  }

  predicate AckOk(config: Config, lo: nat, hi: nat, reply: Reply) {
    && (reply.Acked? ==> 0 < reply.ack <= hi)
    && (config.acksInside && reply.Acked? ==> lo < reply.ack)
    && (config.acksAlways ==> !reply.Unacked?)
  }

  // ---- Guards ------------------------------------------------------------------------

  predicate Enabled(st: State, a: Action) {
    match a
    case Append(s, n) => s in st.logs && !st.logs[s].closed
    case Close(s) => s in st.logs
    case BeginCycle(w) => At(st, w).stage.Idle?
    case Publish(w, s) => At(st, w).stage.Leading? && Discoverable(st, At(st, w).stage.rows, s)
    case Collect(w, s) => At(st, w).stage.Leading? && SafeToDelete(At(st, w).stage.rows, s)
    case ScanForTake(w) => At(st, w).stage.Leading?
    case AcquireCreate(w, s) =>
      && At(st, w).stage.Claiming? && At(st, w).stage.read.None?
      && s in At(st, w).stage.rows && !At(st, w).stage.rows[s].completed && s !in st.table
    case AcquireRead(w, s) =>
      && At(st, w).stage.Claiming? && At(st, w).stage.read.None?
      && s in At(st, w).stage.rows && !At(st, w).stage.rows[s].completed && s in st.table
    case AcquireClaim(w, landed) =>
      && At(st, w).stage.Claiming? && At(st, w).stage.read.Some?
      && (landed ==>
          var (s, seen) := At(st, w).stage.read.value;
          s in st.table && st.table[s].counter == seen)
    case ScanForRun(w) => At(st, w).stage.Claiming?
    case StartPass(w, s) =>
      && At(st, w).stage.Running? && s !in At(st, w).stage.started
      && Eligible(At(st, w).stage.rows, s) && At(st, w).stage.rows[s].owner == Some(w)
    case Read(w, s, count, end) =>
      && HasPass(st, w, s) && PassOf(st, w, s).phase.Reading? && s in st.logs
      && PassOf(st, w, s).after + count <= st.logs[s].len
      && (end ==> st.logs[s].closed && PassOf(st, w, s).after + count == st.logs[s].len)
    case ReadFails(w, s) => HasPass(st, w, s) && PassOf(st, w, s).phase.Reading?
    case Deliver(w, s, reply, due) =>
      && HasPass(st, w, s) && PassOf(st, w, s).phase.Holding?
      && AckOk(st.config, PassOf(st, w, s).after, PassOf(st, w, s).after + PassOf(st, w, s).phase.count, reply)
    case Save(w, s, fate) =>
      && HasPass(st, w, s) && PassOf(st, w, s).phase.Saving?
      && FateOk(fate, Held(st.table, s, w, PassOf(st, w, s).counter))
    case Flush(w, s, fate) =>
      && HasPass(st, w, s) && PassOf(st, w, s).phase.Ending? && s in At(st, w).pending
      && FateOk(fate, Held(st.table, s, w, PassOf(st, w, s).counter))
    case SkipFlush(w, s) =>
      HasPass(st, w, s) && PassOf(st, w, s).phase.Ending? && s !in At(st, w).pending
    case Complete(w, s, fate) =>
      && HasPass(st, w, s) && PassOf(st, w, s).phase.Completing?
      && FateOk(fate, Held(st.table, s, w, PassOf(st, w, s).counter))
    case EndCycle(w) => !At(st, w).stage.Idle? && At(st, w).passes == map[]
    case Crash(w) => true
    case BeginRelease(w) => At(st, w).stage.Idle?
    case ReleaseFlush(w, s, fate) =>
      && At(st, w).stage.Releasing? && s in At(st, w).stage.held && s in At(st, w).pending
      && FateOk(fate, Held(st.table, s, w, At(st, w).stage.held[s]))
    case Release(w, s, fate) =>
      && At(st, w).stage.Releasing? && s in At(st, w).stage.held && s !in At(st, w).pending
      && FateOk(fate, Held(st.table, s, w, At(st, w).stage.held[s]))
  }

  // ---- Effects -----------------------------------------------------------------------

  function WithPass(l: Local, s: ShardId, p: Pass): Local {
    l.(passes := l.passes[s := p])
  }

  /** The pass is over; its deferred ack stays. */
  function PassOver(l: Local, s: ShardId): Local {
    l.(passes := l.passes - {s})
  }

  /** The pass is over and its deferred ack is dropped with it. */
  function PassLost(l: Local, s: ShardId): Local {
    l.(passes := l.passes - {s}, pending := l.pending - {s})
  }

  /** A batch is dealt with: read on, or wind the shard up. */
  function AfterBatch(p: Pass, next: nat, end: bool): Pass {
    p.(after := next, phase := if end then Ending else Reading)
  }

  /** A takeover opens a new ownership term. */
  function TakenOver(st: State, s: ShardId, rows: map<ShardId, Row>): State {
    st.(table := rows, terms := st.terms[s := st.clock + 1], clock := st.clock + 1)
  }

  function Owned(rows: map<ShardId, Row>, w: Worker): set<ShardId> {
    set s | s in rows && rows[s].owner == Some(w) && !rows[s].completed
  }

  function Resume(l: Local, rows: map<ShardId, Row>, s: ShardId): nat
    requires s in rows
  {
    if s in l.pending then l.pending[s].ack else rows[s].checkpoint
  }

  function Started(st: State, w: Worker, s: ShardId): State
    requires At(st, w).stage.Running? && s in At(st, w).stage.rows
  {
    var l := At(st, w);
    var term := if s in l.stage.terms then l.stage.terms[s] else 0;
    var p := Pass(st.clock + 1, term, l.stage.rows[s].counter, Resume(l, l.stage.rows, s), Reading);
    Put(st.(clock := st.clock + 1), w,
        WithPass(l.(stage := l.stage.(started := l.stage.started + {s})), s, p))
  }

  function Fetched(st: State, w: Worker, s: ShardId, count: nat, end: bool): State
    requires HasPass(st, w, s)
  {
    var l, p := At(st, w), PassOf(st, w, s);
    if count > 0 then Put(st, w, WithPass(l, s, p.(phase := Holding(count, end))))
    else if end then Put(st, w, WithPass(l, s, p.(phase := Ending)))
    else Put(st, w, PassOver(l, s))
  }

  /** What the reply to a delivered batch leaves the worker with. */
  function Replied(config: Config, w: Worker, l: Local, s: ShardId, p: Pass, reply: Reply, due: bool): Local
    requires p.phase.Holding?
  {
    var next := p.after + p.phase.count;
    match reply
    case Failed => PassLost(l, s)
    case Unacked => WithPass(l, s, AfterBatch(p, next, p.phase.end))
    case Acked(ack) =>
      if w !in config.deferred then WithPass(l, s, p.(phase := Saving(ack, next, p.phase.end)))
      else
        WithPass(l.(pending := l.pending[s := Pend(ack, p.term)]), s,
                 if due then p.(phase := Saving(ack, next, p.phase.end))
                 else AfterBatch(p, next, p.phase.end))
  }

  function Told(st: State, e: Event): State {
    var f := Front(st, e.shard);
    st.(hist := st.hist + [e], front := st.front[e.shard := if e.lo <= f then Max(f, e.hi) else f])
  }

  /** A failed delivery is not counted as one. */
  function Delivered(st: State, w: Worker, s: ShardId, reply: Reply, due: bool): State
    requires HasPass(st, w, s) && PassOf(st, w, s).phase.Holding?
  {
    var p := PassOf(st, w, s);
    var l := Replied(st.config, w, At(st, w), s, p, reply, due);
    if reply.Failed? then Put(st, w, l) else Put(Told(st, Event(w, p.id, s, p.after, p.after + p.phase.count)), w, l)
  }

  function Saved(st: State, w: Worker, s: ShardId, fate: Fate): State
    requires HasPass(st, w, s) && PassOf(st, w, s).phase.Saving?
  {
    var l, p := At(st, w), PassOf(st, w, s);
    var rows := if fate.Refused? then st.table else Checkpointed(st.table, s, w, p.counter, p.phase.ack);
    var next := AfterBatch(p.(counter := p.counter + 1), p.phase.next, p.phase.end);
    Put(st.(table := rows), w,
        if fate.Landed? then WithPass(l.(pending := l.pending - {s}), s, next) else PassLost(l, s))
  }

  function Flushed(st: State, w: Worker, s: ShardId, fate: Fate): State
    requires HasPass(st, w, s) && s in At(st, w).pending
  {
    var l, p := At(st, w), PassOf(st, w, s);
    var rows := if fate.Refused? then st.table else Checkpointed(st.table, s, w, p.counter, l.pending[s].ack);
    Put(st.(table := rows), w,
        if fate.Landed? then
          WithPass(l.(pending := l.pending - {s}), s, p.(counter := p.counter + 1, phase := Completing))
        else PassLost(l, s))
  }

  function ReleaseFlushed(st: State, w: Worker, s: ShardId, fate: Fate): State
    requires At(st, w).stage.Releasing? && s in At(st, w).stage.held && s in At(st, w).pending
  {
    var l := At(st, w);
    var c := l.stage.held[s];
    var rows := if fate.Refused? then st.table else Checkpointed(st.table, s, w, c, l.pending[s].ack);
    var held := if fate.Landed? then l.stage.held[s := c + 1] else l.stage.held;
    Put(st.(table := rows), w, l.(stage := Releasing(held), pending := l.pending - {s}))
  }

  function Apply(st: State, a: Action): State
    requires Enabled(st, a)
  {
    match a
    case Append(s, n) => st.(logs := st.logs[s := Log(st.logs[s].len + n, false)])
    case Close(s) => st.(logs := st.logs[s := Log(st.logs[s].len, true)])
    case BeginCycle(w) => Put(st, w, At(st, w).(stage := Leading(st.table)))
    case Publish(w, s) =>
      st.(table := LeaseTable.Published(st.table, s, ParentList(st, s), 0), published := st.published + {s})
    case Collect(w, s) => st.(table := Deleted(st.table, s))
    case ScanForTake(w) => Put(st, w, At(st, w).(stage := Claiming(st.table, None)))
    case AcquireCreate(w, s) => TakenOver(st, s, CreatedOwned(st.table, s, w))
    case AcquireRead(w, s) =>
      Put(st, w, At(st, w).(stage := At(st, w).stage.(read := Some((s, st.table[s].counter)))))
    case AcquireClaim(w, landed) =>
      var (s, seen) := At(st, w).stage.read.value;
      var claimed := if landed then TakenOver(st, s, Claimed(st.table, s, w, seen)) else st;
      Put(claimed, w, At(st, w).(stage := At(st, w).stage.(read := None)))
    case ScanForRun(w) =>
      var l := At(st, w);
      Put(st, w, Local(Running(st.table, st.terms, {}), l.passes,
                       map s | s in l.pending && s in Owned(st.table, w) :: l.pending[s]))
    case StartPass(w, s) => Started(st, w, s)
    case Read(w, s, count, end) => Fetched(st, w, s, count, end)
    case ReadFails(w, s) => Put(st, w, PassOver(At(st, w), s))
    case Deliver(w, s, reply, due) => Delivered(st, w, s, reply, due)
    case Save(w, s, fate) => Saved(st, w, s, fate)
    case Flush(w, s, fate) => Flushed(st, w, s, fate)
    case SkipFlush(w, s) => Put(st, w, WithPass(At(st, w), s, PassOf(st, w, s).(phase := Completing)))
    case Complete(w, s, fate) =>
      var rows := if fate.Refused? then st.table else MarkedComplete(st.table, s, w, PassOf(st, w, s).counter);
      Put(st.(table := rows), w, PassLost(At(st, w), s))
    case EndCycle(w) => Put(st, w, At(st, w).(stage := Idle))
    case Crash(w) => Put(st, w, FRESH)
    case BeginRelease(w) =>
      Put(st, w, At(st, w).(stage := Releasing(map s | s in Owned(st.table, w) :: st.table[s].counter)))
    case ReleaseFlush(w, s, fate) => ReleaseFlushed(st, w, s, fate)
    case Release(w, s, fate) =>
      var l := At(st, w);
      var rows := if fate.Refused? then st.table else LeaseTable.Released(st.table, s, w, l.stage.held[s]);
      Put(st.(table := rows), w, l.(stage := Releasing(l.stage.held - {s})))
  }

  // ---- Runs --------------------------------------------------------------------------

  /** A fresh table, no worker under way, nothing delivered; logs of any length. */
  ghost predicate Init(st: State) {
    && st.table == map[] && st.locals == map[] && st.hist == [] && st.front == map[] && st.published == {}
    && st.terms == map[] && st.clock == 0
    && st.logs.Keys == st.config.parent.Keys
  }

  /** `acts` can be taken one after another from `st`. */
  ghost predicate Runs(st: State, acts: seq<Action>)
    decreases |acts|
  {
    acts == [] || (Enabled(st, acts[0]) && Runs(Apply(st, acts[0]), acts[1..]))
  }

  ghost function After(st: State, acts: seq<Action>): State
    requires Runs(st, acts)
    decreases |acts|
  {
    if acts == [] then st else After(Apply(st, acts[0]), acts[1..])
  }

  ghost predicate Reaches(st: State, acts: seq<Action>, end: State) {
    Runs(st, acts) && After(st, acts) == end
  }

  lemma ReachNone(st: State)
    ensures Reaches(st, [], st)
  {
  }

  lemma {:induction false} ReachThenStep(st: State, acts: seq<Action>, end: State, a: Action)
    requires Reaches(st, acts, end) && Enabled(end, a)
    ensures Reaches(st, acts + [a], Apply(end, a))
    decreases |acts|
  {
    if acts == [] {
      assert acts + [a] == [a];
      assert Runs(Apply(st, a), [a][1..]);
    } else {
      ReachThenStep(Apply(st, acts[0]), acts[1..], end, a);
      assert (acts + [a])[0] == acts[0];
      assert (acts + [a])[1..] == acts[1..] + [a];
    }
  }
}
