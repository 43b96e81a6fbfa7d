/**
 The single-worker scheduler on arbitrary shard graphs, merges and broken lineage included:
 it ends, delivers in order and parents first, and completes exactly what can be completed.
 */
module Scheduler {
  import opened Types

  /** What the record processor is told. */
  datatype Event =
    | Initialized(shard: ShardId)
    | Records(shard: ShardId, lo: nat, hi: nat)
    | ShardEnded(shard: ShardId)

  /** How the source cuts its next answer: how many records at most, and whether the end comes with them. */
  datatype Cut = Cut(size: nat, endsToo: bool)

  // ---- Which shards can be completed -------------------------------------------------

  ghost predicate DistinctIds(shards: seq<ShardMeta>) {
    forall i, j :: 0 <= i < j < |shards| ==> shards[i].id != shards[j].id
  }

  /** Completable in at most `n` generations from what is complete already. */
  ghost predicate CompletableIn(shards: seq<ShardMeta>, done: set<ShardId>, n: nat, s: ShardId)
    decreases n
  {
    s in done ||
    (n > 0 && exists m :: m in shards && m.id == s && forall p :: p in m.parents ==> CompletableIn(shards, done, n - 1, p))
  }

  ghost predicate Completable(shards: seq<ShardMeta>, done: set<ShardId>, s: ShardId) {
    exists n: nat :: CompletableIn(shards, done, n, s)
  }

  /** Every shard of `b` is incomplete and waits for a shard of `b`, or is not listed at all. */
  ghost predicate Deadlock(shards: seq<ShardMeta>, done: set<ShardId>, b: set<ShardId>) {
    forall s :: s in b ==> s !in done && forall m :: m in shards && m.id == s ==> exists p :: p in m.parents && p in b
  }

  lemma DoneIsCompletable(shards: seq<ShardMeta>, done: set<ShardId>, s: ShardId)
    ensures s in done ==> Completable(shards, done, s)
  {
    if s in done {
      assert CompletableIn(shards, done, 0, s);
    }
  }

  lemma {:induction false} CompletableLater(shards: seq<ShardMeta>, done: set<ShardId>, n: nat, k: nat, s: ShardId)
    requires CompletableIn(shards, done, n, s) && n <= k
    ensures CompletableIn(shards, done, k, s)
    decreases n
  {
    if s !in done {
      var m :| m in shards && m.id == s && forall p :: p in m.parents ==> CompletableIn(shards, done, n - 1, p);
      forall p | p in m.parents ensures CompletableIn(shards, done, k - 1, p) {
        CompletableLater(shards, done, n - 1, k - 1, p);
      }
    }
  }

  /** Nothing in a deadlock can be completed. */
  lemma {:induction false} DeadlockStays(shards: seq<ShardMeta>, done: set<ShardId>, b: set<ShardId>, n: nat, s: ShardId)
    requires Deadlock(shards, done, b) && s in b
    ensures !CompletableIn(shards, done, n, s)
    decreases n
  {
    if n > 0 {
      forall m | m in shards && m.id == s
        ensures exists p :: p in m.parents && !CompletableIn(shards, done, n - 1, p)
      {
        var p :| p in m.parents && p in b;
        DeadlockStays(shards, done, b, n - 1, p);
      }
    }
  }

  /** If every parent can be completed, so can the shard. */
  lemma {:induction false} ParentsSuffice(shards: seq<ShardMeta>, done: set<ShardId>, m: ShardMeta, k: nat) returns (n: nat)
    requires m in shards && k <= |m.parents|
    requires forall p :: p in m.parents ==> Completable(shards, done, p)
    ensures forall i :: 0 <= i < k ==> CompletableIn(shards, done, n, m.parents[i])
    decreases k
  {
    n := 0;
    if k > 0 {
      var before := ParentsSuffice(shards, done, m, k - 1);
      assert Completable(shards, done, m.parents[k - 1]);
      var last: nat :| CompletableIn(shards, done, last, m.parents[k - 1]);
      n := Max(before, last);
      forall i | 0 <= i < k ensures CompletableIn(shards, done, n, m.parents[i]) {
        CompletableLater(shards, done, if i < k - 1 then before else last, n, m.parents[i]);
      }
    }
  }

  lemma ChildCompletable(shards: seq<ShardMeta>, done: set<ShardId>, m: ShardMeta)
    requires m in shards && forall p :: p in m.parents ==> Completable(shards, done, p)
    ensures Completable(shards, done, m.id)
  {
    var n := ParentsSuffice(shards, done, m, |m.parents|);
    assert forall p :: p in m.parents ==> CompletableIn(shards, done, n, p);
    assert CompletableIn(shards, done, n + 1, m.id);
  }

  /** A set that contains what is done and every shard whose parents it contains has it all. */
  lemma {:induction false} ClosedHasAll(shards: seq<ShardMeta>, done: set<ShardId>, c: set<ShardId>, n: nat, s: ShardId)
    requires done <= c && CompletableIn(shards, done, n, s)
    requires forall m :: m in shards && (forall p :: p in m.parents ==> p in c) ==> m.id in c
    ensures s in c
    decreases n
  {
    if s !in done {
      var m :| m in shards && m.id == s && forall p :: p in m.parents ==> CompletableIn(shards, done, n - 1, p);
      forall p | p in m.parents ensures p in c {
        ClosedHasAll(shards, done, c, n - 1, p);
      }
    }
  }

  // ---- Why a shard cannot be completed -----------------------------------------------

  ghost predicate ParentOf(shards: seq<ShardMeta>, child: ShardId, p: ShardId) {
    exists m :: m in shards && m.id == child && p in m.parents
  }

  /** A walk from child to parent over incomplete shards. */
  ghost predicate Walk(shards: seq<ShardMeta>, done: set<ShardId>, path: seq<ShardId>) {
    && path != [] && (forall i :: 0 <= i < |path| ==> path[i] !in done)
    && forall i :: 0 < i < |path| ==> ParentOf(shards, path[i - 1], path[i])
  }

  ghost predicate Listed(shards: seq<ShardMeta>, s: ShardId) {
    exists m :: m in shards && m.id == s
  }

  /** The walk ends at a shard that is not listed, or runs into itself. */
  ghost predicate DeadEnd(shards: seq<ShardMeta>, path: seq<ShardId>)
    requires path != []
  {
    !Listed(shards, path[|path| - 1]) || path[|path| - 1] in path[..|path| - 1]
  }

  function Ids(shards: seq<ShardMeta>): set<ShardId> {
    set m | m in shards :: m.id
  }

  function Members(path: seq<ShardId>): set<ShardId> {
    set x | x in path
  }

  lemma WalkShrinks(shards: seq<ShardMeta>, path: seq<ShardId>, p: ShardId)
    requires Listed(shards, p) && p !in path
    ensures |Ids(shards) - Members(path + [p])| < |Ids(shards) - Members(path)|
  {
    var a, b := Ids(shards) - Members(path + [p]), Ids(shards) - Members(path);
    var q :| q in shards && q.id == p;
    assert p in b && p !in a && a <= b;
    assert b == a + (b - a) && b - a != {};
  }

  lemma {:induction false} WalkOn(shards: seq<ShardMeta>, done: set<ShardId>, path: seq<ShardId>) returns (full: seq<ShardId>)
    requires Walk(shards, done, path) && forall x :: x in path ==> !Completable(shards, done, x)
    requires forall i, j :: 0 <= i < j < |path| ==> path[i] != path[j]
    ensures Walk(shards, done, full) && full[0] == path[0] && DeadEnd(shards, full)
    decreases |Ids(shards) - Members(path)|
  {
    var last := path[|path| - 1];
    if !Listed(shards, last) {
      full := path;
    } else {
      var m :| m in shards && m.id == last;
      var p := StuckParent(shards, done, m);
      full := path + [p];
      assert ParentOf(shards, last, p);
      assert Walk(shards, done, full);
      if p in path {
        assert full[..|full| - 1] == path;
      } else if Listed(shards, p) {
        WalkShrinks(shards, path, p);
        full := WalkOn(shards, done, full);
      }
    }
  }

  lemma StuckParent(shards: seq<ShardMeta>, done: set<ShardId>, m: ShardMeta) returns (p: ShardId)
    requires m in shards && !Completable(shards, done, m.id)
    ensures p in m.parents && p !in done && !Completable(shards, done, p)
  {
    if forall p :: p in m.parents ==> Completable(shards, done, p) {
      ChildCompletable(shards, done, m);
      assert false;
    }
    p :| p in m.parents && !Completable(shards, done, p);
    DoneIsCompletable(shards, done, p);
  }

  /** The shards of a dead-end walk are a deadlock. */
  lemma WalkIsDeadlock(shards: seq<ShardMeta>, done: set<ShardId>, path: seq<ShardId>)
    requires DistinctIds(shards) && Walk(shards, done, path) && DeadEnd(shards, path)
    ensures Deadlock(shards, done, Members(path))
  {
    var b := Members(path);
    forall s, m | s in b && m in shards && m.id == s ensures exists p :: p in m.parents && p in b {
      var i :| 0 <= i < |path| && path[i] == s;
      var k: int := i;
      if i == |path| - 1 {
        k :| 0 <= k < |path| - 1 && path[..|path| - 1][k] == s;
      }
      assert ParentOf(shards, path[k], path[k + 1]);
      assert path[k + 1] in b;
    }
  }

  /**
   A shard can never be completed exactly when it hangs, through incomplete shards, on a
   missing parent or on a cycle.
   */
  lemma StuckExactly(shards: seq<ShardMeta>, done: set<ShardId>, s: ShardId)
    requires DistinctIds(shards)
    ensures !Completable(shards, done, s)
            <==> exists path :: Walk(shards, done, path) && path[0] == s && DeadEnd(shards, path)
  {
    if !Completable(shards, done, s) {
      DoneIsCompletable(shards, done, s);
      var path := WalkOn(shards, done, [s]);
    }
    if path :| Walk(shards, done, path) && path[0] == s && DeadEnd(shards, path) {
      WalkIsDeadlock(shards, done, path);
      forall n: nat ensures !CompletableIn(shards, done, n, s) {
        DeadlockStays(shards, done, Members(path), n, s);
      }
    }
  }

  // ---- The scheduler -----------------------------------------------------------------

  /** Each event of a shard comes after the end of every parent that this run completed. */
  ghost predicate ParentsFirst(shards: seq<ShardMeta>, done: set<ShardId>, events: seq<Event>) {
    forall i, m, p :: 0 <= i < |events| && m in shards && m.id == events[i].shard && p in m.parents ==>
      p in done || ShardEnded(p) in events[..i]
  }

  /** The records told of shard `s`: a gap-free, repeat-free cover of [from, to), in order. */
  ghost predicate InOrderOnce(events: seq<Event>, s: ShardId, from: nat, to: nat) {
    && from <= to
    && (forall i :: 0 <= i < |events| && RecordsOf(events[i], s) ==> from <= events[i].lo < events[i].hi <= to)
    && (forall i, j :: 0 <= i < j < |events| && RecordsOf(events[i], s) && RecordsOf(events[j], s) ==> events[i].hi <= events[j].lo)
    && (forall k :: from <= k < to ==> Told(events, s, k))
  }

  predicate RecordsOf(e: Event, s: ShardId) {
    e.Records? && e.shard == s
  }

  ghost predicate Told(events: seq<Event>, s: ShardId, k: int) {
    exists i :: 0 <= i < |events| && Tells(events[i], s, k)
  }

  predicate Tells(e: Event, s: ShardId, k: int) {
    e.Records? && e.shard == s && e.lo <= k < e.hi
  }

  lemma PushOther(events: seq<Event>, e: Event, s: ShardId, from: nat, to: nat)
    requires InOrderOnce(events, s, from, to) && !RecordsOf(e, s)
    ensures InOrderOnce(events + [e], s, from, to)
  {
    forall k | from <= k < to ensures Told(events + [e], s, k) {
      assert Told(events, s, k);
      var i :| 0 <= i < |events| && Tells(events[i], s, k);
      assert Tells((events + [e])[i], s, k);
    }
  }

  lemma PushRecords(events: seq<Event>, s: ShardId, from: nat, to: nat, count: nat)
    requires InOrderOnce(events, s, from, to) && count > 0
    ensures InOrderOnce(events + [Records(s, to, to + count)], s, from, to + count)
  {
    var after := events + [Records(s, to, to + count)];
    forall k | from <= k < to + count ensures Told(after, s, k) {
      if k < to {
        assert Told(events, s, k);
        var i :| 0 <= i < |events| && Tells(events[i], s, k);
        assert Tells(after[i], s, k);
      } else {
        assert Tells(after[|events|], s, k);
      }
    }
  }

  /** An event of a shard whose parents are all accounted for. */
  lemma PushParents(shards: seq<ShardMeta>, done: set<ShardId>, events: seq<Event>, e: Event, meta: ShardMeta)
    requires ParentsFirst(shards, done, events) && DistinctIds(shards) && meta in shards && meta.id == e.shard
    requires forall p :: p in meta.parents ==> p in done || ShardEnded(p) in events
    ensures ParentsFirst(shards, done, events + [e])
  {
    var after := events + [e];
    assert after[..|events|] == events;
    forall i, m, p | 0 <= i < |after| && m in shards && m.id == after[i].shard && p in m.parents
      ensures p in done || ShardEnded(p) in after[..i]
    {
      if i < |events| {
        assert after[..i] == events[..i] && after[i] == events[i];
      }
    }
  }

  class Scheduler {
    const shards: seq<ShardMeta>
    const logs: map<ShardId, nat>
    var complete: set<ShardId>
    var checkpoints: map<ShardId, nat>
    var cuts: seq<Cut>
    ghost const done: set<ShardId>
    ghost const begun: map<ShardId, nat>
    ghost var events: seq<Event>

    function Checkpoint(s: ShardId): nat
      reads this`checkpoints
    {
      if s in checkpoints then checkpoints[s] else 0
    }

    ghost function Begun(s: ShardId): nat {
      if s in begun then begun[s] else 0
    }

    ghost predicate LogsOk(metas: seq<ShardMeta>)
    {
      forall m :: m in metas ==> m.id in logs
    }

    /** What the run has told so far about one shard, and where its checkpoint is. */
    ghost predicate ShardOk(s: ShardId)
      reads this`events, this`complete, this`checkpoints
    {
      && (s in logs ==> Checkpoint(s) <= logs[s])
      && InOrderOnce(events, s, Begun(s), Checkpoint(s))
      && (ShardEnded(s) in events <==> s in complete && s !in done)
      && (s in complete && s !in done ==> s in logs && Checkpoint(s) == logs[s])
    }

    ghost predicate Valid()
      reads this`events, this`complete, this`checkpoints
    {
      && DistinctIds(shards) && LogsOk(shards) && done <= complete
      && (forall s :: s in complete ==> Completable(shards, done, s))
      && (forall s :: ShardOk(s))
      && ParentsFirst(shards, done, events)
    }

    constructor (shards: seq<ShardMeta>, logs: map<ShardId, nat>, complete: set<ShardId>,
                 checkpoints: map<ShardId, nat>, cuts: seq<Cut>)
      requires DistinctIds(shards)
      requires forall m :: m in shards ==> m.id in logs
      requires forall s :: s in checkpoints && s in logs ==> checkpoints[s] <= logs[s]
      ensures Valid() && events == [] && done == complete == this.complete && begun == checkpoints
      ensures this.shards == shards && this.logs == logs
    {
      this.shards, this.logs, this.complete := shards, logs, complete;
      this.checkpoints, this.cuts := checkpoints, cuts;
      done, begun, events := complete, checkpoints, [];
      new;
      forall s | s in complete ensures Completable(shards, done, s) {
        DoneIsCompletable(shards, done, s);
      }
    }

    predicate Eligible(meta: ShardMeta)
      reads this`complete
    {
      meta.id !in complete && forall p :: p in meta.parents ==> p in complete
    }

    /** One poll after the checkpoint: at least one record, or the end. */
    method GetRecords(s: ShardId, after: nat) returns (count: nat, end: bool)
      requires s in logs && after <= logs[s]
      modifies this`cuts
      ensures after + count <= logs[s] && (count == 0 ==> end) && (end ==> after + count == logs[s])
    {
      var cut := if cuts == [] then Cut(0, true) else cuts[0];
      cuts := if cuts == [] then [] else cuts[1..];
      count := Min(cut.size + 1, logs[s] - after);
      end := after + count == logs[s] && (count == 0 || cut.endsToo);
    }
  
    /** The record processor is told something about a shard whose parents are all complete. */
    lemma TellParents(meta: ShardMeta, e: Event)
      requires Valid() && meta in shards && meta.id == e.shard && Eligible(meta)
      ensures ParentsFirst(shards, done, events + [e])
    {
      forall p | p in meta.parents ensures p in done || ShardEnded(p) in events {
        assert ShardOk(p);
      }
      PushParents(shards, done, events, e, meta);
    }

    method Initialize(meta: ShardMeta)
      requires Valid() && meta in shards && Eligible(meta)
      modifies this`events
      ensures Valid() && events == old(events) + [Initialized(meta.id)]
    {
      TellParents(meta, Initialized(meta.id));
      ghost var was := events;
      events := events + [Initialized(meta.id)];
      forall s ensures ShardOk(s) {
        assert old(ShardOk(s));
        PushOther(was, Initialized(meta.id), s, Begun(s), Checkpoint(s));
      }
    }

    /** Deliver `count` records after the checkpoint and move the checkpoint to the last one. */
    method Process(meta: ShardMeta, count: nat)
      requires Valid() && meta in shards && Eligible(meta)
      requires count > 0 && Checkpoint(meta.id) + count <= logs[meta.id]
      modifies this`events, this`checkpoints
      ensures Valid() && Checkpoint(meta.id) == old(Checkpoint(meta.id)) + count
      ensures events == old(events) + [Records(meta.id, old(Checkpoint(meta.id)), Checkpoint(meta.id))]
    {
      var at := Checkpoint(meta.id);
      ghost var e, was := Records(meta.id, at, at + count), events;
      TellParents(meta, e);
      checkpoints := checkpoints[meta.id := at + count];
      events := events + [e];
      forall s ensures ShardOk(s) {
        assert old(ShardOk(s));
        if s == meta.id {
          PushRecords(was, s, Begun(s), at, count);
        } else {
          PushOther(was, e, s, Begun(s), Checkpoint(s));
        }
      }
    }

    method MarkComplete(meta: ShardMeta)
      requires Valid() && meta in shards && Eligible(meta) && Checkpoint(meta.id) == logs[meta.id]
      modifies this`events, this`complete
      ensures Valid() && complete == old(complete) + {meta.id}
      ensures events == old(events) + [ShardEnded(meta.id)]
    {
      ghost var e, was := ShardEnded(meta.id), events;
      TellParents(meta, e);
      ChildCompletable(shards, done, meta);
      complete := complete + {meta.id};
      events := events + [e];
      forall s ensures ShardOk(s) {
        assert old(ShardOk(s));
        PushOther(was, e, s, Begun(s), Checkpoint(s));
      }
    }

    /** Work one eligible shard to its end. */
    method Drain(meta: ShardMeta)
      requires Valid() && meta in shards && Eligible(meta)
      modifies this`events, this`complete, this`checkpoints, this`cuts
      ensures Valid() && complete == old(complete) + {meta.id}
      ensures old(events) + [Initialized(meta.id)] <= events && events[|events| - 1] == ShardEnded(meta.id)
      ensures forall e :: e in events[|old(events)|..] ==> e.shard == meta.id
    {
      hide ParentsFirst, InOrderOnce, DistinctIds;
      Initialize(meta);
      var end := false;
      while !end
        invariant Valid() && Eligible(meta) && complete == old(complete)
        invariant old(events) + [Initialized(meta.id)] <= events
        invariant forall e :: e in events[|old(events)|..] ==> e.shard == meta.id
        invariant end ==> Checkpoint(meta.id) == logs[meta.id]
        decreases logs[meta.id] - Checkpoint(meta.id), !end
      {
        assert ShardOk(meta.id);
        var count;
        count, end := GetRecords(meta.id, Checkpoint(meta.id));
        if count > 0 {
          Process(meta, count);
        }
      }
      MarkComplete(meta);
    }

    /** One round over the listed shards. */
    method Round() returns (progressed: bool)
      requires Valid()
      modifies this`events, this`complete, this`checkpoints, this`cuts
      ensures Valid() && old(complete) <= complete && old(events) <= events
      ensures progressed ==> exists s :: s in complete && s !in old(complete) && s in Ids(shards)
      ensures !progressed ==> complete == old(complete) && forall m :: m in shards ==> !Eligible(m)
    {
      hide ParentsFirst, ShardOk, DistinctIds, Completable;
      progressed := false;
      for i := 0 to |shards|
        invariant Valid() && old(complete) <= complete && old(events) <= events
        invariant progressed ==> exists s :: s in complete && s !in old(complete) && s in Ids(shards)
        invariant !progressed ==> complete == old(complete) && forall j :: 0 <= j < i ==> !Eligible(shards[j])
      {
        if Eligible(shards[i]) {
          progressed := true;
          Drain(shards[i]);
          assert shards[i].id in Ids(shards);
        }
      }
    }

    /**
     Drain all shards in dependency order. It ends with exactly the completable shards
     complete, and what it told follows the order invariants of `Valid`.
     */
    method Run()
      requires Valid()
      modifies this`events, this`complete, this`checkpoints, this`cuts
      ensures Valid() && old(events) <= events
      ensures forall m :: m in shards ==> (m.id in complete <==> Completable(shards, done, m.id))
    {
      hide ParentsFirst, ShardOk, DistinctIds, CompletableIn;
      while exists m :: m in shards && m.id !in complete
        invariant Valid() && old(events) <= events
        decreases Ids(shards) - complete
      {
        var progressed := Round();
        if !progressed {
          break;
        }
      }
      forall m | m in shards && Completable(shards, done, m.id) ensures m.id in complete {
        var n: nat :| CompletableIn(shards, done, n, m.id);
        if exists q :: q in shards && q.id !in complete {
          assert forall q :: q in shards ==> !Eligible(q);
          ClosedHasAll(shards, done, complete, n, m.id);
        }
      }
    }
  }

  /** What a finished run has told: every completed shard whole, once, in order; the others as far as they were. */
  lemma RunTellsAll(run: Scheduler, s: ShardId, k: nat)
    requires run.Valid() && s in run.complete && s !in run.done && run.Begun(s) <= k < run.logs[s]
    ensures Told(run.events, s, k) && ShardEnded(s) in run.events
    ensures ParentsFirst(run.shards, run.done, run.events)
    ensures forall i, j :: 0 <= i < j < |run.events| && Tells(run.events[i], s, k) ==> !Tells(run.events[j], s, k)
  {
    assert run.ShardOk(s);
  }
}
