/**
 Deferred checkpoints: acked progress held in memory per shard, persisted at most once per
 interval. The history says when each shard was last touched and when it fell due.
 */
module CkptDefer {
  import opened Types

  datatype PendingCkpt = PendingCkpt(ack: Option<nat>, lastPersist: nat)

  /** Each moment lies at least `interval` after the one before. */
  ghost predicate Spaced(times: seq<nat>, interval: nat) {
    forall i :: 0 < i < |times| ==> times[i - 1] + interval <= times[i]
  }

  function Last(times: seq<nat>): nat {
    if times == [] then 0 else times[|times| - 1]
  }

  /**
   One shard's record: dues an interval apart, none later than the clock, and the moment
   remembered as the last write no earlier than the last due (unless that is being written).
   */
  ghost predicate Paced(persisted: Option<nat>, dues: seq<nat>, clock: nat, writing: bool, interval: nat) {
    && Spaced(dues, interval) && Last(dues) <= clock
    && (persisted.Some? ==> persisted.value <= clock)
    && (persisted.Some? && !writing ==> Last(dues) <= persisted.value)
    && (writing ==> persisted.Some? && Last(dues) == clock)
  }

  lemma DueKeepsPace(persisted: nat, dues: seq<nat>, clock: nat, interval: nat, now: nat)
    requires Paced(Some(persisted), dues, clock, false, interval) && clock <= now && persisted + interval <= now
    ensures Paced(Some(persisted), dues + [now], now, true, interval)
  {
  }

  function Acks(state: map<ShardId, PendingCkpt>): map<ShardId, nat> {
    map s | s in state && state[s].ack.Some? :: state[s].ack.value
  }

  lemma AckRecorded(state: map<ShardId, PendingCkpt>, s: ShardId, ack: nat, at: nat)
    ensures Acks(state[s := PendingCkpt(Some(ack), at)]) == Acks(state)[s := ack]
  {
  }

  class CkptDefer {
    const interval: nat
    var state: map<ShardId, PendingCkpt>
    // History: when each shard fell due, the latest clock reading used for it, and the
    // shards whose last due ack is still being written.
    ghost var dues: map<ShardId, seq<nat>>
    ghost var clock: map<ShardId, nat>
    ghost var writing: set<ShardId>

    ghost function Dues(s: ShardId): seq<nat>
      reads this
    {
      if s in dues then dues[s] else []
    }

    ghost function Clock(s: ShardId): nat
      reads this
    {
      if s in clock then clock[s] else 0
    }

    ghost predicate ValidFor(s: ShardId)
      reads this
    {
      Paced(if s in state then Some(state[s].lastPersist) else None, Dues(s), Clock(s), s in writing, interval)
    }

    ghost predicate Valid()
      reads this
    {
      interval >= 1 && forall s :: ValidFor(s)
    }

    /** The acks not yet durable. */
    ghost function Pending(): map<ShardId, nat>
      reads this
    {
      Acks(state)
    }

    constructor (interval: nat)
      requires interval >= 1
      ensures Valid() && Pending() == map[] && writing == {} && dues == map[]
      ensures this.interval == interval
    {
      this.interval, state := interval, map[];
      dues, clock, writing := map[], map[], {};
    }

    /** Record an ack; it is returned if it must be persisted now. */
    method RecordAck(shard: ShardId, ack: nat, now: nat) returns (due: Option<nat>)
      requires Valid() && shard !in writing && Clock(shard) <= now
      modifies this
      ensures Valid() && Clock(shard) == now
      ensures Pending() == old(Pending())[shard := ack]
      ensures state == old(state)[shard :=
        PendingCkpt(Some(ack), if shard in old(state) then old(state)[shard].lastPersist else now)]
      ensures due.Some? <==> now >= state[shard].lastPersist + interval
      ensures due.Some? ==> due == Some(ack) && Dues(shard) == old(Dues(shard)) + [now] && writing == old(writing) + {shard}
      ensures due.None? ==> Dues(shard) == old(Dues(shard)) && writing == old(writing)
      ensures forall s :: s != shard ==> Dues(s) == old(Dues(s)) && Clock(s) == old(Clock(s))
    {
      assert ValidFor(shard);
      var e := if shard in state then state[shard] else PendingCkpt(None, now);
      state := state[shard := e.(ack := Some(ack))];
      clock := clock[shard := now];
      if now - e.lastPersist >= interval {
        DueKeepsPace(e.lastPersist, Dues(shard), now, interval, now);
        dues := dues[shard := Dues(shard) + [now]];
        writing := writing + {shard};
        due := Some(ack);
      } else {
        due := None;
      }
      assert ValidFor(shard);
      hide Paced, Acks;
      AckRecorded(old(state), shard, ack, e.lastPersist);
      forall s | s != shard ensures ValidFor(s) {
        assert old(ValidFor(s));
      }
    }

    /** The pending ack was written; `now` is the moment it fell due. */
    method Persisted(shard: ShardId, now: nat)
      requires Valid() && now == Clock(shard)
      modifies this
      ensures Valid() && dues == old(dues) && clock == old(clock)
      ensures Pending() == old(Pending()) - {shard} && writing == old(writing) - {shard}
      ensures state == if shard in old(state) then old(state)[shard := PendingCkpt(None, now)] else old(state)
    {
      if shard in state {
        state := state[shard := PendingCkpt(None, now)];
      }
      writing := writing - {shard};
      forall s ensures ValidFor(s) {
        assert old(ValidFor(s));
      }
    }

    /** Take the pending ack for a mandatory flush. */
    method TakePending(shard: ShardId) returns (ack: Option<nat>)
      requires Valid()
      modifies this
      ensures Valid() && dues == old(dues) && clock == old(clock) && writing == old(writing)
      ensures Pending() == old(Pending()) - {shard}
      ensures ack == if shard in old(Pending()) then Some(old(Pending())[shard]) else None
      ensures state.Keys == old(state).Keys && forall s :: s in state ==> state[s].lastPersist == old(state)[s].lastPersist
    {
      ack := None;
      if shard in state {
        ack := state[shard].ack;
        state := state[shard := state[shard].(ack := None)];
      }
      forall s ensures ValidFor(s) {
        assert old(ValidFor(s));
      }
    }

    /** Where a pass must resume, if an ack is pending. */
    method ResumeFrom(shard: ShardId) returns (ack: Option<nat>)
      requires Valid()
      ensures ack == if shard in Pending() then Some(Pending()[shard]) else None
    {
      ack := if shard in state then state[shard].ack else None;
    }

    /** The shard ended or its lease is lost. */
    method Forget(shard: ShardId)
      requires Valid()
      modifies this
      ensures Valid() && dues == old(dues) && clock == old(clock)
      ensures Pending() == old(Pending()) - {shard} && writing == old(writing) - {shard}
      ensures state == old(state) - {shard}
    {
      state := state - {shard};
      writing := writing - {shard};
      forall s ensures ValidFor(s) {
        assert old(ValidFor(s));
      }
    }

    /** Keep only the shards still owned, between two cycles. */
    method Prune(owned: set<ShardId>)
      requires Valid() && writing == {}
      modifies this
      ensures Valid() && dues == old(dues) && clock == old(clock) && writing == {}
      ensures Pending() == map s | s in old(Pending()) && s in owned :: old(Pending())[s]
      ensures state == map s | s in old(state) && s in owned :: old(state)[s]
    {
      state := map s | s in state && s in owned :: state[s];
      forall s ensures ValidFor(s) {
        assert old(ValidFor(s));
      }
    }
  }

  /** Of two due moments, the later is at least one interval per step after the earlier. */
  lemma {:induction false} SpacedApart(times: seq<nat>, interval: nat, i: nat, j: nat)
    requires Spaced(times, interval) && i <= j < |times|
    ensures times[i] + (j - i) * interval <= times[j]
    decreases j
  {
    if i < j {
      SpacedApart(times, interval, i, j - 1);
      assert (j - i) * interval == (j - 1 - i) * interval + interval;
    }
  }

  /**
   Over any history of calls, a shard forgotten and seen again included, the writes that the
   interval triggers are at least an interval apart: a window of length `w` holds at most
   `w / interval + 1` of them.
   */
  lemma FewWritesInWindow(defer: CkptDefer, s: ShardId, i: nat, j: nat, w: nat)
    requires defer.Valid() && i <= j < |defer.Dues(s)| && defer.Dues(s)[j] - defer.Dues(s)[i] <= w
    ensures j - i + 1 <= w / defer.interval + 1
  {
    assert defer.ValidFor(s);
    SpacedApart(defer.Dues(s), defer.interval, i, j);
    DivBound(j - i, defer.interval, w);
  }

  lemma DivBound(n: nat, d: nat, w: nat)
    requires d >= 1 && n * d <= w
    ensures n <= w / d
  {
    if n > w / d {
      assert n * d >= (w / d + 1) * d by {
        MulUp(w / d + 1, n, d);
      }
    }
  }

  lemma MulUp(a: nat, b: nat, d: nat)
    requires a <= b
    ensures a * d <= b * d
  {
    assert b * d == a * d + (b - a) * d;
  }
}
