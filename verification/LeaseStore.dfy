/**
 The lease store: one conditional write per operation, on rows keyed by shard, sentinel or
 heartbeat. A lost condition is `None` or false; store outages are not part of this module.
 */
module LeaseStore {
  import opened Types
  import opened LeaseTable

  /** What other workers do to the rows between two calls. */
  type Interference = map<Key, Row> -> map<Key, Row>

  function Undisturbed(rows: map<Key, Row>): map<Key, Row> {
    rows
  }

  class LeaseStore {
    var rows: map<Key, Row>

    constructor ()
      ensures rows == map[]
    {
      rows := map[];
    }

    /**
     Create the row at counter 1 and hold it; or, if it is there, read its counter and claim
     it on that. Others may do anything to the rows after the failed create and again after
     the read; a row gone by the read, or written after it, makes the call fail.
     */
    method Acquire(key: Key, owner: Worker, beforeRead: Interference, beforeClaim: Interference)
      returns (counter: Option<nat>)
      modifies this
      ensures key !in old(rows) ==> rows == CreatedOwned(old(rows), key, owner) && counter == Some(1)
      ensures key !in old(rows) ==> rows == old(rows)[key := Row(Some(owner), 1, 0, false, [])]
      ensures key in old(rows) && key !in beforeRead(old(rows)) ==> rows == beforeRead(old(rows)) && counter.None?
      ensures key in old(rows) && key in beforeRead(old(rows)) ==>
        var seen, there := beforeRead(old(rows))[key].counter, beforeClaim(beforeRead(old(rows)));
        && rows == Claimed(there, key, owner, seen)
        && (counter == if key in there && there[key].counter == seen then Some(seen + 1) else None)
      ensures counter.Some? ==> key in rows && rows[key].owner == Some(owner) && rows[key].counter == counter.value
    {
      if key !in rows {
        rows := rows[key := Row(Some(owner), 1, 0, false, [])];
        return Some(1);
      }
      rows := beforeRead(rows);
      if key !in rows {
        return None;
      }
      var current := rows[key].counter;
      rows := beforeClaim(rows);
      counter := Claim(key, owner, current);
    }

    method Claim(key: Key, owner: Worker, seen: nat) returns (counter: Option<nat>)
      modifies this
      ensures rows == Claimed(old(rows), key, owner, seen)
      ensures counter == if key in old(rows) && old(rows)[key].counter == seen then Some(seen + 1) else None
      ensures counter.None? ==> rows == old(rows)
      ensures counter.Some? ==> rows == old(rows)[key := old(rows)[key].(owner := Some(owner), counter := counter.value)]
    {
      if key !in rows || rows[key].counter != seen {
        return None;
      }
      rows := rows[key := rows[key].(owner := Some(owner), counter := rows[key].counter + 1)];
      counter := Some(seen + 1);
    }

    method Renew(key: Key, owner: Worker, counter: nat) returns (next: Option<nat>)
      modifies this
      ensures rows == Renewed(old(rows), key, owner, counter)
      ensures next == if Held(old(rows), key, owner, counter) then Some(counter + 1) else None
      ensures next.Some? <==> key in old(rows) && old(rows)[key].owner == Some(owner) && old(rows)[key].counter == counter
      ensures next.None? ==> rows == old(rows)
      ensures next.Some? ==> rows == old(rows)[key := old(rows)[key].(counter := next.value)]
    {
      if !Held(rows, key, owner, counter) {
        return None;
      }
      rows := rows[key := rows[key].(counter := rows[key].counter + 1)];
      next := Some(counter + 1);
    }

    method Checkpoint(key: Key, owner: Worker, counter: nat, checkpoint: nat) returns (next: Option<nat>)
      modifies this
      ensures rows == Checkpointed(old(rows), key, owner, counter, checkpoint)
      ensures next == if Held(old(rows), key, owner, counter) then Some(counter + 1) else None
      ensures next.Some? <==> key in old(rows) && old(rows)[key].owner == Some(owner) && old(rows)[key].counter == counter
      ensures next.None? ==> rows == old(rows)
      ensures next.Some? ==> rows == old(rows)[key := old(rows)[key].(checkpoint := checkpoint, counter := next.value)]
    {
      if !Held(rows, key, owner, counter) {
        return None;
      }
      rows := rows[key := rows[key].(checkpoint := checkpoint, counter := rows[key].counter + 1)];
      next := Some(counter + 1);
    }

    /** Unconditional: a worker's heartbeat row is its own. */
    method Heartbeat(worker: Worker) returns (counter: nat)
      modifies this
      ensures rows == Beaten(old(rows), worker)
      ensures counter == (if HeartbeatKey(worker) in old(rows) then old(rows)[HeartbeatKey(worker)].counter else 0) + 1
      ensures HeartbeatKey(worker) in old(rows) ==>
        rows == old(rows)[HeartbeatKey(worker) := old(rows)[HeartbeatKey(worker)].(owner := Some(worker), counter := counter)]
      ensures HeartbeatKey(worker) !in old(rows) ==>
        rows == old(rows)[HeartbeatKey(worker) := Row(Some(worker), counter, 0, false, [])]
    {
      var key := HeartbeatKey(worker);
      counter := (if key in rows then rows[key].counter else 0) + 1;
      if key in rows {
        rows := rows[key := rows[key].(owner := Some(worker), counter := counter)];
      } else {
        rows := rows[key := Row(Some(worker), counter, 0, false, [])];
      }
    }

    method MarkComplete(key: Key, owner: Worker, counter: nat) returns (ok: bool)
      modifies this
      ensures rows == MarkedComplete(old(rows), key, owner, counter)
      ensures ok == Held(old(rows), key, owner, counter)
      ensures rows == if ok then old(rows)[key := old(rows)[key].(completed := true)] else old(rows)
    {
      ok := Held(rows, key, owner, counter);
      if ok {
        rows := rows[key := rows[key].(completed := true)];
      }
    }

    method DeleteLease(key: Key) returns (ok: bool)
      modifies this
      ensures rows == Deleted(old(rows), key)
      ensures ok == (key in old(rows) && old(rows)[key].completed)
      ensures rows == if ok then old(rows) - {key} else old(rows)
    {
      ok := key in rows && rows[key].completed;
      if ok {
        rows := rows - {key};
      }
    }

    method Release(key: Key, owner: Worker, counter: nat) returns (ok: bool)
      modifies this
      ensures rows == Released(old(rows), key, owner, counter)
      ensures ok == Held(old(rows), key, owner, counter)
      ensures rows == if ok then old(rows)[key := old(rows)[key].(owner := None, counter := counter + 1)] else old(rows)
    {
      ok := Held(rows, key, owner, counter);
      if ok {
        rows := rows[key := rows[key].(owner := None, counter := rows[key].counter + 1)];
      }
    }

    method CreateShardLease(key: Key, parents: seq<ShardId>, checkpoint: nat)
      modifies this
      ensures rows == Published(old(rows), key, parents, checkpoint)
      ensures rows == if key in old(rows) then old(rows) else old(rows)[key := Row(None, 0, checkpoint, false, parents)]
    {
      if key !in rows {
        rows := rows[key := Row(None, 0, checkpoint, false, parents)];
      }
    }

    /** A bid for leadership: create if absent, or steal on the counter the bidder saw. */
    method TryAcquireLeadership(owner: Worker, expected: Option<nat>) returns (counter: Option<nat>)
      modifies this
      ensures expected.None? ==> rows == CreatedOwned(old(rows), LeaderKey, owner)
      ensures expected.None? ==> counter == if LeaderKey in old(rows) then None else Some(1)
      ensures expected.Some? ==> rows == Claimed(old(rows), LeaderKey, owner, expected.value)
      ensures counter.Some? ==> LeaderKey in rows && rows[LeaderKey].owner == Some(owner) && rows[LeaderKey].counter == counter.value
      ensures counter.None? ==> rows == old(rows)
      ensures expected.Some? ==>
        (counter == if LeaderKey in old(rows) && old(rows)[LeaderKey].counter == expected.value
                    then Some(expected.value + 1) else None)
    {
      match expected
      case None =>
        if LeaderKey in rows {
          return None;
        }
        rows := rows[LeaderKey := Row(Some(owner), 1, 0, false, [])];
        counter := Some(1);
      case Some(c) =>
        counter := Claim(LeaderKey, owner, c);
    }
  
    /** A consistent scan: every row once, in some order. */
    method List() returns (items: seq<Item>)
      ensures ScanOf(items, rows)
    {
      items := [];
      var left := rows.Keys;
      while left != {}
        invariant left <= rows.Keys
        invariant forall i, j :: 0 <= i < j < |items| ==> items[i].key != items[j].key
        invariant forall x :: x in items ==> x.key in rows && x.key !in left && rows[x.key] == x.row
        invariant forall k :: k in rows && k !in left ==> exists x :: x in items && x.key == k
        decreases |left|
      {
        var k :| k in left;
        ghost var before := items;
        items := items + [Item(k, rows[k])];
        left := left - {k};
        forall j | j in rows && j !in left ensures exists x :: x in items && x.key == j {
          if j == k {
            assert Item(k, rows[k]) in items;
          } else {
            var x :| x in before && x.key == j;
            assert x in items;
          }
        }
      }
    }
  }
}
