/**
 The lease table: rows and the conditional writes on them.

 A checkpoint is the number of records of the shard's log that it covers, so 0 is
 "no checkpoint" (start at TRIM_HORIZON) and k + 1 is "after the record at position k".
 */
module LeaseTable {
  import opened Types

  datatype Row = Row(
    owner: Option<Worker>,
    counter: nat,
    checkpoint: nat,
    completed: bool,
    parents: seq<ShardId>)

  /** The optimistic lock: the condition of renew, checkpoint, mark_complete and release. */
  predicate Held<K>(rows: map<K, Row>, key: K, worker: Worker, counter: nat) {
    key in rows && rows[key].owner == Some(worker) && rows[key].counter == counter
  }

  /** A leader publishes a shard as an unowned row; an existing row is left alone. */
  function Published<K>(rows: map<K, Row>, key: K, parents: seq<ShardId>, checkpoint: nat): map<K, Row> {
    if key in rows then rows else rows[key := Row(None, 0, checkpoint, false, parents)]
  }

  /** The create half of acquire, and the vacant bid for leadership. */
  function CreatedOwned<K>(rows: map<K, Row>, key: K, worker: Worker): map<K, Row> {
    if key in rows then rows else rows[key := Row(Some(worker), 1, 0, false, [])]
  }

  /** Take a row over from anyone, on condition that its counter is still the one seen. */
  function Claimed<K>(rows: map<K, Row>, key: K, worker: Worker, seen: nat): map<K, Row> {
    if key in rows && rows[key].counter == seen then
      rows[key := rows[key].(owner := Some(worker), counter := seen + 1)]
    else rows
  }

  function Renewed<K>(rows: map<K, Row>, key: K, worker: Worker, counter: nat): map<K, Row> {
    if Held(rows, key, worker, counter) then rows[key := rows[key].(counter := counter + 1)] else rows
  }

  function Checkpointed<K>(rows: map<K, Row>, key: K, worker: Worker, counter: nat, checkpoint: nat): map<K, Row> {
    if Held(rows, key, worker, counter) then
      rows[key := rows[key].(checkpoint := checkpoint, counter := counter + 1)]
    else rows
  }

  function MarkedComplete<K>(rows: map<K, Row>, key: K, worker: Worker, counter: nat): map<K, Row> {
    if Held(rows, key, worker, counter) then rows[key := rows[key].(completed := true)] else rows
  }

  function Released<K>(rows: map<K, Row>, key: K, worker: Worker, counter: nat): map<K, Row> {
    if Held(rows, key, worker, counter) then
      rows[key := rows[key].(owner := None, counter := counter + 1)]
    else rows
  }

  /** Only a row that is still marked complete is ever removed. */
  function Deleted<K>(rows: map<K, Row>, key: K): map<K, Row> {
    if key in rows && rows[key].completed then rows - {key} else rows
  }

  /** A heartbeat creates its row at counter 1 or bumps it. */
  function Beaten(rows: map<Key, Row>, worker: Worker): map<Key, Row> {
    var key := HeartbeatKey(worker);
    if key in rows then rows[key := rows[key].(owner := Some(worker), counter := rows[key].counter + 1)]
    else rows[key := Row(Some(worker), 1, 0, false, [])]
  }

  datatype Item = Item(key: Key, row: Row)

  /** A scan: every row once, in some order. */
  ghost predicate ScanOf(items: seq<Item>, rows: map<Key, Row>) {
    && (forall i, j :: 0 <= i < j < |items| ==> items[i].key != items[j].key)
    && (forall x :: x in items ==> x.key in rows && rows[x.key] == x.row)
    && (forall k :: k in rows ==> exists x :: x in items && x.key == k)
  }
}
