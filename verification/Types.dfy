/** Names shared by every module of the model. */
module Types {
  datatype Option<+T> = None | Some(value: T)

  /** Worker names. Only equality matters. */
  type Worker = nat

  /** Shard ids. Only equality and one fixed total order (the string order of the ids) matter. */
  type ShardId = nat

  /** The three kinds of rows that share the lease table. */
  datatype Key =
    | ShardKey(id: ShardId)
    | LeaderKey
    | HeartbeatKey(worker: Worker)

  /** The order of the row keys as strings: heartbeats, the sentinel, then shard ids. */
  predicate Precedes(a: Key, b: Key) {
    match (a, b)
    case (HeartbeatKey(v), HeartbeatKey(w)) => v <= w
    case (HeartbeatKey(_), _) => true
    case (LeaderKey, HeartbeatKey(_)) => false
    case (LeaderKey, _) => true
    case (ShardKey(s), ShardKey(t)) => s <= t
    case (ShardKey(_), _) => false
  }

  /** It is an order in which no two keys tie. */
  lemma KeysAreOrdered(a: Key, b: Key, c: Key)
    ensures Precedes(a, b) || Precedes(b, a)
    ensures Precedes(a, b) && Precedes(b, a) ==> a == b
    ensures Precedes(a, b) && Precedes(b, c) ==> Precedes(a, c)
  {
  }

  /** Shard lineage as discovery reports it. */
  datatype ShardMeta = ShardMeta(id: ShardId, parents: seq<ShardId>)

  function Max(a: nat, b: nat): nat {
    if a < b then b else a
  }

  function Min(a: nat, b: nat): nat {
    if a < b then a else b
  }

  /** What is left of `s` after its first `n` elements. */
  function Later<T>(s: seq<T>, n: nat): seq<T> {
    if n <= |s| then s[n..] else []
  }

  lemma LaterNone<T>(s: seq<T>)
    ensures Later(s, 0) == s
  {
  }

  lemma LaterLater<T>(s: seq<T>, n: nat, m: nat)
    ensures Later(Later(s, n), m) == Later(s, n + m)
  {
  }

  /** The elements of `s` that satisfy `p`, in order. */
  function Filter<T>(s: seq<T>, p: T -> bool): (r: seq<T>) {
    if s == [] then []
    else
      var last := s[|s| - 1];
      Filter(s[..|s| - 1], p) + if p(last) then [last] else []
  }

  lemma FilterStep<T>(s: seq<T>, i: nat, p: T -> bool)
    requires i < |s|
    ensures Filter(s[..i + 1], p) == Filter(s[..i], p) + if p(s[i]) then [s[i]] else []
  {
    assert s[..i + 1][..i] == s[..i];
  }

  lemma {:induction false} FilterMembers<T>(s: seq<T>, p: T -> bool)
    ensures forall x :: x in Filter(s, p) <==> x in s && p(x)
    decreases |s|
  {
    if s != [] {
      FilterMembers(s[..|s| - 1], p);
      assert s == s[..|s| - 1] + [s[|s| - 1]];
    }
  }
}
