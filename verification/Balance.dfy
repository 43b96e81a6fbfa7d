/**
 What the taker's decisions add up to: every non-empty take makes progress, so rebalancing
 ends, and where it ends every lease is held and nobody holds more than a fair share.
 */
module Balance {
  import opened Types
  import opened Taker

  /** The active leases and their live holders; None means unowned or held by a dead worker. */
  type Alloc = map<Key, Option<Worker>>

  function Mine(m: Alloc, w: Worker): set<Key> {
    set k | k in m && m[k] == Some(w)
  }

  function Free(m: Alloc): set<Key> {
    set k | k in m && m[k] == None
  }

  function Owners(m: Alloc): set<Worker> {
    set k | k in m && m[k].Some? :: m[k].value
  }

  function Hold(m: Alloc, w: Worker): nat {
    |Mine(m, w)|
  }

  function Share(m: Alloc, me: Worker): nat {
    CeilDiv(|m|, |Owners(m) + {me}|)
  }

  /** The allocation once `me` took every key of `t`. */
  function Given(m: Alloc, me: Worker, t: set<Key>): Alloc {
    map k | k in m :: if k in t then Some(me) else m[k]
  }

  // ---- A decision, as a set of keys --------------------------------------------------

  /** `t` also takes from `v`: all free leases, and no more of `v`'s than its surplus. */
  ghost predicate StealsFrom(m: Alloc, me: Worker, v: Worker, t: set<Key>) {
    && v != me && v in Owners(m) && Hold(m, v) > Share(m, me)
    && (forall u :: u in Owners(m) && u != me ==> Hold(m, u) <= Hold(m, v))
    && Free(m) <= t && t <= Free(m) + Mine(m, v)
    && |t * Mine(m, v)| <= Hold(m, v) - Share(m, me)
  }

  ghost predicate TakeOk(m: Alloc, me: Worker, max: nat, t: set<Key>) {
    && |t| <= max
    && (t != {} ==> Hold(m, me) + |t| <= Share(m, me))
    && (t <= Free(m) || exists v :: StealsFrom(m, me, v, t))
    && (t == {} ==>
         || m == map[] || max == 0 || Hold(m, me) >= Share(m, me)
         || (Free(m) == {} && forall u :: u in Owners(m) && u != me ==> Hold(m, u) <= Share(m, me)))
  }

  // ---- From rows to allocations ------------------------------------------------------

  ghost predicate DistinctKeys(s: seq<Snapshot>) {
    forall i, j :: 0 <= i < j < |s| ==> s[i].key != s[j].key
  }

  function KeySet(s: seq<Snapshot>): set<Key> {
    set l | l in s :: l.key
  }

  function AllocOf(active: seq<Snapshot>): Alloc {
    map l | l in active :: l.key := Holder(active, l.key)
  }

  /** The live holder of the row with key `k`, if any. */
  function Holder(active: seq<Snapshot>, k: Key): Option<Worker> {
    if active == [] then None
    else
      var l := active[|active| - 1];
      if l.key == k then (if l.expired then None else l.owner) else Holder(active[..|active| - 1], k)
  }

  lemma {:induction false} HolderOf(active: seq<Snapshot>, l: Snapshot)
    requires DistinctKeys(active) && l in active
    ensures Holder(active, l.key) == if l.expired then None else l.owner
    decreases |active|
  {
    var rest := active[..|active| - 1];
    assert active == rest + [active[|active| - 1]];
    if l in rest {
      HolderOf(rest, l);
    }
  }

  lemma {:induction false} KeySetSize(s: seq<Snapshot>)
    requires DistinctKeys(s)
    ensures |KeySet(s)| == |s|
    decreases |s|
  {
    if s != [] {
      var rest, l := s[..|s| - 1], s[|s| - 1];
      assert s == rest + [l];
      KeySetSize(rest);
      assert KeySet(s) == KeySet(rest) + {l.key};
      assert l.key !in KeySet(rest);
    }
  }

  lemma {:induction false} FilterDistinct(s: seq<Snapshot>, p: Snapshot -> bool)
    requires DistinctKeys(s)
    ensures DistinctKeys(Filter(s, p))
    decreases |s|
  {
    if s != [] {
      var rest := s[..|s| - 1];
      FilterDistinct(rest, p);
      FilterMembers(rest, p);
      var f := Filter(rest, p);
      forall i | 0 <= i < |f| ensures f[i].key != s[|s| - 1].key {
        assert f[i] in rest;
      }
    }
  }

  /** Filtering rows and counting is the same as collecting keys and counting. */
  lemma FilterKeys(active: seq<Snapshot>, p: Snapshot -> bool, keys: set<Key>)
    requires DistinctKeys(active)
    requires forall l :: l in active ==> (p(l) <==> l.key in keys)
    requires keys <= KeySet(active)
    ensures KeySet(Filter(active, p)) == keys && |Filter(active, p)| == |keys|
    ensures DistinctKeys(Filter(active, p))
  {
    FilterMembers(active, p);
    FilterDistinct(active, p);
    KeySetSize(Filter(active, p));
    forall k | k in keys ensures k in KeySet(Filter(active, p)) {
      var l :| l in active && l.key == k;
    }
  }

  lemma AllocFacts(active: seq<Snapshot>, me: Worker)
    requires DistinctKeys(active)
    requires forall l :: l in active && l.owner == Some(me) ==> !l.expired
    ensures var m := AllocOf(active);
            && m.Keys == KeySet(active) && |m| == |active|
            && (forall w :: KeySet(Held(active, w)) == Mine(m, w) && Holds(active, w) == Hold(m, w))
            && (forall w :: DistinctKeys(Held(active, w)))
            && LiveOwners(active) == Owners(m)
            && KeySet(Filter(active, AvailableTo(me))) == Free(m)
            && |Filter(active, AvailableTo(me))| == |Free(m)|
            && DistinctKeys(Filter(active, AvailableTo(me)))
  {
    var m := AllocOf(active);
    forall l | l in active ensures l.key in m && m[l.key] == (if l.expired then None else l.owner) {
      HolderOf(active, l);
    }
    KeySetSize(active);
    assert |m| == |m.Keys|;
    forall w ensures KeySet(Held(active, w)) == Mine(m, w) && Holds(active, w) == Hold(m, w)
    ensures DistinctKeys(Held(active, w)) {
      FilterKeys(active, LiveFor(w), Mine(m, w));
    }
    FilterKeys(active, AvailableTo(me), Free(m));
    assert LiveOwners(active) == Owners(m) by {
      forall w | w in Owners(m) ensures w in LiveOwners(active) {
        var k :| k in m && m[k] == Some(w);
        var l :| l in active && l.key == k;
      }
      forall w | w in LiveOwners(active) ensures w in Owners(m) {
        var l :| l in active && !l.expired && l.owner == Some(w);
        assert m[l.key] == Some(w);
      }
    }
  }

  lemma DistinctPush(s: seq<Snapshot>, l: Snapshot)
    requires DistinctKeys(s) && l.key !in KeySet(s)
    ensures DistinctKeys(s + [l]) && KeySet(s + [l]) == KeySet(s) + {l.key}
  {
    forall i | 0 <= i < |s| ensures s[i].key in KeySet(s) {
      assert s[i] in s;
    }
  }

  lemma DistinctFront(s: seq<Snapshot>)
    requires DistinctKeys(s) && s != []
    ensures DistinctKeys(s[..|s| - 1]) && s[|s| - 1].key !in KeySet(s[..|s| - 1])
    ensures KeySet(s) == KeySet(s[..|s| - 1]) + {s[|s| - 1].key}
  {
    assert s == s[..|s| - 1] + [s[|s| - 1]];
  }

  lemma {:induction false} InsertKeys(s: seq<Snapshot>, l: Snapshot)
    requires DistinctKeys(s) && l.key !in KeySet(s)
    ensures DistinctKeys(Insert(s, l)) && KeySet(Insert(s, l)) == KeySet(s) + {l.key}
    decreases |s|
  {
    if s == [] || Precedes(s[|s| - 1].key, l.key) {
      DistinctPush(s, l);
    } else {
      DistinctFront(s);
      InsertKeys(s[..|s| - 1], l);
      DistinctPush(Insert(s[..|s| - 1], l), s[|s| - 1]);
    }
  }

  /** Sorting keeps the rows, so it keeps their keys. */
  lemma {:induction false} SortKeys(s: seq<Snapshot>)
    requires DistinctKeys(s)
    ensures DistinctKeys(Sort(s)) && KeySet(Sort(s)) == KeySet(s)
    decreases |s|
  {
    if s != [] {
      DistinctFront(s);
      SortKeys(s[..|s| - 1]);
      InsertKeys(Sort(s[..|s| - 1]), s[|s| - 1]);
    }
  }

  lemma KeysAreKeySet(r: seq<Snapshot>)
    ensures (set k | k in Keys(r)) == KeySet(r)
  {
    forall k | k in Keys(r) ensures k in KeySet(r) {
      var i :| 0 <= i < |r| && Keys(r)[i] == k;
      assert r[i] in r;
    }
    forall l | l in r ensures l.key in Keys(r) {
      var i :| 0 <= i < |r| && r[i] == l;
      assert Keys(r)[i] == l.key;
    }
  }

  function TakenSet(take: seq<Key>): set<Key> {
    set k | k in take
  }

  /** The keys of the first `n` sorted rows: `n` of them, all from the rows. */
  lemma PrefixKeys(s: seq<Snapshot>, sorted: seq<Snapshot>, n: nat)
    requires DistinctKeys(s) && sorted == Sort(s) && n <= |s|
    ensures n <= |sorted|
    ensures |TakenSet(Keys(sorted[..n]))| == n && TakenSet(Keys(sorted[..n])) <= KeySet(s)
    ensures n == |s| ==> TakenSet(Keys(sorted[..n])) == KeySet(s)
  {
    SortKeys(s);
    var r := sorted[..n];
    KeySetSize(r);
    KeysAreKeySet(r);
    assert KeySet(r) <= KeySet(sorted) by {
      forall l | l in r ensures l in sorted {}
    }
    assert n == |s| ==> r == sorted;
  }

  // ---- Every decision of the procedure is such a set ---------------------------------

  lemma TakenSum(a: seq<Key>, b: seq<Key>)
    ensures TakenSet(a + b) == TakenSet(a) + TakenSet(b)
  {
  }

  /** The allocation side of a worker's rows: same keys, same count. */
  lemma HeldFacts(active: seq<Snapshot>, me: Worker, w: Worker)
    requires DistinctKeys(active)
    requires forall l :: l in active && l.owner == Some(me) ==> !l.expired
    ensures KeySet(Held(active, w)) == Mine(AllocOf(active), w) && DistinctKeys(Held(active, w))
    ensures |Held(active, w)| == Hold(AllocOf(active), w)
  {
    AllocFacts(active, me);
  }

  lemma ShareFacts(active: seq<Snapshot>, me: Worker)
    requires DistinctKeys(active)
    requires forall l :: l in active && l.owner == Some(me) ==> !l.expired
    ensures LiveOwners(active) == Owners(AllocOf(active)) && |AllocOf(active)| == |active|
    ensures Target(active, me) == Share(AllocOf(active), me)
    ensures forall u :: Holds(active, u) == Hold(AllocOf(active), u)
  {
    AllocFacts(active, me);
  }

  /** Taking `s` of a victim's keys on top of all free ones. */
  lemma StealTakes(m: Alloc, me: Worker, v: Worker, base: seq<Key>, s: seq<Key>)
    requires v != me && v in Owners(m) && Hold(m, v) > Share(m, me)
    requires forall u :: u in Owners(m) && u != me ==> Hold(m, u) <= Hold(m, v)
    requires TakenSet(base) == Free(m) && |base| == |Free(m)|
    requires TakenSet(s) <= Mine(m, v) && |TakenSet(s)| == |s| <= Hold(m, v) - Share(m, me)
    ensures StealsFrom(m, me, v, TakenSet(base + s)) && |TakenSet(base + s)| == |base + s|
  {
    TakenSum(base, s);
    assert Free(m) !! Mine(m, v);
    assert TakenSet(base + s) * Mine(m, v) == TakenSet(s);
  }

  lemma StolenTakes(active: seq<Snapshot>, me: Worker, v: Worker, target: nat, need: nat, room: nat,
                    base: seq<Key>, take: seq<Key>)
    requires DistinctKeys(active) && target == Target(active, me)
    requires forall l :: l in active && l.owner == Some(me) ==> !l.expired
    requires TakenSet(base) == Free(AllocOf(active)) && |base| == |Free(AllocOf(active))|
    requires MostLoaded(active, me, v) && StolenFrom(active, v, target, need, room, base, take)
    ensures |TakenSet(take)| == |take| == |base| + Min(Min(need, room), Holds(active, v) - target)
    ensures StealsFrom(AllocOf(active), me, v, TakenSet(take))
  {
    var n := Min(Min(need, room), Holds(active, v) - target);
    var sorted := Sort(Held(active, v));
    HeldFacts(active, me, v);
    ShareFacts(active, me);
    PrefixKeys(Held(active, v), sorted, n);
    StealTakes(AllocOf(active), me, v, base, Keys(sorted[..n]));
  }

  /** How the second half of a decision ends, on the allocation. */
  ghost predicate StealEnds(m: Alloc, me: Worker, need: nat, room: nat, base: seq<Key>, take: seq<Key>) {
    || (take == base && forall u :: u in Owners(m) && u != me ==> Hold(m, u) <= Share(m, me))
    || (&& (exists v :: StealsFrom(m, me, v, TakenSet(take)))
        && |TakenSet(take)| == |take| && |base| < |take| <= |base| + Min(need, room))
  }

  lemma StolenSplits(active: seq<Snapshot>, me: Worker, target: nat, need: nat, room: nat,
                     base: seq<Key>, take: seq<Key>) returns (none: bool, v: Worker)
    requires Stolen(active, me, target, need, room, base, take)
    ensures none ==> take == base && forall u :: u in LiveOwners(active) && u != me ==> Holds(active, u) <= target
    ensures !none ==> MostLoaded(active, me, v) && StolenFrom(active, v, target, need, room, base, take)
  {
    none := forall v :: v in LiveOwners(active) && v != me ==> Holds(active, v) <= target;
    if !none {
      v :| MostLoaded(active, me, v) && StolenFrom(active, v, target, need, room, base, take);
    } else {
      v := me;
    }
  }

  lemma NoneAbove(active: seq<Snapshot>, me: Worker, target: nat)
    requires DistinctKeys(active) && target == Target(active, me)
    requires forall l :: l in active && l.owner == Some(me) ==> !l.expired
    requires forall u :: u in LiveOwners(active) && u != me ==> Holds(active, u) <= target
    ensures forall u :: u in Owners(AllocOf(active)) && u != me ==> Hold(AllocOf(active), u) <= Share(AllocOf(active), me)
  {
    ShareFacts(active, me);
  }

  lemma StolenEnds(active: seq<Snapshot>, me: Worker, m: Alloc, target: nat, need: nat, room: nat,
                   base: seq<Key>, take: seq<Key>)
    requires DistinctKeys(active) && target == Target(active, me) && need > 0 && room > 0
    requires forall l :: l in active && l.owner == Some(me) ==> !l.expired
    requires m == AllocOf(active) && TakenSet(base) == Free(m) && |base| == |Free(m)|
    requires Stolen(active, me, target, need, room, base, take)
    ensures StealEnds(m, me, need, room, base, take)
  {
    var none, v := StolenSplits(active, me, target, need, room, base, take);
    if none {
      NoneAbove(active, me, target);
    } else {
      StolenTakes(active, me, v, target, need, room, base, take);
    }
  }

  lemma StealRules(m: Alloc, me: Worker, need: nat, room: nat, base: seq<Key>, take: seq<Key>)
    requires TakenSet(base) == Free(m) && |base| == |Free(m)|
    requires Hold(m, me) + |base| + need == Share(m, me)
    requires StealEnds(m, me, need, room, base, take)
    ensures TakeOk(m, me, |base| + room, TakenSet(take)) && |TakenSet(take)| == |take|
  {
  }

  lemma FreeRules(m: Alloc, me: Worker, max: nat, take: seq<Key>)
    requires TakenSet(take) <= Free(m) && 0 < |TakenSet(take)| == |take| <= max
    requires Hold(m, me) + |take| <= Share(m, me)
    ensures TakeOk(m, me, max, TakenSet(take))
  {
    assert TakenSet(take) != {};
  }

  /** The base of a decision: the keys of the first `a` available rows. */
  lemma BaseFacts(free: seq<Snapshot>, available: seq<Snapshot>, a: nat, all: set<Key>) returns (base: seq<Key>)
    requires DistinctKeys(free) && available == Sort(free) && a <= |free| && KeySet(free) == all
    ensures |available| == |free| && base == Keys(available[..a])
    ensures |TakenSet(base)| == |base| == a && TakenSet(base) <= all
    ensures a == |free| ==> TakenSet(base) == all && base == Keys(available)
  {
    PrefixKeys(free, available, a);
    base := Keys(available[..a]);
    if a == |free| {
      assert available[..a] == available;
    }
  }

  lemma ShareSplits(active: seq<Snapshot>, me: Worker, target: nat, need: nat, max: nat,
                    available: seq<Snapshot>, take: seq<Key>, a: nat, base: seq<Key>)
    requires TakesShare(active, me, target, need, max, available, take)
    requires a == FromAvailable(need, max, |available|) && base == Keys(available[..a])
    requires a == |available| ==> base == Keys(available)
    ensures a == need || a == max ==> take == base
    ensures a != need && a != max ==> Stolen(active, me, target, need - a, max - a, base, take)
  {
  }

  lemma ShareEnds(active: seq<Snapshot>, me: Worker, m: Alloc, need: nat, max: nat,
                  available: seq<Snapshot>, take: seq<Key>, a: nat, base: seq<Key>)
    requires DistinctKeys(active) && m == AllocOf(active)
    requires forall l :: l in active && l.owner == Some(me) ==> !l.expired
    requires TakesShare(active, me, Target(active, me), need, max, available, take)
    requires a == FromAvailable(need, max, |available|) && base == Keys(available[..a])
    requires a == |available| ==> base == Keys(available) && TakenSet(base) == Free(m) && |base| == |Free(m)|
    ensures a == need || a == max ==> take == base
    ensures a != need && a != max ==> StealEnds(m, me, need - a, max - a, base, take)
  {
    ShareSplits(active, me, Target(active, me), need, max, available, take, a, base);
    if a != need && a != max {
      StolenEnds(active, me, m, Target(active, me), need - a, max - a, base, take);
    }
  }

  lemma ShareTakes(m: Alloc, me: Worker, need: nat, max: nat, a: nat, base: seq<Key>, take: seq<Key>)
    requires Hold(m, me) + need == Share(m, me) && need > 0 && max > 0
    requires a == FromAvailable(need, max, |Free(m)|)
    requires |TakenSet(base)| == |base| == a && TakenSet(base) <= Free(m)
    requires a == |Free(m)| ==> TakenSet(base) == Free(m)
    requires a == need || a == max ==> take == base
    requires a != need && a != max ==> StealEnds(m, me, need - a, max - a, base, take)
    ensures TakeOk(m, me, max, TakenSet(take)) && |TakenSet(take)| == |take|
  {
    if a == need || a == max {
      FreeRules(m, me, max, take);
    } else {
      StealRules(m, me, need - a, max - a, base, take);
    }
  }

  lemma FreeFacts(active: seq<Snapshot>, me: Worker, m: Alloc, free: seq<Snapshot>, target: nat, mine: nat)
    requires DistinctKeys(active) && m == AllocOf(active) && free == Filter(active, AvailableTo(me))
    requires forall l :: l in active && l.owner == Some(me) ==> !l.expired
    requires target == Target(active, me) && mine == Holds(active, me)
    ensures DistinctKeys(free) && KeySet(free) == Free(m) && |free| == |Free(m)|
    ensures target == Share(m, me) && mine == Hold(m, me)
    ensures active == [] ==> m == map[]
  {
    AllocFacts(active, me);
  }

  lemma ActiveShare(active: seq<Snapshot>, me: Worker, m: Alloc, target: nat, need: nat, max: nat,
                    free: seq<Snapshot>, take: seq<Key>)
    requires DistinctKeys(active) && m == AllocOf(active) && target == Target(active, me)
    requires forall l :: l in active && l.owner == Some(me) ==> !l.expired
    requires DistinctKeys(free) && KeySet(free) == Free(m) && |free| == |Free(m)|
    requires Hold(m, me) + need == Share(m, me) && need > 0 && max > 0
    requires TakesShare(active, me, target, need, max, Sort(free), take)
    ensures TakeOk(m, me, max, TakenSet(take)) && |TakenSet(take)| == |take|
  {
    var a := FromAvailable(need, max, |free|);
    var base := BaseFacts(free, Sort(free), a, Free(m));
    ShareEnds(active, me, m, need, max, Sort(free), take, a, base);
    ShareTakes(m, me, need, max, a, base, take);
  }

  lemma NothingTaken(m: Alloc, me: Worker, max: nat)
    requires m == map[] || max == 0 || Hold(m, me) >= Share(m, me)
    ensures TakeOk(m, me, max, TakenSet([])) && |TakenSet([])| == 0
  {
    assert TakenSet([]) == {};
  }

  lemma DecidesSplits(active: seq<Snapshot>, me: Worker, max: nat, take: seq<Key>,
                      free: seq<Snapshot>, target: nat, mine: nat)
    requires Decides(active, me, max, take)
    requires free == Filter(active, AvailableTo(me)) && target == Target(active, me) && mine == Holds(active, me)
    ensures active == [] || max == 0 || mine >= target ==> take == []
    ensures active != [] && max > 0 && mine < target ==>
      TakesShare(active, me, target, target - mine, max, Sort(free), take)
  {
  }

  lemma ActiveTakes(active: seq<Snapshot>, me: Worker, max: nat, take: seq<Key>,
                    m: Alloc, free: seq<Snapshot>, target: nat, mine: nat)
    requires DistinctKeys(active) && m == AllocOf(active) && target == Target(active, me)
    requires forall l :: l in active && l.owner == Some(me) ==> !l.expired
    requires DistinctKeys(free) && KeySet(free) == Free(m) && |free| == |Free(m)|
    requires target == Share(m, me) && mine == Hold(m, me) && (active == [] ==> m == map[])
    requires active == [] || max == 0 || mine >= target ==> take == []
    requires active != [] && max > 0 && mine < target ==>
      TakesShare(active, me, target, target - mine, max, Sort(free), take)
    ensures TakeOk(m, me, max, TakenSet(take)) && |TakenSet(take)| == |take|
  {
    hide *;
    if active == [] || max == 0 || mine >= target {
      NothingTaken(m, me, max);
    } else {
      ActiveShare(active, me, m, target, target - mine, max, free, take);
    }
  }

  lemma ActiveRows(leases: seq<Snapshot>, me: Worker)
    requires DistinctKeys(leases)
    requires forall l :: l in leases && l.owner == Some(me) ==> !l.expired
    ensures DistinctKeys(Filter(leases, Active))
    ensures forall l :: l in Filter(leases, Active) && l.owner == Some(me) ==> !l.expired
  {
    FilterMembers(leases, Active);
    FilterDistinct(leases, Active);
  }

  /** Every decision of the procedure keeps the rules. */
  lemma TakeKeepsRules(leases: seq<Snapshot>, me: Worker, max: nat, take: seq<Key>)
    requires DistinctKeys(leases) && IsTake(leases, me, max, take)
    requires forall l :: l in leases && l.owner == Some(me) ==> !l.expired
    ensures TakeOk(AllocOf(Filter(leases, Active)), me, max, TakenSet(take)) && |TakenSet(take)| == |take|
  {
    var active := Filter(leases, Active);
    ActiveRows(leases, me);
    var m, free, target, mine := AllocOf(active), Filter(active, AvailableTo(me)), Target(active, me), Holds(active, me);
    DecidesSplits(active, me, max, take, free, target, mine);
    FreeFacts(active, me, m, free, target, mine);
    ActiveTakes(active, me, max, take, m, free, target, mine);
  }
}
