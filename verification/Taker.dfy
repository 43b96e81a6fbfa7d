/**
 Which leases a worker takes: fair share first from what is available, then, only if that
 runs out, by stealing from the most loaded worker above the target.
 */
module Taker {
  import opened Types

  /** A worker's view of one row: is it held, by whom, and does the holder look dead. */
  datatype Snapshot = Snapshot(key: Key, owner: Option<Worker>, expired: bool, completed: bool)

  const Active: Snapshot -> bool := (l: Snapshot) => !l.completed

  function LiveFor(w: Worker): Snapshot -> bool {
    (l: Snapshot) => !l.expired && l.owner == Some(w)
  }

  function AvailableTo(me: Worker): Snapshot -> bool {
    (l: Snapshot) => l.owner != Some(me) && (l.owner.None? || l.expired)
  }

  /** Ceiling of a / b. */
  function CeilDiv(a: nat, b: nat): nat
    requires b > 0
  {
    (a + b - 1) / b
  }

  /** The least whole number that is not below a / b. */
  lemma CeilDivIsCeiling(a: nat, b: nat)
    requires b > 0
    ensures a <= CeilDiv(a, b) * b < a + b
  {
    var q, r := (a + b - 1) / b, (a + b - 1) % b;
    assert a + b - 1 == q * b + r && r < b;
  }

  /** Comparing with the ceiling is comparing the products. */
  lemma AgainstCeiling(h: nat, a: nat, b: nat)
    requires b > 0
    ensures h < CeilDiv(a, b) <==> h * b < a
  {
    var c := CeilDiv(a, b);
    CeilDivIsCeiling(a, b);
    if h < c {
      Multiples(h + 1, c, b);
      assert (h + 1) * b == h * b + b;
    } else {
      Multiples(c, h, b);
    }
  }

  /** Up to the ceiling, one less is below the quotient. */
  lemma UpToCeiling(h: nat, a: nat, b: nat)
    requires b > 0 && 0 < h <= CeilDiv(a, b)
    ensures (h - 1) * b < a
  {
    AgainstCeiling(h - 1, a, b);
  }

  lemma Multiples(x: nat, y: nat, b: nat)
    requires x <= y
    ensures x * b <= y * b
  {
    assert y * b == x * b + (y - x) * b;
  }

  function Held(active: seq<Snapshot>, w: Worker): seq<Snapshot> {
    Filter(active, LiveFor(w))
  }

  function Holds(active: seq<Snapshot>, w: Worker): nat {
    |Held(active, w)|
  }

  function LiveOwners(active: seq<Snapshot>): set<Worker> {
    set l | l in active && !l.expired && l.owner.Some? :: l.owner.value
  }

  /** The fair share: the active leases over the live workers, rounded up. */
  function Target(active: seq<Snapshot>, me: Worker): nat {
    CeilDiv(|active|, |LiveOwners(active) + {me}|)
  }

  // ---- Sorting by key ----------------------------------------------------------------

  predicate SortedByKey(s: seq<Snapshot>) {
    forall i, j :: 0 <= i < j < |s| ==> Precedes(s[i].key, s[j].key)
  }

  function Insert(s: seq<Snapshot>, l: Snapshot): (r: seq<Snapshot>)
    ensures |r| == |s| + 1
  {
    if s == [] || Precedes(s[|s| - 1].key, l.key) then s + [l]
    else Insert(s[..|s| - 1], l) + [s[|s| - 1]]
  }

  /** The rows in key order, as the library sort leaves them (insertion sort, stable). */
  function Sort(s: seq<Snapshot>): (r: seq<Snapshot>)
    ensures |r| == |s|
  {
    if s == [] then [] else Insert(Sort(s[..|s| - 1]), s[|s| - 1])
  }

  lemma {:induction false} InsertSorts(s: seq<Snapshot>, l: Snapshot)
    requires SortedByKey(s)
    ensures SortedByKey(Insert(s, l)) && multiset(Insert(s, l)) == multiset(s) + multiset{l}
    decreases |s|
  {
    if s != [] {
      var rest, top := s[..|s| - 1], s[|s| - 1];
      assert s == rest + [top];
      if !Precedes(top.key, l.key) {
        InsertSorts(rest, l);
        var r := Insert(rest, l);
        forall i | 0 <= i < |r| ensures Precedes(r[i].key, top.key) {
          assert r[i] in multiset(r);
          assert r[i] in multiset(rest) || r[i] == l;
        }
      }
    }
  }

  /** Sorting gives the same rows, in key order. */
  lemma {:induction false} SortSorts(s: seq<Snapshot>)
    ensures SortedByKey(Sort(s)) && multiset(Sort(s)) == multiset(s)
    decreases |s|
  {
    if s != [] {
      assert s == s[..|s| - 1] + [s[|s| - 1]];
      SortSorts(s[..|s| - 1]);
      InsertSorts(Sort(s[..|s| - 1]), s[|s| - 1]);
    }
  }

  function Keys(s: seq<Snapshot>): (r: seq<Key>)
    ensures |r| == |s| && forall i :: 0 <= i < |s| ==> r[i] == s[i].key
  {
    seq(|s|, i requires 0 <= i < |s| => s[i].key)
  }

  // ---- The decision ------------------------------------------------------------------

  /** `v` is another live worker, and no other live worker holds more. */
  ghost predicate MostLoaded(active: seq<Snapshot>, me: Worker, v: Worker) {
    && v != me && v in LiveOwners(active)
    && forall u :: u in LiveOwners(active) && u != me ==> Holds(active, u) <= Holds(active, v)
  }

  /** How many available leases are taken. */
  function FromAvailable(need: nat, max: nat, available: nat): nat {
    Min(Min(need, max), available)
  }

  /**
   `take` is a decision for `me`: nothing at or above target; else available leases in key
   order; and only when these run out, leases of one most loaded worker, which keeps its
   target. Which of several most loaded workers is open.
   */
  ghost predicate IsTake(leases: seq<Snapshot>, me: Worker, max: nat, take: seq<Key>) {
    Decides(Filter(leases, Active), me, max, take)
  }

  ghost predicate Decides(active: seq<Snapshot>, me: Worker, max: nat, take: seq<Key>) {
    var target := Target(active, me);
    var mine := Holds(active, me);
    if active == [] || max == 0 || mine >= target then take == []
    else TakesShare(active, me, target, target - mine, max, Sort(Filter(active, AvailableTo(me))), take)
  }

  /** Fill a need of `need` leases: available ones first, stolen ones only when short. */
  ghost predicate TakesShare(active: seq<Snapshot>, me: Worker, target: nat, need: nat, max: nat,
                             available: seq<Snapshot>, take: seq<Key>)
  {
    var a := FromAvailable(need, max, |available|);
    if a == need || a == max then take == Keys(available[..a])
    else Stolen(active, me, target, need - a, max - a, Keys(available), take)
  }

  ghost predicate Stolen(active: seq<Snapshot>, me: Worker, target: nat, need: nat, room: nat,
                         base: seq<Key>, take: seq<Key>)
  {
    if forall v :: v in LiveOwners(active) && v != me ==> Holds(active, v) <= target then take == base
    else exists v :: MostLoaded(active, me, v) && StolenFrom(active, v, target, need, room, base, take)
  }

  predicate StolenFrom(active: seq<Snapshot>, v: Worker, target: nat, need: nat, room: nat,
                       base: seq<Key>, take: seq<Key>)
  {
    && Holds(active, v) > target
    && var s := Min(Min(need, room), Holds(active, v) - target);
       take == base + Keys(Sort(Held(active, v))[..s])
  }

  // ---- The procedure -----------------------------------------------------------------

  method Collect(s: seq<Snapshot>, p: Snapshot -> bool) returns (r: seq<Snapshot>)
    ensures r == Filter(s, p)
  {
    r := [];
    for i := 0 to |s|
      invariant r == Filter(s[..i], p)
    {
      FilterStep(s, i, p);
      if p(s[i]) {
        r := r + [s[i]];
      }
    }
    assert s[..|s|] == s;
  }

  lemma OwnersStep(s: seq<Snapshot>, i: nat)
    requires i < |s|
    ensures LiveOwners(s[..i + 1]) ==
            LiveOwners(s[..i]) + if !s[i].expired && s[i].owner.Some? then {s[i].owner.value} else {}
  {
    assert s[..i + 1] == s[..i] + [s[i]];
  }

  /** The number of live leases of every other worker that has one. */
  method CountOthers(active: seq<Snapshot>, me: Worker) returns (counts: map<Worker, nat>)
    ensures counts.Keys == LiveOwners(active) - {me}
    ensures forall w :: w in counts ==> counts[w] == Holds(active, w)
  {
    counts := map[];
    for i := 0 to |active|
      invariant counts.Keys == LiveOwners(active[..i]) - {me}
      invariant forall w :: w in counts ==> counts[w] == Holds(active[..i], w)
      invariant forall w :: w !in LiveOwners(active[..i]) ==> Holds(active[..i], w) == 0
    {
      OwnersStep(active, i);
      forall w ensures Holds(active[..i + 1], w) ==
                       Holds(active[..i], w) + if LiveFor(w)(active[i]) then 1 else 0
      {
        FilterStep(active, i, LiveFor(w));
      }
      var l := active[i];
      if !l.expired && l.owner.Some? && l.owner.value != me {
        var o := l.owner.value;
        counts := counts[o := (if o in counts then counts[o] else 0) + 1];
      }
    }
    assert active[..|active|] == active;
  }

  /** Some entry with the largest count; which one of several is left open. */
  method MaxByCount(counts: map<Worker, nat>) returns (v: Worker)
    requires counts != map[]
    ensures v in counts && forall u :: u in counts ==> counts[u] <= counts[v]
  {
    v :| v in counts;
    var rest := counts.Keys - {v};
    while rest != {}
      invariant rest <= counts.Keys && v in counts
      invariant forall u :: u in counts && u !in rest ==> counts[u] <= counts[v]
      decreases |rest|
    {
      var u :| u in rest;
      if counts[u] > counts[v] {
        v := u;
      }
      rest := rest - {u};
    }
  }

  /** Push keys of `from` while there is need and room: the shape of both taking loops. */
  method Push(base: seq<Key>, from: seq<Snapshot>, limit: nat, need: nat, max: nat)
    returns (take: seq<Key>, left: nat)
    requires |base| <= max && limit <= |from|
    ensures var n := Min(Min(need, max - |base|), limit);
            take == base + Keys(from[..n]) && left == need - n
  {
    take, left := base, need;
    var i := 0;
    assert from[..0] == [] && Keys([]) == [];
    while i < limit && !(left == 0 || |take| == max)
      invariant 0 <= i <= limit && left == need - i && |take| == |base| + i <= max
      invariant take == base + Keys(from[..i])
    {
      assert from[..i + 1] == from[..i] + [from[i]];
      assert Keys(from[..i + 1]) == Keys(from[..i]) + [from[i].key];
      take := take + [from[i].key];
      left := left - 1;
      i := i + 1;
    }
  }

  /** The second half: steal from the most loaded other worker, if it is above target. */
  method Steal(active: seq<Snapshot>, me: Worker, target: nat, need: nat, max: nat, base: seq<Key>)
    returns (take: seq<Key>)
    requires |base| <= max
    ensures Stolen(active, me, target, need, max - |base|, base, take)
  {
    take := base;
    var counts := CountOthers(active, me);
    if counts != map[] {
      var v := MaxByCount(counts);
      assert MostLoaded(active, me, v);
      if counts[v] > target {
        var held := Collect(active, LiveFor(v));
        var left;
        take, left := Push(base, Sort(held), counts[v] - target, need, max);
        assert StolenFrom(active, v, target, need, max - |base|, base, take);
      } else {
        assert forall u :: u in LiveOwners(active) && u != me ==> u in counts;
      }
    } else {
      assert forall u :: u in LiveOwners(active) && u != me ==> u in counts;
    }
  }

  method TakeShare(active: seq<Snapshot>, me: Worker, target: nat, need: nat, max: nat, available: seq<Snapshot>)
    returns (take: seq<Key>)
    ensures TakesShare(active, me, target, need, max, available, take)
  {
    var left;
    take, left := Push([], available, |available|, need, max);
    var a := FromAvailable(need, max, |available|);
    assert take == Keys(available[..a]);
    if left > 0 && |take| < max {
      assert available[..a] == available;
      take := Steal(active, me, target, left, max, take);
    }
  }

  /** The leases `me` should try to take, at most `max` of them. */
  method ComputeLeasesToTake(leases: seq<Snapshot>, me: Worker, max: nat) returns (take: seq<Key>)
    ensures IsTake(leases, me, max, take)
  {
    hide TakesShare, Sort, Filter;
    var active := Collect(leases, Active);
    if active == [] || max == 0 {
      return [];
    }
    var workers := LiveOwners(active) + {me};
    var target := CeilDiv(|active|, |workers|);
    var mine := Collect(active, LiveFor(me));
    if |mine| >= target {
      return [];
    }
    var free := Collect(active, AvailableTo(me));
    take := TakeShare(active, me, target, target - |mine|, max, Sort(free));
  }

  // ---- Why a lease is taken ----------------------------------------------------------

  lemma KeyOf(s: seq<Snapshot>, n: nat, k: Key) returns (l: Snapshot)
    requires n <= |Sort(s)| && k in Keys(Sort(s)[..n])
    ensures l in s && l.key == k
  {
    var i :| 0 <= i < n && Keys(Sort(s)[..n])[i] == k;
    l := Sort(s)[i];
    SortSorts(s);
    assert l in multiset(Sort(s));
  }

  lemma TakenFrom(active: seq<Snapshot>, me: Worker, target: nat, need: nat, max: nat,
                  available: seq<Snapshot>, take: seq<Key>, k: Key) returns (free: bool, v: Worker, n: nat)
    requires TakesShare(active, me, target, need, max, available, take) && k in take
    ensures free ==> n <= |available| && k in Keys(available[..n])
    ensures !free ==> (&& MostLoaded(active, me, v) && Holds(active, v) > target && n <= |Sort(Held(active, v))|
                       && k in Keys(Sort(Held(active, v))[..n]))
  {
    var a := FromAvailable(need, max, |available|);
    free, v, n := true, me, a;
    if a != need && a != max {
      assert available[..a] == available;
      if k !in Keys(available) {
        v :| MostLoaded(active, me, v) && StolenFrom(active, v, target, need - a, max - a, Keys(available), take);
        free, n := false, Min(Min(need - a, max - a), Holds(active, v) - target);
      }
    }
  }

  /** Every taken lease is free or expired, or is a most loaded worker's surplus. */
  lemma TakenWhy(leases: seq<Snapshot>, me: Worker, max: nat, take: seq<Key>, k: Key) returns (l: Snapshot)
    requires IsTake(leases, me, max, take) && k in take
    ensures l in leases && l.key == k && !l.completed && l.owner != Some(me)
    ensures var active := Filter(leases, Active);
            || l.owner.None? || l.expired
            || (MostLoaded(active, me, l.owner.value) && Holds(active, l.owner.value) > Target(active, me))
  {
    var active := Filter(leases, Active);
    var free, v, n := TakenFrom(active, me, Target(active, me), Target(active, me) - Holds(active, me), max,
                                Sort(Filter(active, AvailableTo(me))), take, k);
    FilterMembers(leases, Active);
    if free {
      l := KeyOf(Filter(active, AvailableTo(me)), n, k);
      FilterMembers(active, AvailableTo(me));
    } else {
      l := KeyOf(Held(active, v), n, k);
      FilterMembers(active, LiveFor(v));
    }
  }

  // ---- In which order ----------------------------------------------------------------

  lemma FrontKeys(s: seq<Snapshot>, n: nat)
    requires n <= |Sort(s)|
    ensures forall j :: 0 <= j < n ==> Sort(s)[j].key in Keys(Sort(s)[..n])
  {
    forall j | 0 <= j < n ensures Sort(s)[j].key in Keys(Sort(s)[..n]) {
      assert Keys(Sort(s)[..n])[j] == Sort(s)[j].key;
    }
  }

  lemma AllSorted(s: seq<Snapshot>, m: Snapshot)
    requires m in s
    ensures m.key in Keys(Sort(s))
  {
    SortSorts(s);
    assert m in multiset(Sort(s));
    var j :| 0 <= j < |Sort(s)| && Sort(s)[j] == m;
    assert Keys(Sort(s))[j] == m.key;
  }

  /** When the available leases run out, all of them are taken. */
  lemma AllAvailable(active: seq<Snapshot>, me: Worker, target: nat, need: nat, max: nat, available: seq<Snapshot>, take: seq<Key>)
    requires TakesShare(active, me, target, need, max, available, take)
    requires FromAvailable(need, max, |available|) != need && FromAvailable(need, max, |available|) != max
    ensures Keys(available) <= take
  {
  }

  /** Rows left out of the front of a sorted list come after those in it. */
  lemma FrontPrecedes(s: seq<Snapshot>, n: nat, k: Key, m: Snapshot)
    requires n <= |Sort(s)| && k in Keys(Sort(s)[..n]) && m in s && m.key !in Keys(Sort(s)[..n])
    ensures Precedes(k, m.key)
  {
    SortSorts(s);
    var i :| 0 <= i < n && Keys(Sort(s)[..n])[i] == k;
    assert m in multiset(Sort(s));
    var j :| 0 <= j < |Sort(s)| && Sort(s)[j] == m;
    FrontKeys(s, n);
  }

  lemma ShareInOrder(active: seq<Snapshot>, me: Worker, target: nat, need: nat, max: nat, free: seq<Snapshot>,
                     take: seq<Key>, l: Snapshot, m: Snapshot)
    requires TakesShare(active, me, target, need, max, Sort(free), take)
    requires l in free && m in free && l.key in take && m.key !in take
    ensures Precedes(l.key, m.key)
  {
    var a := FromAvailable(need, max, |Sort(free)|);
    AllSorted(free, m);
    if a == need || a == max {
      FrontPrecedes(free, a, l.key, m);
    } else {
      AllAvailable(active, me, target, need, max, Sort(free), take);
    }
  }

  /** Of the available leases those first in key order are taken. */
  lemma TakesInKeyOrder(leases: seq<Snapshot>, me: Worker, max: nat, take: seq<Key>, l: Snapshot, m: Snapshot)
    requires IsTake(leases, me, max, take)
    requires var free := Filter(Filter(leases, Active), AvailableTo(me));
             l in free && m in free && l.key in take && m.key !in take
    ensures Precedes(l.key, m.key)
  {
    var active := Filter(leases, Active);
    hide TakesShare, Sort, Target, Holds;
    ShareInOrder(active, me, Target(active, me), Target(active, me) - Holds(active, me), max,
                 Filter(active, AvailableTo(me)), take, l, m);
  }

  /** What another live worker holds is not available. */
  lemma HeldIsNotFree(active: seq<Snapshot>, me: Worker, v: Worker, l: Snapshot, n: nat)
    requires forall a, b :: a in active && b in active && a.key == b.key ==> a == b
    requires n <= |Sort(Filter(active, AvailableTo(me)))| && v != me && l in Held(active, v)
    ensures l.key !in Keys(Sort(Filter(active, AvailableTo(me)))[..n])
  {
    FilterMembers(active, LiveFor(v));
    FilterMembers(active, AvailableTo(me));
    hide Sort, Filter;
    if l.key in Keys(Sort(Filter(active, AvailableTo(me)))[..n]) {
      var f := KeyOf(Filter(active, AvailableTo(me)), n, l.key);
    }
  }

  /** A key that is taken and not available is among the first of a worker that is stolen from, and so taken. */
  lemma StolenFront(active: seq<Snapshot>, me: Worker, target: nat, need: nat, max: nat, available: seq<Snapshot>,
                    take: seq<Key>, k: Key) returns (u: Worker, n: nat)
    requires TakesShare(active, me, target, need, max, available, take) && k in take
    requires k !in Keys(available[..FromAvailable(need, max, |available|)])
    ensures n <= |Sort(Held(active, u))| && k in Keys(Sort(Held(active, u))[..n])
    ensures forall j :: j in Keys(Sort(Held(active, u))[..n]) ==> j in take
  {
    hide Sort;
    var a := FromAvailable(need, max, |available|);
    assert available[..|available|] == available;
    u :| MostLoaded(active, me, u) && StolenFrom(active, u, target, need - a, max - a, Keys(available), take);
    n := Min(Min(need - a, max - a), Holds(active, u) - target);
  }

  lemma SameHolder(active: seq<Snapshot>, u: Worker, v: Worker, l: Snapshot, n: nat)
    requires forall a, b :: a in active && b in active && a.key == b.key ==> a == b
    requires l in Held(active, v) && n <= |Sort(Held(active, u))| && l.key in Keys(Sort(Held(active, u))[..n])
    ensures u == v
  {
    FilterMembers(active, LiveFor(u));
    FilterMembers(active, LiveFor(v));
    var h := KeyOf(Held(active, u), n, l.key);
  }

  /** So it is with what is stolen of the worker it is stolen from. */
  lemma StealsInKeyOrder(leases: seq<Snapshot>, me: Worker, max: nat, take: seq<Key>, v: Worker, l: Snapshot, m: Snapshot)
    requires IsTake(leases, me, max, take)
    requires forall a, b :: a in leases && b in leases && a.key == b.key ==> a == b
    requires var held := Held(Filter(leases, Active), v);
             v != me && l in held && m in held && l.key in take && m.key !in take
    ensures Precedes(l.key, m.key)
  {
    var active := Filter(leases, Active);
    FilterMembers(leases, Active);
    hide TakesShare, Sort, Target, Holds, Filter;
    var free, need := Sort(Filter(active, AvailableTo(me))), Target(active, me) - Holds(active, me);
    HeldIsNotFree(active, me, v, l, FromAvailable(need, max, |free|));
    var u, n := StolenFront(active, me, Target(active, me), need, max, free, take, l.key);
    SameHolder(active, u, v, l, n);
    FrontPrecedes(Held(active, v), n, l.key, m);
  }

  // ---- When anything is taken, and how much ------------------------------------------

  /** The live workers the leases are to be split among. */
  function Sharers(active: seq<Snapshot>, me: Worker): nat {
    |LiveOwners(active) + {me}|
  }

  /** `me` holds less than an equal split, rounded up. */
  predicate Below(active: seq<Snapshot>, me: Worker) {
    Holds(active, me) * Sharers(active, me) < |active|
  }

  /** `v` holds more than an equal split, rounded up: one less would still not be below it. */
  predicate Above(active: seq<Snapshot>, me: Worker, v: Worker) {
    (Holds(active, v) - 1) * Sharers(active, me) >= |active|
  }

  lemma SomeSharer(active: seq<Snapshot>, me: Worker)
    ensures Sharers(active, me) > 0
  {
    assert me in LiveOwners(active) + {me};
  }

  /** In terms of the target: below it, and above it. */
  lemma UnderTarget(active: seq<Snapshot>, me: Worker, h: nat)
    ensures h < Target(active, me) <==> h * Sharers(active, me) < |active|
  {
    SomeSharer(active, me);
    AgainstCeiling(h, |active|, Sharers(active, me));
  }

  lemma AboveIsOverTarget(active: seq<Snapshot>, me: Worker, v: Worker)
    requires active != []
    ensures Above(active, me, v) <==> Holds(active, v) > Target(active, me)
  {
    var h: int, n: int := Holds(active, v), Sharers(active, me);
    if h > 0 {
      UnderTarget(active, me, h - 1);
    } else {
      SomeSharer(active, me);
      UnderTarget(active, me, 0);
      assert (h - 1) * n == 0 - n;
    }
  }

  ghost predicate NobodyAbove(active: seq<Snapshot>, me: Worker) {
    forall v :: v in LiveOwners(active) && v != me ==> !Above(active, me, v)
  }

  ghost predicate NobodyOver(active: seq<Snapshot>, me: Worker, target: nat) {
    forall v :: v in LiveOwners(active) && v != me ==> Holds(active, v) <= target
  }

  lemma NobodyIs(active: seq<Snapshot>, me: Worker)
    requires active != []
    ensures NobodyAbove(active, me) <==> NobodyOver(active, me, Target(active, me))
  {
    hide Above, Target, Holds;
    forall v ensures Above(active, me, v) <==> Holds(active, v) > Target(active, me) {
      AboveIsOverTarget(active, me, v);
    }
  }

  /**
   The answer is empty if and only if nothing may be taken, `me` has its equal split, or
   nothing is available and no other live worker is above the split.
   */
  lemma EmptyExactly(leases: seq<Snapshot>, me: Worker, max: nat, take: seq<Key>)
    requires IsTake(leases, me, max, take)
    ensures var active := Filter(leases, Active);
            take == [] <==>
              || max == 0 || !Below(active, me)
              || (Filter(active, AvailableTo(me)) == [] && NobodyAbove(active, me))
  {
    hide TakesShare, Target, Holds, Filter, NobodyAbove, Sharers;
    var active := Filter(leases, Active);
    UnderTarget(active, me, Holds(active, me));
    if active != [] && max > 0 && Below(active, me) {
      NobodyIs(active, me);
      ShareIsEmpty(active, me, Target(active, me), Target(active, me) - Holds(active, me), max,
                   Sort(Filter(active, AvailableTo(me))), take);
    } else if active == [] {
      NoProduct(Holds(active, me), Sharers(active, me));
    }
  }

  lemma NoProduct(h: nat, n: nat)
    ensures h * n >= 0
  {
  }

  lemma ShareIsEmpty(active: seq<Snapshot>, me: Worker, target: nat, need: nat, max: nat, available: seq<Snapshot>, take: seq<Key>)
    requires TakesShare(active, me, target, need, max, available, take) && need > 0 && max > 0
    ensures take == [] <==> available == [] && NobodyOver(active, me, target)
  {
    var a := FromAvailable(need, max, |available|);
    if available != [] {
      assert a > 0;
    } else if v :| v in LiveOwners(active) && v != me && Holds(active, v) > target {
      var u :| MostLoaded(active, me, u) && StolenFrom(active, u, target, need, max, [], take);
    }
  }

  /** `h` is an equal split of `a` among `n`, rounded up. */
  predicate IsSplit(h: int, a: nat, n: nat) {
    a <= h * n < a + n
  }

  /** After the stolen ones a most loaded worker is left with an equal split. */
  ghost predicate BroughtDown(active: seq<Snapshot>, me: Worker, stolen: int) {
    exists v :: MostLoaded(active, me, v) && IsSplit(Holds(active, v) - stolen, |active|, Sharers(active, me))
  }

  ghost predicate DownTo(active: seq<Snapshot>, me: Worker, stolen: int, target: nat) {
    exists v :: MostLoaded(active, me, v) && Holds(active, v) - stolen == target
  }

  lemma DownIs(active: seq<Snapshot>, me: Worker, stolen: int)
    requires DownTo(active, me, stolen, Target(active, me))
    ensures BroughtDown(active, me, stolen)
  {
    SomeSharer(active, me);
    CeilDivIsCeiling(|active|, Sharers(active, me));
    hide Holds, CeilDiv, MostLoaded;
    var v :| MostLoaded(active, me, v) && Holds(active, v) - stolen == Target(active, me);
    assert IsSplit(Target(active, me), |active|, Sharers(active, me));
  }

  /**
   What is taken never lifts `me` above the equal split; and less than the cap allows is taken
   only if `me` then has the split, or all that is available was taken and stealing brought
   a most loaded worker down to the split, or no other live worker is above it.
   */
  lemma TakesEnough(leases: seq<Snapshot>, me: Worker, max: nat, take: seq<Key>)
    requires IsTake(leases, me, max, take)
    ensures |take| <= max
    ensures var active := Filter(leases, Active);
            take != [] ==> (Holds(active, me) + |take| - 1) * Sharers(active, me) < |active|
    ensures var active := Filter(leases, Active);
            var free := |Filter(active, AvailableTo(me))|;
            |take| < max && (Holds(active, me) + |take|) * Sharers(active, me) < |active| ==>
              |take| >= free && (NobodyAbove(active, me) || BroughtDown(active, me, |take| - free))
  {
    hide TakesShare, Target, Holds, Filter, NobodyAbove, NobodyOver, BroughtDown, DownTo, Sharers, Sort;
    var active := Filter(leases, Active);
    var mine := Holds(active, me);
    UnderTarget(active, me, mine + |take|);
    UnderTarget(active, me, mine);
    if active == [] {
      NoProduct(mine + |take|, Sharers(active, me));
    } else if max > 0 && mine < Target(active, me) {
      var free := Filter(active, AvailableTo(me));
      ShareSize(active, me, Target(active, me), Target(active, me) - mine, max, Sort(free), take);
      NobodyIs(active, me);
      if take != [] {
        UnderTarget(active, me, mine + |take| - 1);
      }
      if DownTo(active, me, |take| - |free|, Target(active, me)) {
        DownIs(active, me, |take| - |free|);
      }
    }
  }

  lemma ShareSize(active: seq<Snapshot>, me: Worker, target: nat, need: nat, max: nat, available: seq<Snapshot>, take: seq<Key>)
    requires TakesShare(active, me, target, need, max, available, take)
    ensures |take| <= Min(need, max)
    ensures |take| < Min(need, max) ==>
      |take| >= |available| && (NobodyOver(active, me, target) || DownTo(active, me, |take| - |available|, target))
  {
    var a := FromAvailable(need, max, |available|);
    if a != need && a != max && !NobodyOver(active, me, target) {
      var u :| MostLoaded(active, me, u) && StolenFrom(active, u, target, need - a, max - a, Keys(available), take);
    }
  }
}
