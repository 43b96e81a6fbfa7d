/**
 Rebalancing over a whole fleet, by takes of any workers in any order: it comes to an end, and
 where nobody wants anything leases are fairly spread.
 */
module Rebalancing {
  import opened Types
  import opened Taker
  import opened Balance

  // ---- Sums over workers -------------------------------------------------------------

  ghost function Sum(ws: set<Worker>, f: Worker -> nat): nat
    decreases |ws|
  {
    if ws == {} then 0
    else
      var w :| w in ws;
      f(w) + Sum(ws - {w}, f)
  }

  lemma {:induction false} SumPick(ws: set<Worker>, f: Worker -> nat, w: Worker)
    requires w in ws
    ensures Sum(ws, f) == f(w) + Sum(ws - {w}, f)
    decreases |ws|
  {
    var v :| v in ws && Sum(ws, f) == f(v) + Sum(ws - {v}, f);
    if v != w {
      SumPick(ws - {v}, f, w);
      SumPick(ws - {w}, f, v);
      assert ws - {v} - {w} == ws - {w} - {v};
    }
  }

  lemma {:induction false} SumSame(ws: set<Worker>, f: Worker -> nat, g: Worker -> nat)
    requires forall w :: w in ws ==> f(w) == g(w)
    ensures Sum(ws, f) == Sum(ws, g)
    decreases |ws|
  {
    if ws != {} {
      var w :| w in ws;
      SumPick(ws, f, w);
      SumPick(ws, g, w);
      SumSame(ws - {w}, f, g);
    }
  }

  lemma {:induction false} SumAtLeast(ws: set<Worker>, f: Worker -> nat, t: nat)
    requires forall w :: w in ws ==> f(w) >= t
    ensures Sum(ws, f) >= |ws| * t
    decreases |ws|
  {
    if ws != {} {
      var w :| w in ws;
      SumPick(ws, f, w);
      SumAtLeast(ws - {w}, f, t);
      TimesOneMore(ws, w, t);
    }
  }

  lemma TimesOneMore(ws: set<Worker>, w: Worker, t: nat)
    requires w in ws
    ensures |ws| * t == |ws - {w}| * t + t
  {
    assert |ws| == |ws - {w}| + 1;
  }

  /** If no term is below `t` and one is above, neither is the sum below `|ws|` times `t`. */
  lemma SumAbove(ws: set<Worker>, f: Worker -> nat, t: nat, w: Worker)
    requires forall w :: w in ws ==> f(w) >= t
    requires w in ws && f(w) > t
    ensures Sum(ws, f) > |ws| * t
  {
    SumPick(ws, f, w);
    SumAtLeast(ws - {w}, f, t);
    TimesOneMore(ws, w, t);
  }

  ghost function HoldIn(m: Alloc): Worker -> nat {
    (w: Worker) => Hold(m, w)
  }

  ghost function SquareIn(m: Alloc): Worker -> nat {
    (w: Worker) => Hold(m, w) * Hold(m, w)
  }

  ghost function SumSquares(ws: set<Worker>, m: Alloc): nat {
    Sum(ws, SquareIn(m))
  }

  /** The leases held by a set of workers. */
  ghost function HeldBy(ws: set<Worker>, m: Alloc): set<Key> {
    set k | k in m && m[k].Some? && m[k].value in ws
  }

  lemma HeldByOneMore(ws: set<Worker>, m: Alloc, w: Worker)
    requires w in ws
    ensures |HeldBy(ws, m)| == |HeldBy(ws - {w}, m)| + Hold(m, w)
  {
    assert HeldBy(ws, m) == HeldBy(ws - {w}, m) + Mine(m, w) && HeldBy(ws - {w}, m) !! Mine(m, w);
  }

  /** Holdings and free leases add up to all leases. */
  lemma {:induction false} HoldingsAddUp(ws: set<Worker>, m: Alloc)
    ensures Sum(ws, HoldIn(m)) == |HeldBy(ws, m)|
    decreases |ws|
  {
    if ws == {} {
      assert HeldBy(ws, m) == {};
    } else {
      hide HeldBy, Hold;
      var w :| w in ws;
      SumPick(ws, HoldIn(m), w);
      HoldingsAddUp(ws - {w}, m);
      HeldByOneMore(ws, m, w);
    }
  }

  lemma HeldOrFree(ws: set<Worker>, m: Alloc)
    requires Owners(m) <= ws
    ensures |HeldBy(ws, m)| + |Free(m)| == |m|
  {
    var held := HeldBy(ws, m);
    forall k | k in m && m[k].Some? ensures m[k].value in Owners(m) {}
    assert held !! Free(m) && held + Free(m) == m.Keys;
    assert |m| == |m.Keys|;
  }

  lemma AllAccounted(ws: set<Worker>, m: Alloc)
    requires Owners(m) <= ws
    ensures Sum(ws, HoldIn(m)) + |Free(m)| == |m|
  {
    hide *;
    HoldingsAddUp(ws, m);
    HeldOrFree(ws, m);
  }

  // ---- One take ----------------------------------------------------------------------

  /** A take gives the taker exactly its keys. */
  lemma TakerGains(m: Alloc, me: Worker, t: set<Key>)
    requires t <= m.Keys && t !! Mine(m, me)
    ensures Hold(Given(m, me, t), me) == Hold(m, me) + |t|
    ensures Free(Given(m, me, t)) == Free(m) - t
    ensures Owners(Given(m, me, t)) <= Owners(m) + {me}
  {
    assert Mine(Given(m, me, t), me) == Mine(m, me) + t;
  }

  /** And everyone else loses exactly the keys taken from them. */
  lemma OthersLose(m: Alloc, me: Worker, t: set<Key>, u: Worker)
    requires u != me
    ensures Hold(Given(m, me, t), u) == Hold(m, u) - |t * Mine(m, u)|
  {
    assert Mine(Given(m, me, t), u) == Mine(m, u) - t;
    assert Mine(m, u) == (Mine(m, u) - t) + (t * Mine(m, u));
  }

  /**
   One take is polite: it takes no lease of its own, never lifts the taker above its
   share, steals only when nothing free is left, and leaves the victim its share.
   */
  lemma TakeIsPolite(m: Alloc, me: Worker, max: nat, t: set<Key>)
    requires TakeOk(m, me, max, t) && t != {}
    ensures t <= m.Keys && t !! Mine(m, me)
    ensures Hold(Given(m, me, t), me) <= Share(m, me)
    ensures (Hold(Given(m, me, t), me) - 1) * |Owners(m) + {me}| < |m|
    ensures forall u :: u != me && Hold(Given(m, me, t), u) != Hold(m, u) ==>
      Free(m) <= t && Share(m, me) <= Hold(Given(m, me, t), u)
    ensures forall u :: u != me && Hold(Given(m, me, t), u) != Hold(m, u) ==>
      |m| <= Hold(Given(m, me, t), u) * |Owners(m) + {me}|
  {
    hide Share;
    NotMine(m, me, max, t);
    TakerGains(m, me, t);
    AtMostShare(m, me, Hold(Given(m, me, t), me));
    forall u | u != me
      ensures Hold(Given(m, me, t), u) == Hold(m, u)
        || (Free(m) <= t && Share(m, me) <= Hold(Given(m, me, t), u))
    {
      OthersLose(m, me, t, u);
      if t <= Free(m) {
        assert t * Mine(m, u) == {};
      } else {
        var v :| StealsFrom(m, me, v, t);
        if u != v {
          assert t * Mine(m, u) == {};
        }
      }
    }
    forall u | u != me && Hold(Given(m, me, t), u) != Hold(m, u)
      ensures |m| <= Hold(Given(m, me, t), u) * |Owners(m) + {me}|
    {
      AtLeastShare(m, me, Hold(Given(m, me, t), u));
    }
  }

  /** A share is an equal split of the leases among the owners and the taker, rounded up. */
  lemma AtMostShare(m: Alloc, me: Worker, h: nat)
    requires 0 < h <= Share(m, me)
    ensures (h - 1) * |Owners(m) + {me}| < |m|
  {
    assert me in Owners(m) + {me};
    UpToCeiling(h, |m|, |Owners(m) + {me}|);
  }

  lemma AtLeastShare(m: Alloc, me: Worker, h: nat)
    requires Share(m, me) <= h
    ensures |m| <= h * |Owners(m) + {me}|
  {
    assert me in Owners(m) + {me};
    AgainstCeiling(h, |m|, |Owners(m) + {me}|);
  }

  lemma NotMine(m: Alloc, me: Worker, max: nat, t: set<Key>)
    requires TakeOk(m, me, max, t)
    ensures t <= m.Keys && t !! Mine(m, me)
  {
    if !(t <= Free(m)) {
      var v :| StealsFrom(m, me, v, t);
    }
  }

  /** (a + s)^2 + (b - s)^2 < a^2 + b^2 when s moves from the larger to the smaller. */
  lemma SquaresDrop(a: nat, b: nat, s: nat)
    requires s > 0 && a + s <= b - s
    ensures (a + s) * (a + s) + (b - s) * (b - s) < a * a + b * b
  {
    var d := b - s - a;
    assert b == a + s + d;
    assert (a + s) * (a + s) == a * a + 2 * a * s + s * s;
    assert (b - s) * (b - s) == b * b - 2 * b * s + s * s;
    assert b * s == a * s + s * s + d * s;
    assert s * s > 0 && d * s >= 0 by { assert s >= 1 && d >= s; MulPos(s, s); MulPos(d, s); }
  }

  lemma MulPos(a: nat, b: nat)
    requires a > 0 && b > 0
    ensures a * b > 0
  {
  }

  /** Moving `s` leases between two workers moves the sum of squares by their two terms. */
  lemma TwoMove(ws: set<Worker>, f: Worker -> nat, g: Worker -> nat, a: Worker, b: Worker)
    requires a in ws && b in ws && a != b
    requires forall w :: w in ws && w != a && w != b ==> f(w) == g(w)
    requires g(a) + g(b) < f(a) + f(b)
    ensures Sum(ws, g) < Sum(ws, f)
  {
    SumPick(ws, f, a);
    SumPick(ws, g, a);
    SumPick(ws - {a}, f, b);
    SumPick(ws - {a}, g, b);
    SumSame(ws - {a} - {b}, f, g);
  }

  /** A pure steal lowers the sum of squared holdings. */
  lemma StealDescends(m: Alloc, me: Worker, v: Worker, t: set<Key>, ws: set<Worker>)
    requires StealsFrom(m, me, v, t) && t <= Mine(m, v) && t != {} && t <= m.Keys && t !! Mine(m, me)
    requires Hold(m, me) + |t| <= Share(m, me) && me in ws && v in ws
    ensures SumSquares(ws, Given(m, me, t)) < SumSquares(ws, m)
  {
    var m' := Given(m, me, t);
    TakerGains(m, me, t);
    forall u | u in ws && u != me && u != v ensures SquareIn(m)(u) == SquareIn(m')(u) {
      OthersLose(m, me, t, u);
      assert t * Mine(m, u) == {};
    }
    OthersLose(m, me, t, v);
    assert t * Mine(m, v) == t;
    SquaresDrop(Hold(m, me), Hold(m, v), |t|);
    TwoMove(ws, SquareIn(m), SquareIn(m'), me, v);
  }

  /** Every non-empty take lowers (free leases, sum of squared holdings) lexicographically. */
  lemma TakeDescends(m: Alloc, me: Worker, max: nat, t: set<Key>, ws: set<Worker>)
    requires TakeOk(m, me, max, t) && t != {} && Owners(m) + {me} <= ws
    ensures var m' := Given(m, me, t);
            || |Free(m')| < |Free(m)|
            || (|Free(m')| == |Free(m)| && SumSquares(ws, m') < SumSquares(ws, m))
  {
    NotMine(m, me, max, t);
    TakerGains(m, me, t);
    if t * Free(m) != {} {
      StrictSubset(Free(m) - t, Free(m));
    } else {
      assert Free(m) - t == Free(m);
      var v :| StealsFrom(m, me, v, t);
      StealDescends(m, me, v, t, ws);
    }
  }

  lemma StrictSubset(a: set<Key>, b: set<Key>)
    requires a < b
    ensures |a| < |b|
  {
    assert b == a + (b - a);
    assert b - a != {};
  }

  // ---- Whole runs --------------------------------------------------------------------

  datatype Move = Move(me: Worker, max: nat, keys: set<Key>)

  /** Non-empty decisions of workers in `ws`, each applied at once to what the last one left. */
  ghost predicate TakeRun(m: Alloc, moves: seq<Move>, ws: set<Worker>)
    decreases |moves|
  {
    moves == [] ||
    (&& moves[0].me in ws && moves[0].keys != {} && TakeOk(m, moves[0].me, moves[0].max, moves[0].keys)
     && TakeRun(Given(m, moves[0].me, moves[0].keys), moves[1..], ws))
  }

  /** The lexicographic measure as one number. */
  ghost function Potential(ws: set<Worker>, m: Alloc): nat {
    |Free(m)| * (|m| * |m| + 1) + SumSquares(ws, m)
  }

  lemma SquareOfSum(a: nat, b: nat)
    ensures a * a + b * b <= (a + b) * (a + b)
  {
    assert (a + b) * (a + b) == a * a + 2 * (a * b) + b * b;
  }

  lemma Widen(a: nat, b: nat)
    requires a <= b
    ensures a * a <= b * b
  {
    assert b * b == a * a + 2 * a * (b - a) + (b - a) * (b - a);
  }

  lemma PickSquares(ws: set<Worker>, m: Alloc, w: Worker, a: nat)
    requires w in ws && a == Hold(m, w)
    ensures Sum(ws, HoldIn(m)) == a + Sum(ws - {w}, HoldIn(m))
    ensures SumSquares(ws, m) == a * a + SumSquares(ws - {w}, m)
  {
    hide Sum;
    SumPick(ws, HoldIn(m), w);
    SumPick(ws, SquareIn(m), w);
  }

  lemma Squares(a: nat, b: nat, q: nat)
    requires q <= b * b
    ensures a * a + q <= (a + b) * (a + b)
  {
    SquareOfSum(a, b);
  }

  lemma {:induction false} SquaresBounded(ws: set<Worker>, m: Alloc)
    ensures SumSquares(ws, m) <= Sum(ws, HoldIn(m)) * Sum(ws, HoldIn(m))
    decreases |ws|
  {
    if ws != {} {
      hide *;
      var w :| w in ws;
      var a := Hold(m, w);
      PickSquares(ws, m, w, a);
      SquaresBounded(ws - {w}, m);
      Squares(a, Sum(ws - {w}, HoldIn(m)), SumSquares(ws - {w}, m));
    }
  }

  lemma SquaresWithin(ws: set<Worker>, m: Alloc)
    requires Owners(m) <= ws
    ensures SumSquares(ws, m) <= |m| * |m|
  {
    SquaresBounded(ws, m);
    AllAccounted(ws, m);
    Widen(Sum(ws, HoldIn(m)), |m|);
  }

  lemma LexToPotential(f: nat, f': nat, q: nat, q': nat, n: nat)
    requires q' <= n && (f' < f || (f' == f && q' < q))
    ensures f' * (n + 1) + q' < f * (n + 1) + q
  {
    if f' < f {
      assert f * (n + 1) == (f - f') * (n + 1) + f' * (n + 1);
      AtLeastOnce(f - f', n + 1);
    }
  }

  lemma AtLeastOnce(a: nat, b: nat)
    requires a > 0
    ensures a * b >= b
  {
    assert a * b == (a - 1) * b + b;
  }

  lemma TakeLowersPotential(m: Alloc, move: Move, ws: set<Worker>)
    requires TakeOk(m, move.me, move.max, move.keys) && move.keys != {} && Owners(m) + {move.me} <= ws
    ensures var m' := Given(m, move.me, move.keys);
            Potential(ws, m') < Potential(ws, m) && Owners(m') <= ws && |m'| == |m|
  {
    var m' := Given(m, move.me, move.keys);
    NotMine(m, move.me, move.max, move.keys);
    TakerGains(m, move.me, move.keys);
    assert m'.Keys == m.Keys && |m'| == |m'.Keys| && |m| == |m.Keys|;
    TakeDescends(m, move.me, move.max, move.keys, ws);
    SquaresWithin(ws, m');
    LexToPotential(|Free(m)|, |Free(m')|, SumSquares(ws, m), SumSquares(ws, m'), |m| * |m|);
  }

  /** Rebalancing ends: no run makes more non-empty takes than the potential it starts with. */
  lemma {:induction false} RebalancingEnds(m: Alloc, moves: seq<Move>, ws: set<Worker>)
    requires Owners(m) <= ws && TakeRun(m, moves, ws)
    ensures |moves| <= Potential(ws, m)
    decreases |moves|
  {
    if moves != [] {
      TakeLowersPotential(m, moves[0], ws);
      RebalancingEnds(Given(m, moves[0].me, moves[0].keys), moves[1..], ws);
    }
  }

  // ---- Where it ends -----------------------------------------------------------------

  /** Taking nothing is a decision of every participant, although each may take a lease. */
  ghost predicate Settled(m: Alloc, ws: set<Worker>) {
    forall w :: w in ws ==> TakeOk(m, w, 1, {})
  }

  /** An empty answer of the procedure, under any positive cap, is such a decision. */
  lemma EmptyAnswerSettles(leases: seq<Snapshot>, w: Worker, max: nat)
    requires DistinctKeys(leases) && max > 0 && IsTake(leases, w, max, [])
    requires forall l :: l in leases && l.owner == Some(w) ==> !l.expired
    ensures TakeOk(AllocOf(Filter(leases, Active)), w, 1, {})
  {
    TakeKeepsRules(leases, w, max, []);
    assert TakenSet([]) == {};
  }

  lemma CeilDivBounds(a: nat, b: nat)
    requires b > 0
    ensures CeilDiv(a, b) * b >= a
    ensures a > 0 ==> CeilDiv(a, b) > 0
  {
    CeilDivIsCeiling(a, b);
    AgainstCeiling(0, a, b);
  }

  /** In a settled fleet whose owners all take part, every lease is held. */
  lemma SettledHoldsAll(m: Alloc, ws: set<Worker>)
    requires Settled(m, ws) && Owners(m) <= ws && ws != {} && m != map[]
    ensures Free(m) == {} && Owners(m) != {}
  {
    assert |m| > 0;
    if Free(m) != {} {
      var w :| w in ws;
      forall v | v in ws ensures Hold(m, v) >= Share(m, v) {
        assert TakeOk(m, v, 1, {});
      }
      if w !in Owners(m) {
        NonOwnerWants(m, w);
      } else {
        OwnersHoldShare(m);
        AllAccounted(Owners(m), m);
      }
    } else if Owners(m) == {} {
      AllAccounted({}, m);
    }
  }

  lemma NonOwnerWants(m: Alloc, w: Worker)
    requires w !in Owners(m) && m != map[]
    ensures Hold(m, w) == 0 < Share(m, w)
  {
    assert Mine(m, w) == {} by {
      forall k | k in m && m[k].Some? ensures m[k].value in Owners(m) {}
    }
    CeilDivBounds(|m|, |Owners(m) + {w}|);
  }

  /** If every owner has its share already, the shares cover everything. */
  lemma OwnersHoldShare(m: Alloc)
    requires m != map[] && Owners(m) != {}
    requires forall v :: v in Owners(m) ==> Hold(m, v) >= Share(m, v)
    ensures Sum(Owners(m), HoldIn(m)) >= |m|
    ensures forall v :: v in Owners(m) ==> Hold(m, v) <= Share(m, v)
  {
    var o := Owners(m);
    var t := CeilDiv(|m|, |o|);
    forall v | v in o ensures Share(m, v) == t {
      assert o + {v} == o;
    }
    SumAtLeast(o, HoldIn(m), t);
    CeilDivBounds(|m|, |o|);
    AllAccounted(o, m);
    forall v | v in o ensures Hold(m, v) <= t {
      if Hold(m, v) > t {
        SumAbove(o, HoldIn(m), t, v);
      }
    }
  }

  /** In a settled fleet nobody holds more than its share. */
  lemma SettledWithinShare(m: Alloc, ws: set<Worker>, u: Worker)
    requires Settled(m, ws) && Owners(m) <= ws && ws != {} && m != map[]
    requires u in Owners(m)
    ensures Hold(m, u) <= CeilDiv(|m|, |Owners(m)|)
    ensures (exists w :: w in ws && w !in Owners(m)) ==> Hold(m, u) <= CeilDiv(|m|, |Owners(m)| + 1)
  {
    var o := Owners(m);
    SettledHoldsAll(m, ws);
    if w :| w in ws && w !in o {
      NonOwnerWants(m, w);
      assert TakeOk(m, w, 1, {});
      assert |o + {w}| == |o| + 1;
    }
    assert o + {u} == o;
    if forall v :: v in o ==> Hold(m, v) >= Share(m, v) {
      OwnersHoldShare(m);
    } else {
      var v :| v in o && Hold(m, v) < Share(m, v);
      assert TakeOk(m, v, 1, {});
      assert o + {v} == o;
    }
  }

  /**
   A settled fleet is fair: nobody holds more than an equal split among the owners, rounded
   up, and if some participant holds nothing, among the owners and one more.
   */
  lemma SettledIsFair(m: Alloc, ws: set<Worker>, u: Worker)
    requires Settled(m, ws) && Owners(m) <= ws && ws != {} && m != map[]
    requires u in Owners(m)
    ensures (Hold(m, u) - 1) * |Owners(m)| < |m|
    ensures (exists w :: w in ws && w !in Owners(m)) ==> (Hold(m, u) - 1) * (|Owners(m)| + 1) < |m|
  {
    hide *;
    SettledWithinShare(m, ws, u);
    OwnerHolds(m, u);
    UpToCeiling(Hold(m, u), |m|, |Owners(m)|);
    if exists w :: w in ws && w !in Owners(m) {
      UpToCeiling(Hold(m, u), |m|, |Owners(m)| + 1);
    }
  }

  lemma OwnerHolds(m: Alloc, u: Worker)
    requires u in Owners(m)
    ensures Hold(m, u) > 0 && |Owners(m)| > 0
  {
    var k :| k in m && m[k].Some? && m[k].value == u;
    assert k in Mine(m, u);
  }
}
