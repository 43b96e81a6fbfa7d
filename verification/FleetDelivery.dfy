/**
 The delivery theorems, read off the history of deliveries: gap-free and in order, nothing
 skipped or completed too early, and every ancestor's records first.
 */
module FleetDelivery {
  import opened Types
  import opened LeaseTable
  import opened Fleet
  import opened FleetFrames
  import opened FleetSafety

  /** Event `i` handed over the record at position `k` of shard `s`. */
  predicate Covers(hist: seq<Event>, i: int, s: ShardId, k: nat) {
    0 <= i < |hist| && hist[i].shard == s && hist[i].lo <= k < hist[i].hi
  }

  ghost predicate Delivered(hist: seq<Event>, s: ShardId, k: nat) {
    exists i :: Covers(hist, i, s, k)
  }

  /** The n-fold parent of `s`. */
  function Up(config: Config, s: ShardId, n: nat): Option<ShardId> {
    if n == 0 then Some(s)
    else match Up(config, s, n - 1)
         case None => None
         case Some(p) => if p in config.parent then config.parent[p] else None
  }

  ghost predicate Ancestor(config: Config, a: ShardId, s: ShardId) {
    exists n: nat :: n > 0 && Up(config, s, n) == Some(a)
  }

  /** How far a history has delivered a shard without a gap. */
  function Frontier(hist: seq<Event>, s: ShardId): nat {
    if hist == [] then 0
    else
      var f := Frontier(hist[..|hist| - 1], s);
      var e := hist[|hist| - 1];
      if e.shard == s && e.lo <= f then Max(f, e.hi) else f
  }

  // ---- The history invariant ---------------------------------------------------------

  /** Delivery `i` starts inside what was already delivered, and after all ancestors. */
  ghost predicate EventOk(st: State, i: nat)
    requires i < |st.hist|
  {
    var e := st.hist[i];
    && e.lo < e.hi && e.lo <= Frontier(st.hist[..i], e.shard)
    && forall a :: Ancestor(st.config, a, e.shard) ==>
         a in st.logs && st.logs[a].closed && Frontier(st.hist[..i], a) == st.logs[a].len
  }

  ghost predicate HistInv(st: State) {
    && (forall s :: Front(st, s) == Frontier(st.hist, s))
    && (forall i :: 0 <= i < |st.hist| ==> EventOk(st, i))
  }

  lemma {:induction false} AncestorDrained(st: State, s: ShardId, a: ShardId, n: nat)
    requires Inv(st) && s in st.published && n > 0 && Up(st.config, s, n) == Some(a)
    ensures a in st.published && Drained(st, a)
    decreases n
  {
    var mid := Up(st.config, s, n - 1).value;
    if n > 1 {
      AncestorDrained(st, s, mid, n - 1);
    }
    assert LineageOk(st, mid);
  }

  lemma FrontierStep(h: seq<Event>, e: Event, s: ShardId)
    ensures Frontier(h + [e], s) ==
            if e.shard == s && e.lo <= Frontier(h, s) then Max(Frontier(h, s), e.hi) else Frontier(h, s)
  {
    assert (h + [e])[..|h|] == h;
  }

  /** Old deliveries stay accounted for: a closed log is final and their prefix untouched. */
  lemma EventsStay(st: State, st': State)
    requires Inv(st) && Grows(st, st') && st.hist <= st'.hist
    requires forall i :: 0 <= i < |st.hist| ==> EventOk(st, i)
    ensures forall i :: 0 <= i < |st.hist| ==> EventOk(st', i)
  {
    forall i | 0 <= i < |st.hist| ensures EventOk(st', i) {
      assert EventOk(st, i);
      assert st'.hist[..i] == st.hist[..i];
    }
  }

  lemma ToldKeepsHist(st: State, st': State, e: Event)
    requires Inv(st) && HistInv(st) && Grows(st, st')
    requires st'.hist == Told(st, e).hist && st'.front == Told(st, e).front
    requires e.shard in st.published && e.lo < e.hi && e.lo <= Front(st, e.shard)
    ensures HistInv(st')
  {
    forall s ensures Front(st', s) == Frontier(st'.hist, s) {
      FrontierStep(st.hist, e, s);
    }
    EventsStay(st, st');
    assert st'.hist[..|st.hist|] == st.hist;
    forall a: ShardId | Ancestor(st.config, a, e.shard) ensures Drained(st, a) {
      var n: nat :| n > 0 && Up(st.config, e.shard, n) == Some(a);
      AncestorDrained(st, e.shard, a, n);
    }
    assert EventOk(st', |st.hist|);
  }

  predicate SameStory(st: State, st': State) {
    && st'.hist == st.hist && st'.front == st.front && st'.logs == st.logs
    && st'.config == st.config && st.published <= st'.published
  }

  lemma PassesTellNothing(st: State, a: Action)
    requires Enabled(st, a) && OfPass(a) && !Tells(a)
    ensures SameStory(st, Apply(st, a))
  {
    hide Enabled, Apply;
    PassFramed(st, a);
  }

  /** Every step but a delivery leaves the history and the frontiers alone. */
  lemma OnlyDeliveriesTell(st: State, a: Action)
    requires Enabled(st, a) && !Tells(a) && !a.Append? && !a.Close?
    ensures SameStory(st, Apply(st, a))
  {
    if OfPass(a) {
      PassesTellNothing(st, a);
    }
  }

  lemma QuietKeepsHist(st: State, st': State)
    requires Inv(st) && HistInv(st) && Grows(st, st')
    requires st'.hist == st.hist && st'.front == st.front
    ensures HistInv(st')
  {
    EventsStay(st, st');
  }

  lemma TellingKeepsHist(st: State, w: Worker, s: ShardId, reply: Reply, due: bool)
    requires Inv(st) && HistInv(st) && HasPass(st, w, s) && PassOf(st, w, s).phase.Holding? && !reply.Failed?
    ensures HistInv(Fleet.Delivered(st, w, s, reply, due))
  {
    var p := PassOf(st, w, s);
    assert LocalOk(st, At(st, w)) && PassOk(st, s, p);
    DeliverGrows(st, w, s, reply, due);
    ToldKeepsHist(st, Fleet.Delivered(st, w, s, reply, due), Event(w, p.id, s, p.after, p.after + p.phase.count));
  }

  lemma StepKeepsHist(st: State, a: Action)
    requires Inv(st) && HistInv(st) && Enabled(st, a)
    ensures HistInv(Apply(st, a))
  {
    if Tells(a) {
      TellingKeepsHist(st, a.w, a.s, a.reply, a.due);
    } else if a.Append? || a.Close? {
      QuietKeepsHist(st, Apply(st, a));
    } else {
      OnlyDeliveriesTell(st, a);
      QuietKeepsHist(st, Apply(st, a));
    }
  }

  lemma {:induction false} HistAlways(st: State, acts: seq<Action>)
    requires Inv(st) && HistInv(st) && Runs(st, acts)
    ensures Inv(After(st, acts)) && HistInv(After(st, acts))
    decreases |acts|
  {
    if acts != [] {
      StepKeepsInv(st, acts[0]);
      StepKeepsHist(st, acts[0]);
      HistAlways(Apply(st, acts[0]), acts[1..]);
    }
  }

  // ---- From frontiers to records -----------------------------------------------------

  /** Every delivery of the history starts inside what the earlier ones delivered. */
  ghost predicate Contiguous(hist: seq<Event>) {
    forall i :: 0 <= i < |hist| ==> hist[i].lo <= Frontier(hist[..i], hist[i].shard)
  }

  lemma ContiguousPrefix(hist: seq<Event>, j: nat)
    requires Contiguous(hist) && j <= |hist|
    ensures Contiguous(hist[..j])
  {
    forall i | 0 <= i < j ensures hist[..j][i].lo <= Frontier(hist[..j][..i], hist[..j][i].shard) {
      assert hist[..j][..i] == hist[..i];
    }
  }

  lemma DeliveredStep(h: seq<Event>, e: Event, s: ShardId, k: nat)
    ensures Delivered(h + [e], s, k) <==> Delivered(h, s, k) || (e.shard == s && e.lo <= k < e.hi)
  {
    if Delivered(h, s, k) {
      var i :| Covers(h, i, s, k);
      assert Covers(h + [e], i, s, k);
    }
    if Delivered(h + [e], s, k) {
      var i :| Covers(h + [e], i, s, k);
      assert i < |h| ==> Covers(h, i, s, k);
    }
    if e.shard == s && e.lo <= k < e.hi {
      assert Covers(h + [e], |h|, s, k);
    }
  }

  /** In a contiguous history the delivered positions of a shard are exactly a prefix. */
  lemma {:induction false} DeliveredIsPrefix(hist: seq<Event>, s: ShardId, k: nat)
    requires Contiguous(hist)
    ensures Delivered(hist, s, k) <==> k < Frontier(hist, s)
    decreases |hist|
  {
    if hist != [] {
      var h, e := hist[..|hist| - 1], hist[|hist| - 1];
      assert hist == h + [e];
      ContiguousPrefix(hist, |h|);
      DeliveredIsPrefix(h, s, k);
      DeliveredStep(h, e, s, k);
      FrontierStep(h, e, s);
      assert e.lo <= Frontier(h, e.shard);
    }
  }

  // ---- The theorems ------------------------------------------------------------------

  /** Everything before a batch was delivered before the batch, and the batch is in the log. */
  ghost predicate GapFreeInOrder(st: State) {
    forall j :: 0 <= j < |st.hist| ==>
      var e := st.hist[j];
      && e.shard in st.logs && e.lo < e.hi <= st.logs[e.shard].len
      && forall k: nat :: k < e.lo ==> Delivered(st.hist[..j], e.shard, k)
  }

  /** No durable checkpoint and no deferred ack covers an undelivered record. */
  ghost predicate NothingSkipped(st: State) {
    && (forall s, k: nat :: s in st.table && k < st.table[s].checkpoint ==> Delivered(st.hist, s, k))
    && (forall w: Worker, s, k: nat :: s in At(st, w).pending && k < At(st, w).pending[s].ack ==>
          Delivered(st.hist, s, k))
  }

  /** A completed shard is closed and every record of it has been delivered. */
  ghost predicate CompleteMeansDelivered(st: State) {
    forall s :: s in st.table && st.table[s].completed ==>
      && s in st.logs && st.logs[s].closed
      && forall k: nat :: k < st.logs[s].len ==> Delivered(st.hist, s, k)
  }

  /** Every record of every ancestor was delivered strictly before any record of the shard. */
  ghost predicate AncestorsFirst(st: State) {
    forall j :: 0 <= j < |st.hist| ==>
      forall a :: Ancestor(st.config, a, st.hist[j].shard) ==>
        && a in st.logs && st.logs[a].closed
        && forall m: nat :: m < st.logs[a].len ==> Delivered(st.hist[..j], a, m)
  }

  lemma EventWithinLog(st: State, j: nat)
    requires Inv(st) && HistInv(st) && Contiguous(st.hist) && j < |st.hist|
    ensures st.hist[j].shard in st.logs && st.hist[j].hi <= st.logs[st.hist[j].shard].len
  {
    var e := st.hist[j];
    assert EventOk(st, j);
    assert Covers(st.hist, j, e.shard, e.hi - 1);
    DeliveredIsPrefix(st.hist, e.shard, e.hi - 1);
    assert Front(st, e.shard) >= e.hi;
  }

  lemma EventsContiguous(st: State)
    requires HistInv(st)
    ensures Contiguous(st.hist)
  {
    forall i | 0 <= i < |st.hist| ensures st.hist[i].lo <= Frontier(st.hist[..i], st.hist[i].shard) {
      assert EventOk(st, i);
    }
  }

  lemma OrderHolds(st: State)
    requires Inv(st) && HistInv(st) && Contiguous(st.hist)
    ensures GapFreeInOrder(st)
  {
    forall j | 0 <= j < |st.hist|
      ensures var e := st.hist[j];
              && e.shard in st.logs && e.lo < e.hi <= st.logs[e.shard].len
              && forall k: nat :: k < e.lo ==> Delivered(st.hist[..j], e.shard, k)
    {
      assert EventOk(st, j);
      EventWithinLog(st, j);
      ContiguousPrefix(st.hist, j);
      forall k: nat | k < st.hist[j].lo ensures Delivered(st.hist[..j], st.hist[j].shard, k) {
        DeliveredIsPrefix(st.hist[..j], st.hist[j].shard, k);
      }
    }
  }

  lemma AncestryHolds(st: State)
    requires HistInv(st) && Contiguous(st.hist)
    ensures AncestorsFirst(st)
  {
    forall j, a: ShardId | 0 <= j < |st.hist| && Ancestor(st.config, a, st.hist[j].shard)
      ensures a in st.logs && st.logs[a].closed
      ensures forall m: nat :: m < st.logs[a].len ==> Delivered(st.hist[..j], a, m)
    {
      assert EventOk(st, j);
      ContiguousPrefix(st.hist, j);
      forall m: nat | m < st.logs[a].len ensures Delivered(st.hist[..j], a, m) {
        DeliveredIsPrefix(st.hist[..j], a, m);
      }
    }
  }

  lemma CoverageHolds(st: State)
    requires Inv(st) && HistInv(st) && Contiguous(st.hist)
    ensures NothingSkipped(st) && CompleteMeansDelivered(st)
  {
    forall s: ShardId, k: nat ensures Delivered(st.hist, s, k) <==> k < Front(st, s) {
      DeliveredIsPrefix(st.hist, s, k);
    }
    forall w: Worker, s, k: nat | s in At(st, w).pending && k < At(st, w).pending[s].ack
      ensures Delivered(st.hist, s, k)
    {
      assert LocalOk(st, At(st, w));
    }
  }

  /** Delivery safety of every reachable state of the fleet. */
  lemma DeliverySafety(st: State, acts: seq<Action>)
    requires Init(st) && Runs(st, acts)
    ensures var end := After(st, acts);
            GapFreeInOrder(end) && NothingSkipped(end) && CompleteMeansDelivered(end) && AncestorsFirst(end)
  {
    HistAlways(st, acts);
    EventsContiguous(After(st, acts));
    OrderHolds(After(st, acts));
    AncestryHolds(After(st, acts));
    CoverageHolds(After(st, acts));
  }
}
