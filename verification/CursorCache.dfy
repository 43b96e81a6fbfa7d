/**
 The stream source: one threaded iterator is cached per shard so that a poll need not derive
 a new one. Over any sequence of calls, repositionings, expiries and even trims, each answer
 is one that a source without a cache could give.
 */
module CursorCache {
  import opened Types

  /** Sequence numbers are opaque tokens; a log lists its own in order, the oldest ones trimmed. */
  datatype ShardLog = ShardLog(seqs: seq<nat>, closed: bool, trimmed: nat)

  /** `pos` is where the iterator stands in its shard's log; callers cannot look inside. */
  datatype Iter = Iter(shard: ShardId, pos: nat, id: nat)

  /** Recoverable: the iterator expired or its data is trimmed. */
  datatype Reply<+T> = Ok(value: T) | Recoverable | Failed

  datatype Page = Page(records: seq<nat>, next: Option<Iter>)

  datatype Batch = Batch(records: seq<nat>, end: bool)

  /** None is TRIM_HORIZON. */
  type Position = Option<nat>

  predicate LogOk(log: ShardLog) {
    log.trimmed <= |log.seqs| && forall i, j :: 0 <= i < j < |log.seqs| ==> log.seqs[i] != log.seqs[j]
  }

  function IndexOf(s: seq<nat>, t: nat): (i: nat)
    requires t in s
    ensures i < |s| && s[i] == t
  {
    if s[0] == t then 0 else 1 + IndexOf(s[1..], t)
  }

  predicate Known(log: ShardLog, after: Position) {
    after.Some? ==> after.value in log.seqs
  }

  /** The place in the log right after a position. */
  function PlaceOf(log: ShardLog, after: Position): nat
    requires Known(log, after)
  {
    match after
    case None => 0
    case Some(t) => IndexOf(log.seqs, t) + 1
  }

  /** Where a read after `after` may start: right there, or at the oldest record left if that is later. */
  predicate StartsAt(log: ShardLog, after: Position, start: nat)
    requires Known(log, after)
  {
    && PlaceOf(log, after) <= start <= |log.seqs|
    && (start == PlaceOf(log, after) || start <= log.trimmed)
  }

  /** A batch that a source without a cache could return. */
  ghost predicate FreshBatch(log: ShardLog, after: Position, b: Batch)
    requires Known(log, after)
  {
    exists start: nat :: StartsAt(log, after, start) && BatchFrom(log, start, b)
  }

  predicate BatchFrom(log: ShardLog, start: nat, b: Batch) {
    && start + |b.records| <= |log.seqs| && b.records == log.seqs[start..start + |b.records|]
    && (b.end ==> log.closed && start + |b.records| == |log.seqs|)
  }

  // ---- The service -------------------------------------------------------------------

  datatype Change = Grow(shard: ShardId, seqs: seq<nat>) | CloseShard(shard: ShardId) | Trim(shard: ShardId, upto: nat)

  /** What happens before a call and how it is answered. */
  datatype Answer = Answer(changes: seq<Change>, expired: set<nat>, count: nat, last: bool, fails: bool)

  ghost predicate LogEvolves(a: ShardLog, b: ShardLog) {
    && a.seqs <= b.seqs && a.trimmed <= b.trimmed && (a.closed ==> b.closed && b.seqs == a.seqs)
  }

  ghost predicate Evolves(a: map<ShardId, ShardLog>, b: map<ShardId, ShardLog>) {
    a.Keys == b.Keys && forall s :: s in a ==> LogEvolves(a[s], b[s])
  }

  predicate CanChange(logs: map<ShardId, ShardLog>, c: Change) {
    && c.shard in logs
    && match c
       case Grow(s, seqs) => !logs[s].closed && LogOk(logs[s].(seqs := logs[s].seqs + seqs))
       case CloseShard(_) => true
       case Trim(s, upto) => logs[s].trimmed <= upto <= |logs[s].seqs|
  }

  function Changed(logs: map<ShardId, ShardLog>, c: Change): map<ShardId, ShardLog>
    requires CanChange(logs, c)
  {
    var log := logs[c.shard];
    logs[c.shard := match c
                    case Grow(_, seqs) => log.(seqs := log.seqs + seqs)
                    case CloseShard(_) => log.(closed := true)
                    case Trim(_, upto) => log.(trimmed := upto)]
  }

  /** How a call came out: answered, refused because the iterator or the position is stale, or failed. */
  datatype Verdict = Answered | Stale | Broke

  function VerdictOf<T>(r: Reply<T>): Verdict {
    match r
    case Ok(_) => Answered
    case Recoverable => Stale
    case Failed => Broke
  }

  function Refusals(calls: seq<Verdict>): nat {
    multiset(calls)[Stale]
  }

  lemma RefusedFirst(more: seq<Verdict>)
    ensures Refusals([Stale] + more) >= 2 <==> Stale in more
  {
    assert multiset([Stale] + more) == multiset([Stale]) + multiset(more);
  }

  lemma AnsweredFirst(v: Verdict)
    ensures Refusals([v]) <= 1
  {
  }

  /** The next call fails outright; past the end of the script every call does. */
  predicate Fails(script: seq<Answer>) {
    script == [] || script[0].fails
  }

  /** No call fails, and no iterator expires. */
  predicate Untroubled(script: seq<Answer>) {
    forall i :: 0 <= i < |script| ==> !script[i].fails && script[i].expired == {}
  }

  /** Every fetch gives at least one record where there is one. */
  predicate Giving(script: seq<Answer>) {
    forall i :: 0 <= i < |script| ==> script[i].count > 0
  }

  lemma LaterOf(script: seq<Answer>, n: nat)
    ensures Untroubled(script) ==> Untroubled(Later(script, n))
    ensures Giving(script) ==> Giving(Later(script, n))
  {
  }

  class Service {
    var logs: map<ShardId, ShardLog>
    var expired: set<nat>
    var issued: nat
    var script: seq<Answer>
    ghost var verdicts: seq<Verdict>   // History: how every call so far came out.

    ghost predicate Valid()
      reads this
    {
      forall s :: s in logs ==> LogOk(logs[s])
    }

    constructor (logs: map<ShardId, ShardLog>, script: seq<Answer>)
      requires forall s :: s in logs ==> LogOk(logs[s])
      ensures Valid() && this.logs == logs
    {
      this.logs, this.script, issued, expired, verdicts := logs, script, 0, {}, [];
    }

    /** Logs grow, close and are trimmed, iterators expire; then the call is answered. */
    method Advance() returns (a: Answer)
      requires Valid()
      modifies this`logs, this`expired, this`script
      ensures Valid() && Evolves(old(logs), logs)
      ensures (a.fails <==> Fails(old(script))) && (old(script) != [] ==> a == old(script)[0])
      ensures script == Later(old(script), 1)
      ensures expired == old(expired) + if old(script) == [] then {} else old(script)[0].expired
    {
      a := if script == [] then Answer([], {}, 0, false, true) else script[0];
      script := if script == [] then [] else script[1..];
      expired := expired + a.expired;
      for i := 0 to |a.changes|
        invariant Valid() && Evolves(old(logs), logs) && expired == old(expired) + a.expired
        invariant script == Later(old(script), 1)
      {
        if CanChange(logs, a.changes[i]) {
          logs := Changed(logs, a.changes[i]);
        }
      }
    }

    method DeriveIterator(shard: ShardId, after: Position) returns (r: Reply<Option<Iter>>)
      requires Valid() && shard in logs && Known(logs[shard], after)
      modifies this
      ensures Valid() && Evolves(old(logs), logs)
      ensures r.Ok? && r.value.Some? ==>
        r.value.value.shard == shard && Known(logs[shard], after) && StartsAt(logs[shard], after, r.value.value.pos)
      ensures r.Ok? && r.value.None? ==>
        Known(logs[shard], after) && logs[shard].closed && StartsAt(logs[shard], after, |logs[shard].seqs|)
      ensures r.Ok? && after.None? ==>
        logs[shard].trimmed == if r.value.Some? then r.value.value.pos else |logs[shard].seqs|
      ensures r.Failed? <==> Fails(old(script))
      ensures Known(logs[shard], after)
      ensures r.Recoverable? <==>
        !Fails(old(script)) && after.Some? && PlaceOf(logs[shard], after) <= logs[shard].trimmed
      ensures verdicts == old(verdicts) + [VerdictOf(r)] && script == Later(old(script), 1)
      ensures Untroubled(old(script)) ==> expired == old(expired)
    {
      var a := Advance();
      StartStays(old(logs)[shard], logs[shard], after, 0);
      r := Derived(a, shard, after);
      if r.Ok? && r.value.Some? {
        issued := issued + 1;
      }
      verdicts := verdicts + [VerdictOf(r)];
    }

    /** What the service answers when asked for an iterator. */
    function Derived(a: Answer, shard: ShardId, after: Position): Reply<Option<Iter>>
      requires shard in logs && Known(logs[shard], after)
      reads this
    {
      var log := logs[shard];
      var pos := if after.None? then log.trimmed else PlaceOf(log, after);
      if a.fails then Failed
      else if after.Some? && pos <= log.trimmed then Recoverable
      else if a.last && log.closed && pos == |log.seqs| then Ok(None)
      else Ok(Some(Iter(shard, pos, issued + 1)))
    }

    method GetRecords(it: Iter) returns (r: Reply<Page>)
      requires Valid() && it.shard in logs && it.pos <= |logs[it.shard].seqs|
      modifies this
      ensures Valid() && Evolves(old(logs), logs)
      ensures r.Ok? ==> var log, n := logs[it.shard], |r.value.records|;
        && it.pos + n <= |log.seqs| && r.value.records == log.seqs[it.pos..it.pos + n]
        && (r.value.next.Some? ==> r.value.next.value.shard == it.shard && r.value.next.value.pos == it.pos + n)
        && (r.value.next.None? ==> log.closed && it.pos + n == |log.seqs|)
      ensures r.Failed? <==> Fails(old(script))
      ensures r.Recoverable? <==>
        !Fails(old(script)) && (it.id in expired || it.pos < logs[it.shard].trimmed)
      ensures r.Ok? && Giving(old(script)) ==> r.value.records != [] || it.pos == |logs[it.shard].seqs|
      ensures verdicts == old(verdicts) + [VerdictOf(r)] && script == Later(old(script), 1)
      ensures Untroubled(old(script)) ==> expired == old(expired)
    {
      var a := Advance();
      r := Paged(a, it);
      if r.Ok? && r.value.next.Some? {
        issued := issued + 1;
      }
      verdicts := verdicts + [VerdictOf(r)];
    }

    /** What the service answers to a fetch. */
    function Paged(a: Answer, it: Iter): Reply<Page>
      requires it.shard in logs && it.pos <= |logs[it.shard].seqs|
      reads this
    {
      var log := logs[it.shard];
      var n := Min(a.count, |log.seqs| - it.pos);
      var records := log.seqs[it.pos..it.pos + n];
      if a.fails then Failed
      else if it.id in expired || it.pos < log.trimmed then Recoverable
      else if a.last && log.closed && it.pos + n == |log.seqs| then Ok(Page(records, None))
      else Ok(Page(records, Some(Iter(it.shard, it.pos + n, issued + 1))))
    }
  }

  // ---- The source --------------------------------------------------------------------

  datatype Cursor = Cursor(after: Position, handle: Iter)

  /** The last delivered position, or the requested one after an empty poll. */
  function AdvancedAfter(after: Position, records: seq<nat>): Position {
    if records == [] then after else Some(records[|records| - 1])
  }

  /** A cached iterator stands right after its recorded position. */
  predicate CursorOk(logs: map<ShardId, ShardLog>, s: ShardId, c: Cursor) {
    && s in logs && c.handle.shard == s && Known(logs[s], c.after) && StartsAt(logs[s], c.after, c.handle.pos)
  }

  /** Cursors may have gone, but what is there was there before. */
  predicate NoneNew(before: map<ShardId, Cursor>, now: map<ShardId, Cursor>) {
    forall s :: s in now ==> s in before && now[s] == before[s]
  }

  lemma OneGone(before: map<ShardId, Cursor>, now: map<ShardId, Cursor>, shard: ShardId)
    requires NoneNew(before, now)
    ensures NoneNew(before, now - {shard})
  {
  }

  lemma NoneNewOn(a: map<ShardId, Cursor>, b: map<ShardId, Cursor>, c: map<ShardId, Cursor>)
    requires NoneNew(a, b) && NoneNew(b, c)
    ensures NoneNew(a, c)
  {
  }

  lemma NoneHere(a: map<ShardId, Cursor>, b: map<ShardId, Cursor>, shard: ShardId)
    requires NoneNew(a, b) && shard !in a
    ensures shard !in b
  {
  }

  lemma NoneNewSelf(a: map<ShardId, Cursor>)
    ensures NoneNew(a, a)
  {
  }

  lemma {:induction false} IndexInPrefix(s: seq<nat>, more: seq<nat>, t: nat)
    requires t in s && s <= more
    ensures t in more && IndexOf(more, t) == IndexOf(s, t)
    decreases |s|
  {
    assert s[0] == more[0];
    if s[0] != t {
      assert s[1..] <= more[1..];
      IndexInPrefix(s[1..], more[1..], t);
    }
  }

  lemma {:induction false} IndexUnique(s: seq<nat>, i: nat)
    requires i < |s| && forall i, j :: 0 <= i < j < |s| ==> s[i] != s[j]
    ensures IndexOf(s, s[i]) == i
    decreases i
  {
    if i > 0 {
      assert s[1..][i - 1] == s[i];
      IndexUnique(s[1..], i - 1);
    }
  }

  /** Positions keep their place while the log evolves. */
  lemma StartStays(a: ShardLog, b: ShardLog, after: Position, start: nat)
    requires LogEvolves(a, b) && Known(a, after)
    ensures Known(b, after) && PlaceOf(b, after) == PlaceOf(a, after)
    ensures StartsAt(a, after, start) ==> StartsAt(b, after, start)
  {
    if after.Some? {
      IndexInPrefix(a.seqs, b.seqs, after.value);
    }
  }

  lemma StartInLog(log: ShardLog, after: Position, start: nat)
    requires Known(log, after) && StartsAt(log, after, start)
    ensures start <= |log.seqs|
  {
  }

  lemma CursorStays(a: map<ShardId, ShardLog>, b: map<ShardId, ShardLog>, s: ShardId, c: Cursor)
    requires Evolves(a, b) && CursorOk(a, s, c)
    ensures CursorOk(b, s, c)
  {
    StartStays(a[s], b[s], c.after, c.handle.pos);
  }

  lemma EvolvesAt(a: map<ShardId, ShardLog>, b: map<ShardId, ShardLog>, s: ShardId)
    requires Evolves(a, b) && s in a
    ensures s in b && LogEvolves(a[s], b[s])
  {
  }

  lemma EvolvesSelf(a: map<ShardId, ShardLog>)
    ensures Evolves(a, a)
  {
  }

  lemma EvolvesOn(a: map<ShardId, ShardLog>, b: map<ShardId, ShardLog>, c: map<ShardId, ShardLog>)
    requires Evolves(a, b) && Evolves(b, c)
    ensures Evolves(a, c)
  {
  }

  /** After a non-empty batch the iterator stands right after its last record. */
  lemma Advances(log: ShardLog, after: Position, start: nat, records: seq<nat>)
    requires LogOk(log) && Known(log, after) && StartsAt(log, after, start)
    requires start + |records| <= |log.seqs| && records == log.seqs[start..start + |records|]
    ensures Known(log, AdvancedAfter(after, records))
    ensures StartsAt(log, AdvancedAfter(after, records), start + |records|)
  {
    if records != [] {
      assert records[|records| - 1] == log.seqs[start + |records| - 1];
      IndexUnique(log.seqs, start + |records| - 1);
    }
  }

  /** What a fetch may give: the records from `start` on and the iterator after them, or the end. */
  predicate FetchOk(log: ShardLog, shard: ShardId, after: Position, r: Reply<Option<Page>>, start: nat)
    requires Known(log, after)
  {
    && !r.Recoverable?
    && (r.Ok? ==> StartsAt(log, after, start))
    && (r.Ok? && r.value.None? ==> log.closed && start == |log.seqs|)
    && (r.Ok? && r.value.Some? ==>
          var page := r.value.value;
          && BatchFrom(log, start, Batch(page.records, page.next.None?))
          && (page.next.Some? ==> page.next.value.shard == shard && page.next.value.pos == start + |page.records|))
  }

  /** The calls made in between, in order, and what they used up of the script. */
  ghost predicate Called(before: seq<Verdict>, after: seq<Verdict>, script: seq<Answer>, script': seq<Answer>, calls: seq<Verdict>) {
    after == before + calls && script' == Later(script, |calls|)
  }

  /** What the service gives through an iterator that stands at `start`. */
  lemma FetchedOk(log: ShardLog, shard: ShardId, after: Position, page: Reply<Page>, start: nat)
    requires Known(log, after) && StartsAt(log, after, start) && !page.Recoverable?
    requires page.Ok? ==> var n := |page.value.records|;
      && start + n <= |log.seqs| && page.value.records == log.seqs[start..start + n]
      && (page.value.next.Some? ==> page.value.next.value.shard == shard && page.value.next.value.pos == start + n)
      && (page.value.next.None? ==> log.closed && start + n == |log.seqs|)
    ensures FetchOk(log, shard, after, if page.Ok? then Ok(Some(page.value)) else Failed, start)
  {
  }

  lemma FailedOk(log: ShardLog, shard: ShardId, after: Position, start: nat)
    requires Known(log, after)
    ensures FetchOk(log, shard, after, Failed, start)
  {
  }

  lemma EndOk(log: ShardLog, shard: ShardId, after: Position)
    requires Known(log, after) && log.closed && StartsAt(log, after, |log.seqs|)
    ensures FetchOk(log, shard, after, Ok(None), |log.seqs|)
  {
  }

  lemma TrimmedInLog(service: Service, shard: ShardId)
    requires service.Valid() && shard in service.logs
    ensures service.logs[shard].trimmed <= |service.logs[shard].seqs|
  {
  }

  lemma TrimmedStays(a: ShardLog, b: ShardLog, after: Position)
    requires LogEvolves(a, b) && Known(a, after)
    ensures Known(b, after) && (PlaceOf(a, after) <= a.trimmed ==> PlaceOf(b, after) <= b.trimmed)
  {
    StartStays(a, b, after, 0);
  }

  lemma TrimGrows(a: ShardLog, b: ShardLog)
    requires LogEvolves(a, b)
    ensures a.trimmed <= b.trimmed
  {
  }

  /** An iterator for a position never stands before it. */
  lemma NotBefore(a: ShardLog, b: ShardLog, after: Position, pos: nat)
    requires LogEvolves(a, b) && Known(a, after) && StartsAt(a, after, pos)
    ensures Known(b, after) && PlaceOf(b, after) <= pos
  {
    StartStays(a, b, after, pos);
  }

  lemma NoFailures(script: seq<Answer>)
    ensures Untroubled(script) && |script| >= 2 ==> !Fails(script) && !Fails(Later(script, 1))
  {
  }

  lemma NoFailure(script: seq<Answer>)
    ensures Untroubled(script) && script != [] ==> !Fails(script)
  {
  }

  class DdbStreamsSource {
    const service: Service
    var cursors: map<ShardId, Cursor>

    ghost predicate Valid()
      reads this, service
    {
      service.Valid() && forall s :: s in cursors ==> CursorOk(service.logs, s, cursors[s])
    }

    constructor (service: Service)
      requires service.Valid()
      ensures Valid() && this.service == service && cursors == map[]
    {
      this.service, cursors := service, map[];
    }

    /** The cached iterator, if it continues from exactly the requested position. */
    method CachedIterator(shard: ShardId, after: Position) returns (it: Option<Iter>)
      requires Valid()
      ensures it == if shard in cursors && cursors[shard].after == after then Some(cursors[shard].handle) else None
    {
      it := None;
      if shard in cursors && cursors[shard].after == after {
        it := Some(cursors[shard].handle);
      }
    }

    twostate lemma CursorsStay()
      requires old(Valid()) && service.Valid() && Evolves(old(service.logs), service.logs)
      requires NoneNew(old(cursors), cursors)
      ensures Valid()
    {
      forall s | s in cursors ensures CursorOk(service.logs, s, cursors[s]) {
        CursorStays(old(service.logs), service.logs, s, cursors[s]);
      }
    }

    /**
     Derive an iterator for `after`, falling back to TRIM_HORIZON when that data is trimmed.
     Ok(None) is the end of the shard. It fails only if a call does.
     */
    method Derive(shard: ShardId, after: Position) returns (r: Reply<Option<Iter>>, ghost calls: seq<Verdict>)
      requires Valid() && shard in service.logs && Known(service.logs[shard], after)
      modifies this`cursors, service
      ensures Valid() && Evolves(old(service.logs), service.logs) && Known(service.logs[shard], after)
      ensures !r.Recoverable? && NoneNew(old(cursors), cursors)
      ensures r.Ok? && r.value.Some? ==>
        r.value.value.shard == shard && StartsAt(service.logs[shard], after, r.value.value.pos)
      ensures r.Ok? && r.value.None? ==>
        service.logs[shard].closed && StartsAt(service.logs[shard], after, |service.logs[shard].seqs|)
      ensures Called(old(service.verdicts), service.verdicts, old(service.script), service.script, calls)
      ensures r.Failed? <==> Broke in calls
      ensures Refusals(calls) <= 1 && |calls| <= 2
      ensures r == Ok(None) && Stale !in calls ==> shard !in cursors
      ensures Stale in calls ==> after.Some? && PlaceOf(service.logs[shard], after) <= service.logs[shard].trimmed
      ensures Untroubled(old(service.script)) ==>
        service.expired == old(service.expired) && (|old(service.script)| >= 2 ==> r.Ok?)
    {
      hide PlaceOf, LogOk, CursorOk, Untroubled, Fails, Later;
      NoFailures(old(service.script));
      r := service.DeriveIterator(shard, after);
      calls := [VerdictOf(r)];
      EvolvesAt(old(service.logs), service.logs, shard);
      StartStays(old(service.logs)[shard], service.logs[shard], after, 0);
      CursorsStay();
      if r.Recoverable? && after.Some? {
        ghost var logs := service.logs;
        LaterOf(old(service.script), 1);
        LaterLater(old(service.script), 1, 1);
        r := DeriveOldest(shard, after);
        calls := calls + [VerdictOf(r)];
        EvolvesOn(old(service.logs), logs, service.logs);
      } else if r.Ok? && r.value.None? {
        cursors := cursors - {shard};
      }
    }

    /** An iterator for `after`: the cached one, or else a derived one. */
    method Obtain(shard: ShardId, after: Position) returns (r: Reply<Option<Iter>>, ghost calls: seq<Verdict>)
      requires Valid() && shard in service.logs && Known(service.logs[shard], after)
      modifies this`cursors, service
      ensures Valid() && Evolves(old(service.logs), service.logs)
      ensures shard in service.logs && Known(service.logs[shard], after)
      ensures !r.Recoverable? && NoneNew(old(cursors), cursors)
      ensures r.Ok? && r.value.Some? ==>
        r.value.value.shard == shard && StartsAt(service.logs[shard], after, r.value.value.pos)
      ensures r.Ok? && r.value.None? ==>
        service.logs[shard].closed && StartsAt(service.logs[shard], after, |service.logs[shard].seqs|)
      ensures Called(old(service.verdicts), service.verdicts, old(service.script), service.script, calls)
      ensures r.Failed? <==> Broke in calls
      ensures Refusals(calls) <= 1 && |calls| <= 2
      ensures r == Ok(None) && Stale !in calls ==> shard !in cursors
      ensures shard in old(cursors) && old(cursors)[shard].after == after ==>
        calls == [] && r == Ok(Some(old(cursors)[shard].handle))
      ensures Stale in calls ==> after.Some? && PlaceOf(service.logs[shard], after) <= service.logs[shard].trimmed
      ensures Untroubled(old(service.script)) ==>
        service.expired == old(service.expired) && (|old(service.script)| >= 2 ==> r.Ok?)
    {
      hide StartsAt, PlaceOf, Known, LogOk, LogEvolves, Evolves, Untroubled, CursorOk, Later;
      var cached := CachedIterator(shard, after);
      if cached.Some? {
        CachedIsOk(shard);
        EvolvesSelf(service.logs);
        LaterNone(service.script);
        r, calls := Ok(cached), [];
      } else {
        r, calls := Derive(shard, after);
        EvolvesAt(old(service.logs), service.logs, shard);
      }
    }

    /** Restart at TRIM_HORIZON when the records after `after` are trimmed. */
    method DeriveOldest(shard: ShardId, after: Position) returns (r: Reply<Option<Iter>>)
      requires Valid() && shard in service.logs && Known(service.logs[shard], after)
      requires PlaceOf(service.logs[shard], after) <= service.logs[shard].trimmed
      modifies service
      ensures Valid() && Evolves(old(service.logs), service.logs) && Known(service.logs[shard], after)
      ensures PlaceOf(service.logs[shard], after) <= service.logs[shard].trimmed
      ensures !r.Recoverable? && (r.Failed? <==> Fails(old(service.script)))
      ensures r.Ok? && r.value.Some? ==>
        r.value.value.shard == shard && StartsAt(service.logs[shard], after, r.value.value.pos)
      ensures r.Ok? && r.value.None? ==>
        service.logs[shard].closed && StartsAt(service.logs[shard], after, |service.logs[shard].seqs|)
      ensures service.verdicts == old(service.verdicts) + [VerdictOf(r)] && service.script == Later(old(service.script), 1)
      ensures Untroubled(old(service.script)) ==> service.expired == old(service.expired)
    {
      hide PlaceOf, LogOk, CursorOk, Untroubled, Fails, Later;
      r := service.DeriveIterator(shard, None);
      EvolvesAt(old(service.logs), service.logs, shard);
      TrimmedStays(old(service.logs)[shard], service.logs[shard], after);
      CursorsStay();
      TrimmedInLog(service, shard);
    }

    /**
     Fetch through an iterator, deriving a new one once if it has gone stale. It fails only if
     a call does, or if after the iterator the position or the new iterator is refused too.
     */
    method Fetch(shard: ShardId, after: Position, it: Iter)
      returns (r: Reply<Option<Page>>, ghost start: nat, ghost calls: seq<Verdict>)
      requires Valid() && shard in service.logs && Known(service.logs[shard], after)
      requires it.shard == shard && StartsAt(service.logs[shard], after, it.pos)
      modifies this`cursors, service
      ensures Valid() && Evolves(old(service.logs), service.logs) && Known(service.logs[shard], after)
      ensures FetchOk(service.logs[shard], shard, after, r, start)
      ensures NoneNew(old(cursors), cursors)
      ensures Called(old(service.verdicts), service.verdicts, old(service.script), service.script, calls)
      ensures r.Failed? <==> Broke in calls || Refusals(calls) >= 2
      ensures 1 <= |calls| <= 3 && (calls[0] != Stale ==> |calls| == 1)
      ensures (Stale in calls ==> shard !in cursors) && (r == Ok(None) ==> Stale in calls)
      // A position that is trimmed already is refused again.
      ensures after.Some? && PlaceOf(old(service.logs)[shard], after) <= old(service.logs)[shard].trimmed && Stale in calls ==>
        r.Failed?
      ensures Giving(old(service.script)) && r.Ok? && r.value.Some? ==>
        r.value.value.records != [] || start == |service.logs[shard].seqs|
      ensures Untroubled(old(service.script)) ==> service.expired == old(service.expired)
      ensures (&& Untroubled(old(service.script)) && old(service.script) != [] && it.id !in old(service.expired)
               && service.logs[shard].trimmed <= it.pos) ==> r.Ok?
    {
      start := it.pos;
      StartInLog(service.logs[shard], after, start);
      hide StartsAt, PlaceOf, Known, LogOk, LogEvolves, Evolves, CursorOk, Untroubled, Giving, Fails, FetchOk, Later, Refusals, NoneNew;
      var page := service.GetRecords(it);
      calls := [VerdictOf(page)];
      EvolvesAt(old(service.logs), service.logs, shard);
      StartStays(old(service.logs)[shard], service.logs[shard], after, start);
      NoneNewSelf(cursors);
      CursorsStay();
      NoFailure(old(service.script));
      if page.Recoverable? {
        OneGone(cursors, cursors, shard);
        cursors := cursors - {shard};
        CursorsStay();
        ghost var kept := cursors;
        ghost var logs, more := service.logs, [];
        TrimmedStays(old(service.logs)[shard], logs[shard], after);
        LaterOf(old(service.script), 1);
        r, start, more := Refetch(shard, after);
        EvolvesOn(old(service.logs), logs, service.logs);
        EvolvesAt(logs, service.logs, shard);
        NoneNewOn(old(cursors), kept, cursors);
        NoneHere(kept, cursors, shard);
        TrimGrows(logs[shard], service.logs[shard]);
        LaterLater(old(service.script), 1, |more|);
        RefusedFirst(more);
        calls := calls + more;
      } else {
        AnsweredFirst(calls[0]);
        r := if page.Ok? then Ok(Some(page.value)) else Failed;
        FetchedOk(service.logs[shard], shard, after, page, start);
      }
    }

    /** The retry: derive from the position, fetch once, give up on any error. */
    method Refetch(shard: ShardId, after: Position)
      returns (r: Reply<Option<Page>>, ghost start: nat, ghost calls: seq<Verdict>)
      requires Valid() && shard in service.logs && Known(service.logs[shard], after)
      modifies this`cursors, service
      ensures Valid() && Evolves(old(service.logs), service.logs) && Known(service.logs[shard], after)
      ensures FetchOk(service.logs[shard], shard, after, r, start)
      ensures NoneNew(old(cursors), cursors)
      ensures Called(old(service.verdicts), service.verdicts, old(service.script), service.script, calls)
      ensures r.Failed? <==> Broke in calls || Stale in calls
      ensures |calls| <= 2
      ensures after.Some? && PlaceOf(old(service.logs)[shard], after) <= old(service.logs)[shard].trimmed ==> r.Failed?
      ensures Giving(old(service.script)) && r.Ok? && r.value.Some? ==>
        r.value.value.records != [] || start == |service.logs[shard].seqs|
      ensures Untroubled(old(service.script)) ==> service.expired == old(service.expired)
    {
      hide StartsAt, PlaceOf, Known, LogOk, LogEvolves, Evolves, CursorOk, Untroubled, Giving, Fails, FetchOk, Later;
      var derived := service.DeriveIterator(shard, after);
      calls := [VerdictOf(derived)];
      EvolvesAt(old(service.logs), service.logs, shard);
      TrimmedStays(old(service.logs)[shard], service.logs[shard], after);
      CursorsStay();
      if !derived.Ok? {
        FailedOk(service.logs[shard], shard, after, 0);
        return Failed, 0, calls;
      }
      if derived.value.None? {
        EndOk(service.logs[shard], shard, after);
        return Ok(None), |service.logs[shard].seqs|, calls;
      }
      start := derived.value.value.pos;
      ghost var logs := service.logs;
      LaterOf(old(service.script), 1);
      LaterLater(old(service.script), 1, 1);
      StartInLog(service.logs[shard], after, start);
      var page := service.GetRecords(derived.value.value);
      calls := calls + [VerdictOf(page)];
      EvolvesOn(old(service.logs), logs, service.logs);
      EvolvesAt(logs, service.logs, shard);
      StartStays(logs[shard], service.logs[shard], after, start);
      CursorsStay();
      r := if page.Ok? then Ok(Some(page.value)) else Failed;
      if page.Recoverable? {
        FailedOk(service.logs[shard], shard, after, start);
      } else {
        FetchedOk(service.logs[shard], shard, after, page, start);
      }
    }

    /** Keep the threaded iterator for the new position, or nothing at the end of the shard. */
    method StoreCursor(shard: ShardId, after: Position, next: Option<Iter>)
      requires Valid() && (next.Some? ==> CursorOk(service.logs, shard, Cursor(after, next.value)))
      modifies this`cursors
      ensures Valid()
      ensures cursors == if next.Some? then old(cursors)[shard := Cursor(after, next.value)] else old(cursors) - {shard}
    {
      if next.Some? {
        cursors := cursors[shard := Cursor(after, next.value)];
      } else {
        cursors := cursors - {shard};
      }
    }

    /** Thread the next iterator of a page that was fetched from `start`. */
    method Thread(shard: ShardId, after: Position, page: Page, ghost start: nat) returns (batch: Batch)
      requires Valid() && shard in service.logs && Known(service.logs[shard], after)
      requires FetchOk(service.logs[shard], shard, after, Ok(Some(page)), start)
      modifies this`cursors
      ensures Valid() && FreshBatch(service.logs[shard], after, batch) && batch.records == page.records
      ensures !batch.end ==> shard in cursors && cursors[shard].after == AdvancedAfter(after, batch.records)
      ensures batch.end ==> shard !in cursors
      ensures forall s :: s in cursors && s != shard ==> s in old(cursors) && cursors[s] == old(cursors)[s]
    {
      hide StartsAt, PlaceOf, Known, LogOk;
      Advances(service.logs[shard], after, start, page.records);
      StoreCursor(shard, AdvancedAfter(after, page.records), page.next);
      batch := Batch(page.records, page.next.None?);
      assert BatchFrom(service.logs[shard], start, batch);
    }

    /**
     One poll after a position; None is an error. It is an error exactly if a call fails, or
     two are refused: one stale iterator or one trimmed position alone still gives a batch.
     */
    method GetRecords(shard: ShardId, after: Position) returns (batch: Option<Batch>, ghost calls: seq<Verdict>)
      requires Valid() && shard in service.logs && Known(service.logs[shard], after)
      modifies this`cursors, service
      ensures Valid() && Evolves(old(service.logs), service.logs) && Known(service.logs[shard], after)
      ensures batch.Some? ==> FreshBatch(service.logs[shard], after, batch.value)
      ensures batch.Some? && !batch.value.end ==>
        shard in cursors && cursors[shard].after == AdvancedAfter(after, batch.value.records)
      ensures forall s :: s in cursors && s != shard ==> s in old(cursors) && cursors[s] == old(cursors)[s]
      ensures Called(old(service.verdicts), service.verdicts, old(service.script), service.script, calls)
      ensures batch.None? <==> Broke in calls || Refusals(calls) >= 2
      ensures |calls| <= 5
      // At the end of a shard nothing is kept.
      ensures batch.Some? && batch.value.end && Stale !in calls ==> shard !in cursors
      // A cached iterator that is still good answers in one call.
      ensures shard in old(cursors) && old(cursors)[shard].after == after && Stale !in calls ==> |calls| == 1
      ensures Giving(old(service.script)) && batch.Some? ==>
        batch.value.records != [] || StartsAt(service.logs[shard], after, |service.logs[shard].seqs|)
      ensures Untroubled(old(service.script)) ==> service.expired == old(service.expired)
      ensures (&& Untroubled(old(service.script)) && |old(service.script)| >= 3 && old(service.expired) == {}
               && service.logs[shard].trimmed <= PlaceOf(service.logs[shard], after)) ==> batch.Some?
    {
      hide StartsAt, PlaceOf, Known, LogOk, LogEvolves, Evolves, Untroubled, Giving, CursorOk, FreshBatch, Later;
      var obtained;
      obtained, calls := Obtain(shard, after);
      if !obtained.Ok? {
        return None, calls;
      }
      if obtained.value.None? {
        EndIsFresh(service.logs[shard], after, |service.logs[shard].seqs|);
        return Some(Batch([], true)), calls;
      }
      var it := obtained.value.value;
      ghost var logs, first := service.logs, calls;
      LaterOf(old(service.script), |first|);
      LaterSize(old(service.script), |first|);
      var r;
      ghost var start, more;
      r, start, more := Fetch(shard, after, it);
      EvolvesOn(old(service.logs), logs, service.logs);
      EvolvesAt(logs, service.logs, shard);
      LaterLater(old(service.script), |first|, |more|);
      calls := first + more;
      NotBefore(logs[shard], service.logs[shard], after, it.pos);
      if !r.Ok? {
        return None, calls;
      }
      if r.value.None? {
        EndIsFresh(service.logs[shard], after, start);
        return Some(Batch([], true)), calls;
      }
      FetchStarts(service.logs[shard], shard, after, r, start);
      var b := Thread(shard, after, r.value.value, start);
      return Some(b), calls;
    }

    lemma CachedIsOk(shard: ShardId)
      requires Valid() && shard in cursors
      ensures CursorOk(service.logs, shard, cursors[shard]) && cursors[shard].handle.shard == shard
      ensures shard in service.logs && Known(service.logs[shard], cursors[shard].after)
      ensures StartsAt(service.logs[shard], cursors[shard].after, cursors[shard].handle.pos)
    {
    }
  }

  lemma FetchStarts(log: ShardLog, shard: ShardId, after: Position, r: Reply<Option<Page>>, start: nat)
    requires Known(log, after) && FetchOk(log, shard, after, r, start) && r.Ok?
    ensures StartsAt(log, after, start) && (start == |log.seqs| ==> StartsAt(log, after, |log.seqs|))
  {
  }

  /** At the end of a closed shard the batch is empty and the last one. */
  lemma EndIsFresh(log: ShardLog, after: Position, start: nat)
    requires Known(log, after) && StartsAt(log, after, start) && start == |log.seqs| && log.closed
    ensures FreshBatch(log, after, Batch([], true)) && StartsAt(log, after, |log.seqs|)
  {
    assert BatchFrom(log, start, Batch([], true));
  }

  /** What a reader has after some polls from `after`: the next records of the log, up to `pos`. */
  ghost predicate ReadSoFar(log: ShardLog, after: Position, pos: Position, all: seq<nat>)
    requires Known(log, after)
  {
    log.trimmed <= PlaceOf(log, after) ==>
      && Known(log, pos) && PlaceOf(log, pos) == PlaceOf(log, after) + |all| <= |log.seqs|
      && all == log.seqs[PlaceOf(log, after)..PlaceOf(log, after) + |all|]
  }

  lemma ReadStays(a: ShardLog, b: ShardLog, after: Position, pos: Position, all: seq<nat>)
    requires LogEvolves(a, b) && Known(a, after) && ReadSoFar(a, after, pos, all)
    ensures Known(b, after) && ReadSoFar(b, after, pos, all)
  {
    StartStays(a, b, after, 0);
    if Known(a, pos) {
      StartStays(a, b, pos, 0);
    }
  }

  lemma ReadMore(log: ShardLog, after: Position, pos: Position, all: seq<nat>, b: Batch)
    requires LogOk(log) && Known(log, after) && Known(log, pos) && ReadSoFar(log, after, pos, all) && FreshBatch(log, pos, b)
    ensures ReadSoFar(log, after, AdvancedAfter(pos, b.records), all + b.records)
  {
    hide FreshBatch, PlaceOf, LogOk;
    if log.trimmed <= PlaceOf(log, after) {
      ReadMoreHere(log, PlaceOf(log, after), pos, all, b);
    }
  }

  lemma ReadMoreHere(log: ShardLog, from: nat, pos: Position, all: seq<nat>, b: Batch)
    requires LogOk(log) && Known(log, pos) && FreshBatch(log, pos, b)
    requires log.trimmed <= from && PlaceOf(log, pos) == from + |all| <= |log.seqs|
    requires all == log.seqs[from..from + |all|]
    ensures Known(log, AdvancedAfter(pos, b.records))
    ensures PlaceOf(log, AdvancedAfter(pos, b.records)) == from + |all + b.records| <= |log.seqs|
    ensures all + b.records == log.seqs[from..from + |all + b.records|]
  {
    hide FreshBatch, PlaceOf, LogOk;
    FreshBatchIsNext(log, pos, b);
    PlaceAdvances(log, pos, b.records, from + |all|);
    SlicesJoin(log.seqs, from, all, b.records);
  }

  /** The position after a batch that starts right at a position. */
  lemma PlaceAdvances(log: ShardLog, pos: Position, records: seq<nat>, start: nat)
    requires LogOk(log) && Known(log, pos) && start == PlaceOf(log, pos) <= |log.seqs| && records <= log.seqs[start..]
    ensures records == log.seqs[start..start + |records|]
    ensures Known(log, AdvancedAfter(pos, records)) && PlaceOf(log, AdvancedAfter(pos, records)) == start + |records|
  {
    hide IndexOf;
    assert records == log.seqs[start..][..|records|] == log.seqs[start..start + |records|];
    if records != [] {
      assert records[|records| - 1] == log.seqs[start + |records| - 1];
      IndexUnique(log.seqs, start + |records| - 1);
    }
  }

  lemma SlicesJoin(s: seq<nat>, from: nat, all: seq<nat>, more: seq<nat>)
    requires from + |all| + |more| <= |s|
    requires all == s[from..from + |all|] && more == s[from + |all|..from + |all| + |more|]
    ensures |all + more| == |all| + |more| && all + more == s[from..from + |all + more|]
  {
    var whole, slice := all + more, s[from..from + |all| + |more|];
    forall i | 0 <= i < |whole| ensures whole[i] == slice[i] {
      if i >= |all| {
        assert more[i - |all|] == s[from + |all|..from + |all| + |more|][i - |all|];
      }
    }
  }

  /** Each round brought at least one record or an error, unless all there was at the start is read. */
  ghost predicate GotOn(log: ShardLog, after: Position, got: nat, missed: nat, rounds: nat, length: nat, giving: bool)
    requires Known(log, after)
  {
    giving && log.trimmed <= PlaceOf(log, after) ==> got + missed >= rounds || PlaceOf(log, after) + got >= length
  }

  ghost predicate NoneMissed(log: ShardLog, after: Position, missed: nat, quiet: bool)
    requires Known(log, after)
  {
    quiet && log.trimmed <= PlaceOf(log, after) ==> missed == 0
  }

  /** What a reader of `after` has come to in some rounds. */
  ghost predicate Going(log: ShardLog, after: Position, pos: Position, all: seq<nat>, missed: nat, rounds: nat, length: nat,
                        giving: bool, quiet: bool) {
    && Known(log, after) && Known(log, pos) && ReadSoFar(log, after, pos, all)
    && GotOn(log, after, |all|, missed, rounds, length, giving) && NoneMissed(log, after, missed, quiet)
  }

  lemma GainsStay(a: ShardLog, b: ShardLog, after: Position, got: nat, missed: nat, rounds: nat, length: nat, giving: bool, quiet: bool)
    requires LogEvolves(a, b) && Known(a, after)
    requires GotOn(a, after, got, missed, rounds, length, giving) && NoneMissed(a, after, missed, quiet)
    ensures Known(b, after)
    ensures GotOn(b, after, got, missed, rounds, length, giving) && NoneMissed(b, after, missed, quiet)
  {
    StartStays(a, b, after, 0);
  }

  lemma LogIsLonger(a: ShardLog, b: ShardLog)
    requires LogEvolves(a, b)
    ensures |a.seqs| <= |b.seqs|
  {
  }

  lemma LaterSize(script: seq<Answer>, n: nat)
    ensures |Later(script, n)| >= |script| - n
  {
  }

  lemma PollGains(log: ShardLog, after: Position, pos: Position, all: seq<nat>, missed: nat, rounds: nat, length: nat,
                  giving: bool, b: Option<Batch>)
    requires Known(log, after) && Known(log, pos) && ReadSoFar(log, after, pos, all) && length <= |log.seqs|
    requires giving && b.Some? ==> b.value.records != [] || StartsAt(log, pos, |log.seqs|)
    requires GotOn(log, after, |all|, missed, rounds, length, giving)
    ensures b.Some? ==> GotOn(log, after, |all + b.value.records|, missed, rounds + 1, length, giving)
    ensures b.None? ==> GotOn(log, after, |all|, missed + 1, rounds + 1, length, giving)
  {
    hide PlaceOf;
  }

  lemma PollAnswered(log: ShardLog, after: Position, pos: Position, all: seq<nat>, missed: nat, quiet: bool, b: Option<Batch>)
    requires Known(log, after) && Known(log, pos) && ReadSoFar(log, after, pos, all)
    requires quiet && log.trimmed <= PlaceOf(log, pos) ==> b.Some?
    requires NoneMissed(log, after, missed, quiet)
    ensures NoneMissed(log, after, if b.Some? then missed else missed + 1, quiet)
  {
    hide PlaceOf;
  }

  /** The reader's next poll, after a poll of anything else. */
  method Round(source: DdbStreamsSource, shard: ShardId, pos: Position, s: ShardId, p: Position) returns (batch: Option<Batch>)
    requires source.Valid() && shard in source.service.logs && Known(source.service.logs[shard], pos)
    modifies source, source.service
    ensures source.Valid() && Evolves(old(source.service.logs), source.service.logs)
    ensures Known(source.service.logs[shard], pos)
    ensures batch.Some? ==> FreshBatch(source.service.logs[shard], pos, batch.value)
    ensures |source.service.script| >= |old(source.service.script)| - 10
    ensures Giving(old(source.service.script)) ==> Giving(source.service.script)
    ensures Giving(old(source.service.script)) && batch.Some? ==>
      batch.value.records != [] || StartsAt(source.service.logs[shard], pos, |source.service.logs[shard].seqs|)
    ensures Untroubled(old(source.service.script)) ==>
      Untroubled(source.service.script) && source.service.expired == old(source.service.expired)
    ensures (&& Untroubled(old(source.service.script)) && |old(source.service.script)| >= 10
             && old(source.service.expired) == {}
             && source.service.logs[shard].trimmed <= PlaceOf(source.service.logs[shard], pos)) ==> batch.Some?
  {
    hide FreshBatch, PlaceOf, LogOk, CursorOk, Giving, Untroubled, StartsAt, Later, Refusals, Known, Evolves, LogEvolves;
    ghost var logs, script := source.service.logs, source.service.script;
    ghost var calls: seq<Verdict> := [];
    LaterOf(script, 0);
    LaterSize(script, 0);
    EvolvesSelf(logs);
    if s in source.service.logs && Known(source.service.logs[s], p) {
      var ignored;
      ignored, calls := source.GetRecords(s, p);
      LaterOf(script, |calls|);
      LaterSize(script, |calls|);
      EvolvesAt(logs, source.service.logs, shard);
      StartStays(logs[shard], source.service.logs[shard], pos, 0);
    }
    ghost var between, left := source.service.logs, source.service.script;
    batch, calls := source.GetRecords(shard, pos);
    LaterOf(left, |calls|);
    LaterSize(left, |calls|);
    EvolvesOn(logs, between, source.service.logs);
  }

  lemma GoesOn(first: ShardLog, a: ShardLog, b: ShardLog, after: Position, pos: Position, all: seq<nat>, missed: nat,
               rounds: nat, giving: bool, quiet: bool, batch: Option<Batch>)
    requires LogEvolves(first, b) && LogEvolves(a, b) && LogOk(b)
    requires Going(a, after, pos, all, missed, rounds, |first.seqs|, giving, quiet)
    requires Known(b, pos) && (batch.Some? ==> FreshBatch(b, pos, batch.value))
    requires giving && batch.Some? ==> batch.value.records != [] || StartsAt(b, pos, |b.seqs|)
    requires quiet && b.trimmed <= PlaceOf(b, pos) ==> batch.Some?
    ensures batch.Some? ==>
      Going(b, after, AdvancedAfter(pos, batch.value.records), all + batch.value.records, missed, rounds + 1, |first.seqs|, giving, quiet)
    ensures batch.None? ==> Going(b, after, pos, all, missed + 1, rounds + 1, |first.seqs|, giving, quiet)
  {
    hide ReadSoFar, FreshBatch, PlaceOf, LogOk, GotOn, NoneMissed, StartsAt, Known, AdvancedAfter, LogEvolves;
    ReadStays(a, b, after, pos, all);
    GainsStay(a, b, after, |all|, missed, rounds, |first.seqs|, giving, quiet);
    LogIsLonger(first, b);
    PollGains(b, after, pos, all, missed, rounds, |first.seqs|, giving, batch);
    PollAnswered(b, after, pos, all, missed, quiet, batch);
    if batch.Some? {
      BatchKnown(b, pos, batch.value);
      ReadMore(b, after, pos, all, batch.value);
    }
  }

  /** Where a reader is after some rounds. */
  ghost predicate Underway(source: DdbStreamsSource, first: map<ShardId, ShardLog>, script: seq<Answer>, shard: ShardId,
                           after: Position, pos: Position, all: seq<nat>, missed: nat, rounds: nat, giving: bool, quiet: bool)
    reads source, source.service
  {
    && source.Valid() && shard in first && Evolves(first, source.service.logs) && shard in source.service.logs
    && Going(source.service.logs[shard], after, pos, all, missed, rounds, |first[shard].seqs|, giving, quiet)
    && (giving ==> Giving(source.service.script))
    && (quiet ==> Untroubled(source.service.script) && source.service.expired == {})
    && |source.service.script| + 10 * rounds >= |script|
  }

  lemma GoesFirst(log: ShardLog, after: Position, giving: bool, quiet: bool)
    requires Known(log, after)
    ensures Going(log, after, after, [], 0, 0, |log.seqs|, giving, quiet)
  {
    if log.trimmed <= PlaceOf(log, after) && after.Some? {
      assert IndexOf(log.seqs, after.value) < |log.seqs|;
    }
  }

  lemma GoingKnown(log: ShardLog, after: Position, pos: Position, all: seq<nat>, missed: nat, rounds: nat, length: nat,
                   giving: bool, quiet: bool)
    requires Going(log, after, pos, all, missed, rounds, length, giving, quiet)
    ensures Known(log, pos)
  {
  }

  /** What that comes to in the end. */
  lemma GotThere(log: ShardLog, after: Position, pos: Position, all: seq<nat>, missed: nat, rounds: nat, length: nat,
                 giving: bool, quiet: bool)
    requires Going(log, after, pos, all, missed, rounds, length, giving, quiet)
    ensures Known(log, after) && PlaceOf(log, after) <= |log.seqs|
    ensures log.trimmed <= PlaceOf(log, after) ==> all <= log.seqs[PlaceOf(log, after)..]
    ensures giving && log.trimmed <= PlaceOf(log, after) ==> |all| + missed >= rounds || PlaceOf(log, after) + |all| >= length
    ensures quiet && log.trimmed <= PlaceOf(log, after) ==> missed == 0
  {
  }

  method Onward(source: DdbStreamsSource, ghost first: map<ShardId, ShardLog>, ghost script: seq<Answer>, shard: ShardId,
                ghost after: Position, pos: Position, ghost all: seq<nat>, ghost missed: nat, ghost rounds: nat,
                ghost giving: bool, ghost quiet: bool, s: ShardId, p: Position)
    returns (batch: Option<Batch>)
    requires Underway(source, first, script, shard, after, pos, all, missed, rounds, giving, quiet)
    requires quiet ==> |source.service.script| >= 10
    modifies source, source.service
    ensures batch.Some? ==>
      Underway(source, first, script, shard, after, AdvancedAfter(pos, batch.value.records), all + batch.value.records, missed,
               rounds + 1, giving, quiet)
    ensures batch.None? ==>
      Underway(source, first, script, shard, after, pos, all, missed + 1, rounds + 1, giving, quiet)
  {
    hide Going, ReadSoFar, FreshBatch, PlaceOf, LogOk, CursorOk, Giving, Untroubled, GotOn, NoneMissed, StartsAt, Known, Evolves,
      LogEvolves, AdvancedAfter;
    ghost var logs := source.service.logs;
    GoingKnown(logs[shard], after, pos, all, missed, rounds, |first[shard].seqs|, giving, quiet);
    batch := Round(source, shard, pos, s, p);
    EvolvesOn(first, logs, source.service.logs);
    EvolvesAt(logs, source.service.logs, shard);
    EvolvesAt(first, source.service.logs, shard);
    LogIsOk(source, shard);
    GoesOn(first[shard], logs[shard], source.service.logs[shard], after, pos, all, missed, rounds, giving, quiet, batch);
  }

  lemma LogIsOk(source: DdbStreamsSource, shard: ShardId)
    requires source.Valid() && shard in source.service.logs
    ensures LogOk(source.service.logs[shard])
  {
  }

  /**
   Poll after poll, whatever happens to iterators and whatever else is read in between: what a
   reader collects is the next stretch of the log, without a gap or a repeat. If the service
   gives records where there are some, each of the reader's polls that is no error brings it at
   least one record further, until it has all there was at the start; `missed` are the errors,
   and there are none if no call fails and no iterator expires.
   */
  method ReadOn(source: DdbStreamsSource, shard: ShardId, after: Position, others: seq<(ShardId, Position)>)
    returns (all: seq<nat>, ghost missed: nat)
    requires source.Valid() && shard in source.service.logs && Known(source.service.logs[shard], after)
    modifies source, source.service
    ensures source.Valid() && Evolves(old(source.service.logs), source.service.logs)
    ensures var log := source.service.logs[shard];
            Known(log, after) && (log.trimmed <= PlaceOf(log, after) ==> all <= log.seqs[PlaceOf(log, after)..])
    ensures var log := source.service.logs[shard];
            Giving(old(source.service.script)) && log.trimmed <= PlaceOf(log, after) ==>
              || |all| + missed >= |others|
              || PlaceOf(log, after) + |all| >= |old(source.service.logs)[shard].seqs|
    ensures var log := source.service.logs[shard];
            (&& Untroubled(old(source.service.script)) && |old(source.service.script)| >= 10 * |others|
             && old(source.service.expired) == {} && log.trimmed <= PlaceOf(log, after)) ==> missed == 0
  {
    all, missed := [], 0;
    var pos := after;
    EvolvesSelf(source.service.logs);
    GoesFirst(source.service.logs[shard], after, Giving(source.service.script),
              Untroubled(source.service.script) && |source.service.script| >= 10 * |others| && source.service.expired == {});
    hide Going, ReadSoFar, FreshBatch, PlaceOf, LogOk, CursorOk, Giving, Untroubled, GotOn, NoneMissed, StartsAt, Known, Evolves,
      LogEvolves, AdvancedAfter;
    ghost var script0, length := source.service.script, |source.service.logs[shard].seqs|;
    ghost var giving, quiet :=
      Giving(script0), Untroubled(script0) && |script0| >= 10 * |others| && source.service.expired == {};
    ghost var first := source.service.logs;
    for i := 0 to |others|
      invariant Underway(source, first, script0, shard, after, pos, all, missed, i, giving, quiet)
    {
      var batch := Onward(source, first, script0, shard, after, pos, all, missed, i, giving, quiet, others[i].0, others[i].1);
      if batch.Some? {
        all := all + batch.value.records;
        pos := AdvancedAfter(pos, batch.value.records);
      } else {
        missed := missed + 1;
      }
    }
    GotThere(source.service.logs[shard], after, pos, all, missed, |others|, length, giving, quiet);
  }

  lemma BatchKnown(log: ShardLog, pos: Position, b: Batch)
    requires Known(log, pos) && FreshBatch(log, pos, b)
    ensures Known(log, AdvancedAfter(pos, b.records))
  {
    var start: nat :| StartsAt(log, pos, start) && BatchFrom(log, start, b);
    if b.records != [] {
      assert b.records[|b.records| - 1] == log.seqs[start + |b.records| - 1];
    }
  }

  /**
   When nothing after the position has been trimmed, there is only one place to start: the
   batch is a prefix of the log strictly after the position.
   */
  lemma FreshBatchIsNext(log: ShardLog, after: Position, b: Batch)
    requires Known(log, after) && FreshBatch(log, after, b) && log.trimmed <= PlaceOf(log, after)
    ensures b.records <= log.seqs[PlaceOf(log, after)..]
    ensures b.end ==> log.closed && b.records == log.seqs[PlaceOf(log, after)..]
  {
    var start: nat :| StartsAt(log, after, start) && BatchFrom(log, start, b);
  }

  /** In any case no record is skipped that is still there, and none comes twice. */
  lemma FreshBatchSkipsOnlyTrimmed(log: ShardLog, after: Position, b: Batch, k: nat)
    requires Known(log, after) && LogOk(log) && FreshBatch(log, after, b) && b.records != []
    requires k < |log.seqs| && log.seqs[k] == b.records[0]
    ensures PlaceOf(log, after) <= k && (k == PlaceOf(log, after) || k <= log.trimmed)
  {
    var start: nat :| StartsAt(log, after, start) && BatchFrom(log, start, b);
    assert b.records[0] == log.seqs[start];
    IndexUnique(log.seqs, start);
    IndexUnique(log.seqs, k);
  }
}
