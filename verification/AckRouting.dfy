/**
 Ack routing between the sidecar and its client: shard tasks, the reader and the client
 interleave over two pipes, and every delivery gets the ack of its own batch.
 */
module AckRouting {
  import opened Types

  /** A batch of a shard, named by its last sequence number; its ack looks the same. */
  datatype Msg = Msg(shard: ShardId, seqno: nat)

  /** A line from the client. */
  datatype Line = Checkpoint(msg: Msg) | Ready | Blank | Malformed | Stop | Eof

  /** Where the one task of a shard stands (history). */
  datatype Task =
    | Free
    | Registered(waiter: nat, seqno: nat)
    | Sent(waiter: nat, seqno: nat)

  /** How many lines come before the first stop or end of input. */
  function FirstStop(lines: seq<Line>): nat {
    if lines == [] || lines[0].Stop? || lines[0].Eof? then 0 else 1 + FirstStop(lines[1..])
  }

  lemma {:induction false} FirstStopInside(lines: seq<Line>)
    ensures FirstStop(lines) <= |lines|
    ensures forall i :: 0 <= i < FirstStop(lines) ==> !lines[i].Stop? && !lines[i].Eof?
    ensures FirstStop(lines) < |lines| ==> lines[FirstStop(lines)].Stop? || lines[FirstStop(lines)].Eof?
    decreases |lines|
  {
    if lines != [] && !lines[0].Stop? && !lines[0].Eof? {
      FirstStopInside(lines[1..]);
      forall i | 0 < i < FirstStop(lines) ensures !lines[i].Stop? && !lines[i].Eof? {
        assert lines[i] == lines[1..][i - 1];
      }
    }
  }

  lemma StopIsThere(lines: seq<Line>)
    ensures FirstStop(lines) < |lines| <==> exists l :: l in lines && (l.Stop? || l.Eof?)
  {
    FirstStopInside(lines);
    if FirstStop(lines) < |lines| {
      assert lines[FirstStop(lines)] in lines;
    }
  }

  ghost function Acks(lines: seq<Line>): multiset<Msg> {
    if lines == [] then multiset{}
    else Acks(lines[..|lines| - 1]) + if lines[|lines| - 1].Checkpoint? then multiset{lines[|lines| - 1].msg} else multiset{}
  }

  lemma AcksPush(lines: seq<Line>, l: Line)
    ensures Acks(lines + [l]) == Acks(lines) + if l.Checkpoint? then multiset{l.msg} else multiset{}
  {
    assert (lines + [l])[..|lines|] == lines;
  }

  lemma {:induction false} AcksPop(lines: seq<Line>)
    requires lines != []
    ensures Acks(lines) == Acks(lines[1..]) + if lines[0].Checkpoint? then multiset{lines[0].msg} else multiset{}
    decreases |lines|
  {
    if |lines| == 1 {
      assert lines[..0] == [] && lines[1..] == [];
    } else {
      var front, last := lines[..|lines| - 1], lines[|lines| - 1];
      AcksPop(front);
      assert lines[1..] == front[1..] + [last];
      AcksPush(front[1..], last);
    }
  }

  // ---- What one shard's delivery looks like from outside -----------------------------

  ghost predicate NoneFor(s: ShardId, flight: multiset<Msg>) {
    forall m :: m in flight ==> m.shard != s
  }

  ghost predicate OnlyFor(s: ShardId, q: nat, flight: multiset<Msg>) {
    flight[Msg(s, q)] == 1 && forall m :: m in flight && m.shard == s ==> m == Msg(s, q)
  }

  /**
   An unanswered batch is registered, and it or its ack is in flight just once; an answered
   one was answered with its own number.
   */
  ghost predicate TaskOk(s: ShardId, t: Task, pending: map<ShardId, nat>, granted: map<nat, nat>, flight: multiset<Msg>) {
    match t
    case Free => s !in pending && NoneFor(s, flight)
    case Registered(w, q) => s in pending && pending[s] == w && w !in granted && NoneFor(s, flight)
    case Sent(w, q) =>
      if w in granted then granted[w] == q && s !in pending && NoneFor(s, flight)
      else s in pending && pending[s] == w && OnlyFor(s, q, flight)
  }

  /** The ack of a batch reaches the shard task that sent it. */
  lemma RoutedOwn(t: Task, m: Msg, pending: map<ShardId, nat>, granted: map<nat, nat>, flight: multiset<Msg>)
    requires TaskOk(m.shard, t, pending, granted, flight) && m in flight
    ensures m.shard in pending && t == Sent(pending[m.shard], m.seqno)
    ensures TaskOk(m.shard, t, pending - {m.shard}, granted[t.waiter := m.seqno], flight - multiset{m})
  {
  }

  lemma RoutedOther(s: ShardId, t: Task, m: Msg, w: nat, pending: map<ShardId, nat>, granted: map<nat, nat>,
                    flight: multiset<Msg>)
    requires TaskOk(s, t, pending, granted, flight) && s != m.shard && (t.Free? || t.waiter != w)
    ensures TaskOk(s, t, pending - {m.shard}, granted[w := m.seqno], flight - multiset{m})
  {
  }

  lemma SentOk(s: ShardId, t: Task, shard: ShardId, w: nat, q: nat, pending: map<ShardId, nat>,
               granted: map<nat, nat>, flight: multiset<Msg>)
    requires TaskOk(s, t, pending, granted, flight)
    requires s == shard ==> t == Registered(w, q)
    ensures TaskOk(s, if s == shard then Sent(w, q) else t, pending, granted, flight + multiset{Msg(shard, q)})
  {
  }

  ghost function TaskIn(tasks: map<ShardId, Task>, s: ShardId): Task {
    if s in tasks then tasks[s] else Free
  }

  /** Waiters are issued once. */
  ghost predicate Distinct(tasks: map<ShardId, Task>, next: nat) {
    && (forall s :: s in tasks && !tasks[s].Free? ==> tasks[s].waiter < next)
    && (forall s, t :: s in tasks && t in tasks && s != t && !tasks[s].Free? && !tasks[t].Free? ==>
          tasks[s].waiter != tasks[t].waiter)
  }

  class Ipc {
    var pending: map<ShardId, nat>
    var granted: map<nat, nat>
    var next: nat
    var outbox: seq<Msg>
    var inbox: seq<Line>
    var stopped: bool
    ghost var tasks: map<ShardId, Task>
    ghost var atClient: multiset<Msg>

    ghost function TaskOf(s: ShardId): Task
      reads this`tasks
    {
      TaskIn(tasks, s)
    }

    ghost function Flight(): multiset<Msg>
      reads this`outbox, this`inbox, this`atClient
    {
      multiset(outbox) + atClient + Acks(inbox)
    }

    ghost predicate Valid()
      reads this
    {
      && (forall s :: TaskOk(s, TaskOf(s), pending, granted, Flight()))
      && Distinct(tasks, next)
      && (forall w :: w in granted ==> w < next)
    }

    constructor ()
      ensures Valid() && tasks == map[] && outbox == [] && inbox == [] && atClient == multiset{} && !stopped
    {
      pending, granted, next, outbox, inbox, stopped := map[], map[], 0, [], [], false;
      tasks, atClient := map[], multiset{};
    }

    // ---- The shard task --------------------------------------------------------------

    /** First half of a delivery: register the waiter. */
    method Register(shard: ShardId, lastSeq: nat) returns (waiter: nat)
      requires Valid() && TaskOf(shard).Free?
      modifies this
      ensures Valid() && waiter == old(next) && tasks == old(tasks)[shard := Registered(waiter, lastSeq)]
      ensures Flight() == old(Flight()) && stopped == old(stopped)
    {
      waiter := next;
      next := next + 1;
      pending := pending[shard := waiter];
      tasks := tasks[shard := Registered(waiter, lastSeq)];
      forall s ensures TaskOk(s, TaskOf(s), pending, granted, Flight()) {
        assert old(TaskOk(s, TaskOf(s), pending, granted, Flight()));
      }
    }

    /** Second half: send the batch. */
    method Send(shard: ShardId, waiter: nat, lastSeq: nat)
      requires Valid() && TaskOf(shard) == Registered(waiter, lastSeq)
      modifies this
      ensures Valid() && tasks == old(tasks)[shard := Sent(waiter, lastSeq)]
      ensures outbox == old(outbox) + [Msg(shard, lastSeq)] && inbox == old(inbox) && stopped == old(stopped)
    {
      hide TaskOk;
      ghost var flight := Flight();
      outbox := outbox + [Msg(shard, lastSeq)];
      tasks := tasks[shard := Sent(waiter, lastSeq)];
      assert Flight() == flight + multiset{Msg(shard, lastSeq)};
      forall s ensures TaskOk(s, TaskOf(s), pending, granted, Flight()) {
        SentOk(s, old(TaskOf(s)), shard, waiter, lastSeq, pending, granted, flight);
      }
    }

    /** The answer has come: it is the number of the batch that was sent, no other. */
    method Receive(shard: ShardId, waiter: nat, ghost lastSeq: nat) returns (ack: nat)
      requires Valid() && TaskOf(shard) == Sent(waiter, lastSeq) && waiter in granted
      modifies this
      ensures Valid() && ack == lastSeq
      ensures tasks == old(tasks)[shard := Free] && Flight() == old(Flight()) && stopped == old(stopped)
    {
      assert TaskOk(shard, TaskOf(shard), pending, granted, Flight());
      ack := granted[waiter];
      granted := granted - {waiter};
      tasks := tasks[shard := Free];
      forall s ensures TaskOk(s, TaskOf(s), pending, granted, Flight()) {
        assert old(TaskOk(s, TaskOf(s), pending, granted, Flight()));
      }
    }

    // ---- The client ------------------------------------------------------------------

    method ClientReads()
      requires Valid() && outbox != []
      modifies this
      ensures Valid() && tasks == old(tasks) && Flight() == old(Flight())
      ensures outbox == old(outbox)[1..] && atClient == old(atClient) + multiset{old(outbox)[0]} && inbox == old(inbox)
    {
      hide TaskOk, Distinct, Acks;
      ghost var m := outbox[0];
      assert outbox == [m] + outbox[1..];
      outbox := outbox[1..];
      atClient := atClient + multiset{m};
      assert Flight() == old(Flight());
    }

    /** The client acks a batch it has, once, in any order across shards. */
    method ClientAcks(m: Msg)
      requires Valid() && m in atClient
      modifies this
      ensures Valid() && tasks == old(tasks) && Flight() == old(Flight())
      ensures atClient == old(atClient) - multiset{m} && inbox == old(inbox) + [Checkpoint(m)] && outbox == old(outbox)
    {
      hide TaskOk, Distinct, Acks;
      AcksPush(inbox, Checkpoint(m));
      inbox := inbox + [Checkpoint(m)];
      atClient := atClient - multiset{m};
      assert Flight() == old(Flight());
    }

    /** Anything else the client writes. */
    method ClientSays(l: Line)
      requires Valid() && !l.Checkpoint?
      modifies this
      ensures Valid() && tasks == old(tasks) && Flight() == old(Flight())
      ensures inbox == old(inbox) + [l] && outbox == old(outbox) && atClient == old(atClient)
    {
      hide TaskOk, Distinct, Acks;
      AcksPush(inbox, l);
      inbox := inbox + [l];
      assert Flight() == old(Flight());
    }

    // ---- The reader ------------------------------------------------------------------

    /**
     Route one ack. There is a waiter for it, always: no ack is lost, and the waiter is the
     one that sent the batch.
     */
    method Route(m: Msg, ghost rest: seq<Line>)
      requires Valid() && inbox == [Checkpoint(m)] + rest
      modifies this`pending, this`granted, this`inbox
      ensures Valid() && inbox == rest && m.shard in old(pending)
      ensures TaskOf(m.shard) == Sent(old(pending)[m.shard], m.seqno)
      ensures pending == old(pending) - {m.shard} && granted == old(granted)[old(pending)[m.shard] := m.seqno]
    {
      hide TaskOk;
      ghost var flight := Flight();
      AcksPop(inbox);
      assert inbox[1..] == rest;
      assert m in flight;
      RoutedOwn(TaskOf(m.shard), m, pending, granted, flight);
      if m.shard in pending {
        var w := pending[m.shard];
        pending := pending - {m.shard};
        granted := granted[w := m.seqno];
      }
      inbox := inbox[1..];
      assert Flight() == flight - multiset{m};
      forall s ensures TaskOk(s, TaskOf(s), pending, granted, Flight()) {
        assert TaskOk(s, TaskOf(s), old(pending), old(granted), flight);
        if s != m.shard {
          RoutedOther(s, TaskOf(s), m, old(pending)[m.shard], old(pending), old(granted), flight);
        }
      }
    }

    method Skip()
      requires Valid() && inbox != [] && !inbox[0].Checkpoint?
      modifies this`inbox
      ensures Valid() && inbox == old(inbox)[1..] && Flight() == old(Flight())
    {
      hide TaskOk, Distinct, Acks;
      AcksPop(inbox);
      inbox := inbox[1..];
      assert Flight() == old(Flight());
    }

    /** Read what is there: everything up to the first stop or end of input, and nothing after it. */
    method ReadLines()
      requires Valid() && !stopped
      modifies this`pending, this`granted, this`inbox, this`stopped
      ensures Valid() && (stopped <==> FirstStop(old(inbox)) < |old(inbox)|)
      ensures inbox == if stopped then old(inbox)[FirstStop(old(inbox)) + 1..] else []
      ensures stopped <==> exists l :: l in old(inbox) && (l.Stop? || l.Eof?)
    {
      hide TaskOk, Distinct, Acks;
      ghost var read: nat := 0;
      while inbox != [] && !stopped
        invariant Valid() && read <= |old(inbox)| && inbox == old(inbox)[read..]
        invariant !stopped ==> FirstStop(old(inbox)) == read + FirstStop(inbox)
        invariant stopped ==> read == FirstStop(old(inbox)) + 1
        decreases |inbox|
      {
        var line := inbox[0];
        assert inbox == [line] + inbox[1..];
        assert inbox[1..] == old(inbox)[read + 1..];
        match line {
          case Checkpoint(m) => Route(m, inbox[1..]);
          case Stop =>
            Skip();
            stopped := true;
          case Eof =>
            Skip();
            stopped := true;
          case _ => Skip();
        }
        read := read + 1;
      }
      FirstStopInside(old(inbox));
      StopIsThere(old(inbox));
    }
  }

  /** When pipes and client are empty, no delivery is still waiting: every ack has arrived. */
  lemma NobodyWaitsInVain(ipc: Ipc, s: ShardId)
    requires ipc.Valid() && ipc.Flight() == multiset{} && ipc.TaskOf(s).Sent?
    ensures ipc.TaskOf(s).waiter in ipc.granted && ipc.granted[ipc.TaskOf(s).waiter] == ipc.TaskOf(s).seqno
  {
    assert TaskOk(s, ipc.TaskOf(s), ipc.pending, ipc.granted, ipc.Flight());
  }

  /** Each unanswered batch has exactly one message of its shard under way. */
  lemma OneInFlight(ipc: Ipc, s: ShardId, m: Msg)
    requires ipc.Valid() && m in ipc.Flight() && m.shard == s
    ensures ipc.TaskOf(s).Sent? && m.seqno == ipc.TaskOf(s).seqno && ipc.Flight()[m] == 1
    ensures s in ipc.pending && ipc.pending[s] == ipc.TaskOf(s).waiter
  {
    assert TaskOk(s, ipc.TaskOf(s), ipc.pending, ipc.granted, ipc.Flight());
  }
}
