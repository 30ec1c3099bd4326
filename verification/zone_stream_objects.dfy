/** The frame queue, stream and stream table objects of zone/streams.go. */
module ZoneStreamObjects {
  import opened Bytes
  import opened ZoneStreams

  // -------------------------------------------------------------- frame queue

  type Chunk = seq<byte>

  datatype Queue = Queue(chunks: seq<Chunk>, closed: bool)

  /** A call that would block is not a step: `Push` waits while the queue is
      full, `Take` while it is empty, unless it is closed. */
  datatype Call = Push(chunk: Chunk) | Take | Close

  function Total(chunks: seq<Chunk>): nat { if chunks == [] then 0 else |chunks[0]| + Total(chunks[1..]) }

  predicate Blocks(q: Queue, limit: nat, call: Call) {
    !q.closed && ((call.Push? && Total(q.chunks) >= limit) || (call.Take? && q.chunks == []))
  }

  /** The queue after a call, what was accepted and what was handed out. */
  function Serve(q: Queue, limit: nat, call: Call): (Queue, seq<Chunk>, seq<Chunk>) {
    if Blocks(q, limit, call) then (q, [], [])
    else
      match call
      case Push(chunk) => if q.closed then (q, [], []) else (q.(chunks := q.chunks + [chunk]), [chunk], [])
      case Take => if q.chunks == [] then (q, [], []) else (q.(chunks := q.chunks[1..]), [], [q.chunks[0]])
      case Close => (q.(closed := true), [], [])
  }

  datatype Served = Served(queue: Queue, accepted: seq<Chunk>, taken: seq<Chunk>)

  function ServeAll(limit: nat, calls: seq<Call>): Served {
    if calls == [] then Served(Queue([], false), [], [])
    else
      var s := ServeAll(limit, calls[..|calls| - 1]);
      var (q, a, t) := Serve(s.queue, limit, calls[|calls| - 1]);
      Served(q, s.accepted + a, s.taken + t)
  }

  lemma {:induction false} TotalMore(chunks: seq<Chunk>, chunk: Chunk)
    ensures Total(chunks + [chunk]) == Total(chunks) + |chunk|
    decreases |chunks|
  {
    if chunks == [] {
      assert (chunks + [chunk])[1..] == [];
    } else {
      assert (chunks + [chunk])[1..] == chunks[1..] + [chunk];
      TotalMore(chunks[1..], chunk);
    }
  }

  /** Exactly when a call goes through: a chunk is accepted by an open queue
      that holds fewer bytes than the limit, and handed out by any queue that
      holds one; only a full open queue and an empty open queue make wait. */
  lemma ServesIff(q: Queue, limit: nat, chunk: Chunk)
    ensures Serve(q, limit, Push(chunk)).1 == [chunk] <==> !q.closed && Total(q.chunks) < limit
    ensures Serve(q, limit, Push(chunk)).1 == [] <==> q.closed || Total(q.chunks) >= limit
    ensures Serve(q, limit, Take).2 == (if q.chunks == [] then [] else q.chunks[..1])
    ensures Blocks(q, limit, Push(chunk)) <==> !q.closed && Total(q.chunks) >= limit
    ensures Blocks(q, limit, Take) <==> !q.closed && q.chunks == []
    ensures !Blocks(q, limit, Close) && Serve(q, limit, Close).0.closed
  {
  }

  lemma ServeConserves(q: Queue, limit: nat, call: Call)
    ensures var (r, accepted, taken) := Serve(q, limit, call); taken + r.chunks == q.chunks + accepted
  {
  }

  lemma Chained(taken: seq<Chunk>, chunks: seq<Chunk>, t: seq<Chunk>, rest: seq<Chunk>, a: seq<Chunk>)
    requires t + rest == chunks + a
    ensures taken + t + rest == taken + chunks + a
  {
    assert taken + t + rest == taken + (t + rest);
    assert taken + chunks + a == taken + (chunks + a);
  }

  /** Chunks come out in the order they were accepted, none lost, whatever the
      callers do and whenever the queue is closed. */
  lemma {:induction false} QueueConserves(limit: nat, calls: seq<Call>)
    ensures var s := ServeAll(limit, calls); s.taken + s.queue.chunks == s.accepted
    decreases |calls|
  {
    if calls != [] {
      QueueConserves(limit, calls[..|calls| - 1]);
      var s := ServeAll(limit, calls[..|calls| - 1]);
      var (q, a, t) := Serve(s.queue, limit, calls[|calls| - 1]);
      ServeConserves(s.queue, limit, calls[|calls| - 1]);
      Chained(s.taken, s.queue.chunks, t, q.chunks, a);
    }
  }

  ghost predicate BelowLimit(limit: nat, most: nat, q: Queue) { Total(q.chunks) < limit + most || q.chunks == [] }

  lemma {:induction false} QueueBounded(limit: nat, most: nat, calls: seq<Call>)
    requires forall i | 0 <= i < |calls| && calls[i].Push? :: |calls[i].chunk| <= most
    ensures BelowLimit(limit, most, ServeAll(limit, calls).queue)
    decreases |calls|
  {
    if calls != [] {
      QueueBounded(limit, most, calls[..|calls| - 1]);
      var q, call := ServeAll(limit, calls[..|calls| - 1]).queue, calls[|calls| - 1];
      if call.Push? {
        TotalMore(q.chunks, call.chunk);
      }
    }
  }

  function Takes(n: nat): seq<Call> { if n == 0 then [] else [Take] + Takes(n - 1) }

  lemma ServeAllMore(limit: nat, calls: seq<Call>, call: Call)
    ensures var s := ServeAll(limit, calls);
            var (q, a, t) := Serve(s.queue, limit, call);
            ServeAll(limit, calls + [call]) == Served(q, s.accepted + a, s.taken + t)
  {
    assert (calls + [call])[..|calls|] == calls;
  }

  lemma TakeOnce(limit: nat, calls: seq<Call>)
    requires ServeAll(limit, calls).queue.closed && ServeAll(limit, calls).queue.chunks != []
    ensures var s, t := ServeAll(limit, calls), ServeAll(limit, calls + [Take]);
            t.queue.closed && t.accepted == s.accepted && |t.queue.chunks| == |s.queue.chunks| - 1
  {
    ServeAllMore(limit, calls, Take);
  }

  lemma {:induction false} AfterClose(limit: nat, calls: seq<Call>, n: nat)
    requires ServeAll(limit, calls).queue.closed && n == |ServeAll(limit, calls).queue.chunks|
    ensures ServeAll(limit, calls + Takes(n)).queue.chunks == []
    ensures ServeAll(limit, calls + Takes(n)).accepted == ServeAll(limit, calls).accepted
    decreases n
  {
    if n == 0 {
      assert calls + Takes(0) == calls;
    } else {
      TakeOnce(limit, calls);
      AfterClose(limit, calls + [Take], n - 1);
      assert calls + Takes(n) == calls + [Take] + Takes(n - 1);
    }
  }

  /** A closed queue still hands out everything it accepted, without blocking. */
  lemma DrainsAfterClose(limit: nat, calls: seq<Call>)
    requires ServeAll(limit, calls).queue.closed
    ensures var n := |ServeAll(limit, calls).queue.chunks|;
            ServeAll(limit, calls + Takes(n)).taken == ServeAll(limit, calls).accepted
  {
    var n := |ServeAll(limit, calls).queue.chunks|;
    AfterClose(limit, calls, n);
    QueueConserves(limit, calls + Takes(n));
  }

  class FrameQueue {
    const limit: nat
    var chunks: seq<Chunk>
    var bytes: nat
    var closed: bool

    ghost predicate Valid()
      reads this
    {
      bytes == Total(chunks)
    }

    ghost function View(): Queue
      reads this
    {
      Queue(chunks, closed)
    }

    constructor (limit: nat)
      ensures Valid() && View() == Queue([], false) && this.limit == limit
    {
      this.limit := limit;
      chunks, bytes, closed := [], 0, false;
    }

    method PushChunk(chunk: Chunk) returns (ok: bool)
      requires Valid() && !Blocks(View(), limit, Push(chunk))
      modifies this
      ensures Valid() && ok == !old(closed) && View() == Serve(old(View()), limit, Push(chunk)).0
    {
      if closed {
        return false;
      }
      TotalMore(chunks, chunk);
      chunks, bytes := chunks + [chunk], bytes + |chunk|;
      return true;
    }

    method PopChunk() returns (chunk: Option<Chunk>)
      requires Valid() && !Blocks(View(), limit, Take)
      modifies this
      ensures Valid() && View() == Serve(old(View()), limit, Take).0
      ensures chunk == if old(chunks) == [] then None else Some(old(chunks)[0])
    {
      if |chunks| == 0 {
        return None;
      }
      chunk := Some(chunks[0]);
      bytes := bytes - |chunks[0]|;
      chunks := chunks[1..];
    }

    method CloseQueue()
      requires Valid()
      modifies this
      ensures Valid() && View() == Serve(old(View()), limit, Close).0
    {
      closed := true;
    }
  }

  // ------------------------------------------------------------------ streams

  class ZoneStream {
    const id: ID
    const queue: FrameQueue
    var done: bool
    var localClosed: bool
    var remoteClosed: bool
    ghost var setter: Option<nat>
    ghost var closedBy: seq<nat>

    ghost function View(): Stream
      reads this, queue
    {
      Stream(id, done, localClosed, remoteClosed, queue.closed, setter, closedBy)
    }

    constructor (id: ID)
      ensures View() == Stream(id, false, false, false, false, None, []) && fresh(queue) && queue.Valid()
    {
      this.id := id;
      queue := new FrameQueue(512 * 1024);
      done, localClosed, remoteClosed, setter, closedBy := false, false, false, None, [];
    }

    /** The locked section that abort and release share. */
    method MarkDone(ghost i: nat) returns (won: bool)
      modifies this
      ensures (View(), if won then Abort1 else End) == Act(old(View()), Abort0, i)
      ensures (View(), if won then Release1 else End) == Act(old(View()), Release0, i)
    {
      if done {
        return false;
      }
      done, setter := true, Some(i);
      return true;
    }

    /** What follows it: nothing waits on the queue any more. */
    method Unblock(ghost i: nat)
      requires queue.Valid()
      modifies queue
      ensures queue.Valid() && (View(), Abort2) == Act(old(View()), Abort1, i) && (View(), Release2) == Act(old(View()), Release1, i)
    {
      queue.CloseQueue();
    }

    method NoteRemoteClosed(ghost i: nat) returns (both: Option<bool>)
      modifies this
      ensures (View(), if both.Some? then Remote1(both.value) else End) == Act(old(View()), Remote0, i)
    {
      if done || remoteClosed {
        return None;
      }
      remoteClosed := true;
      return Some(localClosed);
    }

    method NoteLocalClosed(ghost i: nat) returns (both: bool)
      modifies this
      ensures (View(), Eof1(both)) == Act(old(View()), Eof0, i)
    {
      localClosed := true;
      return remoteClosed;
    }
  }

  // -------------------------------------------------------------- the table

  const IDS := 0x1_0000_0000

  function Following(n: ID): ID { if n + 1 == IDS then 0 else n + 1 }

  /** How many increments lead from n to f, at least one. */
  function Ahead(n: ID, f: ID): (d: nat)
    ensures 1 <= d <= IDS
  {
    if f > n then f - n else f - n + IDS
  }

  function Nth(start: ID, n: nat): ID { if n == 0 then start else Following(Nth(start, n - 1)) }

  lemma {:induction false} NthIs(start: ID, n: nat)
    requires n <= IDS
    ensures Nth(start, n) == if start + n < IDS then start + n else start + n - IDS
  {
    if n > 0 {
      NthIs(start, n - 1);
    }
  }

  ghost predicate Free(taken: set<ID>, id: ID) { id != 0 && id !in taken }

  /** Counting up from the last ID meets a free one if and only if there is one;
      with every nonzero ID in use the search goes on for ever. */
  lemma AllocateEndsIff(taken: set<ID>, start: ID)
    ensures (exists n: nat :: n >= 1 && Free(taken, Nth(start, n))) <==> exists f: ID :: Free(taken, f)
  {
    if f: ID :| Free(taken, f) {
      NthIs(start, Ahead(start, f));
      assert Ahead(start, f) >= 1 && Free(taken, Nth(start, Ahead(start, f)));
    }
  }

  class StreamTable {
    var streams: map<ID, ZoneStream>
    var next: ID

    constructor (seed: ID)
      ensures streams == map[] && next == seed
    {
      streams, next := map[], seed;
    }

    /** The first free nonzero ID after the last one, around the 32-bit end. It
        ends because some nonzero ID is free. */
    method Allocate() returns (s: ZoneStream)
      requires exists f: ID :: Free(streams.Keys, f)
      modifies this
      ensures fresh(s) && s.id != 0 && s.id !in old(streams) && streams == old(streams)[s.id := s] && next == s.id
      ensures forall f: ID | f != 0 && f !in old(streams) :: Ahead(old(next), s.id) <= Ahead(old(next), f)
    {
      ghost var goal: ID :| Free(streams.Keys, goal);
      ghost var start := next;
      next := Following(next);
      while next == 0 || next in streams
        invariant streams == old(streams)
        invariant forall f: ID | f != 0 && f !in streams :: Ahead(start, next) <= Ahead(start, f)
        decreases Ahead(start, goal) - Ahead(start, next)
      {
        Stepped(start, next, goal);
        forall f: ID | f != 0 && f !in streams
          ensures Ahead(start, Following(next)) <= Ahead(start, f)
        {
          Stepped(start, next, f);
        }
        next := Following(next);
      }
      s := new ZoneStream(next);
      streams := streams[next := s];
    }

    method Insert(id: ID) returns (s: ZoneStream?)
      modifies this
      ensures s == null <==> id == 0 || id in old(streams)
      ensures s == null ==> streams == old(streams)
      ensures s != null ==> fresh(s) && s.id == id && streams == old(streams)[id := s]
    {
      if id == 0 || id in streams {
        return null;
      }
      s := new ZoneStream(id);
      streams := streams[id := s];
    }

    /** Only this very stream leaves the table. */
    method Unregister(s: ZoneStream)
      modifies this
      ensures forall id | id in old(streams) && old(streams)[id] != s :: id in streams && streams[id] == old(streams)[id]
      ensures forall id | id in streams :: id in old(streams)
      ensures s.id in streams ==> streams[s.id] != s
    {
      if s.id in streams && streams[s.id] == s {
        streams := streams - {s.id};
      }
    }
  }

  /** A taken or zero ID is not the goal, so the goal is further on. */
  lemma Stepped(start: ID, at: ID, goal: ID)
    requires at != goal && Ahead(start, at) <= Ahead(start, goal)
    ensures Ahead(start, Following(at)) == Ahead(start, at) + 1 <= Ahead(start, goal)
  {
  }
}
