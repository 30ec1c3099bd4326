/** Whole runs of the channel cache: held queues stay open and unshared, and a
    failed drain keeps the order of the return path. */
module ConnCacheRuns {
  import opened Bytes
  import opened ConnCache

  /** Everything the server does to the cache. `Map*` covers direct rendezvous,
      connector rebinding and channel-open control messages. */
  datatype Event =
    | Reserved(c: ChannelID)
    | Arrived(c: ChannelID, m: Frame)
    | Returned(c: ChannelID, m: Frame)
    | OrphanExpired(c: ChannelID)
    | ReturnExpired(c: ChannelID)
    | CleanedUp(c: ChannelID)
    | DrainBegun(c: ChannelID)
    | DrainFailed(c: ChannelID, rest: seq<Frame>)
    | Published(c: ChannelID, ws: LinkID, link: LinkID, token: Token)
    | Forgotten(token: Token)
    | MapClient(c: ChannelID, link: LinkID)
    | MapConnector(c: ChannelID, link: LinkID)
    | MapToken(c: ChannelID, token: Token)
    | Popped(q: QueueID)

  function Apply(s: Cache, ev: Event): Cache {
    match ev
    case Reserved(c) => Reserve(s, c)
    case Arrived(c, m) => Route(s, c, m)
    case Returned(c, m) => BufferReturn(s, c, m)
    case OrphanExpired(c) => ExpireOrphan(s, c)
    case ReturnExpired(c) => ExpireReturn(s, c)
    case CleanedUp(c) => Cleanup(s, c)
    case DrainBegun(c) => BeginDrain(s, c)
    case DrainFailed(c, rest) => Requeue(s, c, rest)
    case Published(c, ws, link, token) => Publish(s, c, ws, link, token)
    case Forgotten(token) => ForgetToken(s, token)
    case MapClient(c, link) => s.(links := s.links.(toClient := s.links.toClient[c := link]))
    case MapConnector(c, link) => s.(links := s.links.(toConnector := s.links.toConnector[c := link]))
    case MapToken(c, token) => s.(links := s.links.(tokens := WithChannel(s.links.tokens, token, c)))
    case Popped(q) => if q in s.store.heap && s.store.heap[q].items != [] then Pop(s, q) else s
  }

  function After(s: Cache, evs: seq<Event>): Cache {
    if evs == [] then s else Apply(After(s, evs[..|evs| - 1]), evs[|evs| - 1])
  }

  // --------------------------------------------------------- the invariant

  ghost predicate Live(s: Cache, q: QueueID) { q in s.store.heap && s.store.heap[q].open }

  ghost predicate OrphansOk(s: Cache) {
    && (forall c | c in s.orphans :: Live(s, s.orphans[c]))
    && (forall c, d | c in s.orphans && d in s.orphans && c != d :: s.orphans[c] != s.orphans[d])
  }

  ghost predicate ReturnsOk(s: Cache) {
    && (forall c | c in s.back :: Live(s, s.back[c]))
    && (forall c, d | c in s.back && d in s.back && c != d :: s.back[c] != s.back[d])
  }

  ghost predicate Apart(s: Cache) {
    forall c, d | c in s.orphans && d in s.back :: s.orphans[c] != s.back[d]
  }

  /** Every held queue is open and held by one entry only, every queue number
      is older than `made`, and nothing went wrong so far. */
  ghost predicate Inv(s: Cache) {
    && OrphansOk(s) && ReturnsOk(s) && Apart(s) && !s.store.faulted
    && forall q | q in s.store.heap :: q < s.store.made && |s.store.heap[q].items| <= CAPACITY
  }

  lemma PushKeeps(s: Cache, q: QueueID, m: Frame)
    requires Inv(s) && Live(s, q)
    ensures var t := Push(s, q, m);
            && Inv(t) && Live(t, q) && t == s.(store := s.store.(heap := t.store.heap))
            && Items(t, q) == Cut(Items(s, q) + [m])
            && forall p | p != q :: Items(t, p) == Items(s, p)
  {
    var t := Push(s, q, m);
    assert forall p | p in s.store.heap :: p in t.store.heap && t.store.heap[p].open == s.store.heap[p].open;
  }

  lemma CloseKeeps(s: Cache, q: QueueID)
    requires Inv(s) && Live(s, q)
    requires forall c | c in s.orphans :: s.orphans[c] != q
    requires forall c | c in s.back :: s.back[c] != q
    ensures Inv(Close(s, q)) && forall p :: Items(Close(s, q), p) == Items(s, p)
  {
    var t := Close(s, q);
    assert forall p | p in s.store.heap && p != q :: p in t.store.heap && t.store.heap[p] == s.store.heap[p];
  }

  lemma EmptiedKeeps(s: Cache, q: QueueID)
    requires Inv(s) && Live(s, q)
    ensures var t := Emptied(s, q);
            Inv(t) && Live(t, q) && t == s.(store := s.store.(heap := t.store.heap)) && Items(t, q) == [] && forall p | p != q :: Items(t, p) == Items(s, p)
  {
    var t := Emptied(s, q);
    assert forall p | p in s.store.heap :: p in t.store.heap && t.store.heap[p].open == s.store.heap[p].open;
  }

  lemma MakeKeeps(s: Cache)
    requires Inv(s)
    ensures var t := Make(s);
            && Inv(t) && Live(t, s.store.made) && Items(t, s.store.made) == []
            && (forall p | p != s.store.made :: Items(t, p) == Items(s, p))
            && (forall c | c in s.orphans :: s.orphans[c] != s.store.made) && (forall c | c in s.back :: s.back[c] != s.store.made)
  {
    var t := Make(s);
    assert forall p | p in s.store.heap :: p in t.store.heap && t.store.heap[p] == s.store.heap[p];
  }

  lemma ReserveKeeps(s: Cache, c: ChannelID)
    requires Inv(s)
    ensures Inv(Reserve(s, c)) && c in Reserve(s, c).orphans
  {
    MakeKeeps(s);
  }

  lemma ReserveReturnKeeps(s: Cache, c: ChannelID)
    requires Inv(s)
    ensures Inv(ReserveReturn(s, c)) && c in ReserveReturn(s, c).back
  {
    MakeKeeps(s);
  }

  lemma BufferOrphanKeeps(s: Cache, c: ChannelID, m: Frame)
    requires Inv(s)
    ensures Inv(BufferOrphan(s, c, m))
  {
    ReserveKeeps(s, c);
    var t := Reserve(s, c);
    PushKeeps(t, t.orphans[c], m);
  }

  lemma BufferReturnKeeps(s: Cache, c: ChannelID, m: Frame)
    requires Inv(s)
    ensures Inv(BufferReturn(s, c, m))
  {
    ReserveReturnKeeps(s, c);
    var t := ReserveReturn(s, c);
    PushKeeps(t, t.back[c], m);
  }

  lemma DropOrphanKeeps(s: Cache, c: ChannelID)
    requires Inv(s) && c in s.orphans
    ensures Inv(Close(s.(orphans := s.orphans - {c}), s.orphans[c]))
  {
    CloseKeeps(s.(orphans := s.orphans - {c}), s.orphans[c]);
  }

  lemma DropReturnKeeps(s: Cache, c: ChannelID)
    requires Inv(s) && c in s.back
    ensures Inv(Close(s.(back := s.back - {c}), s.back[c]))
  {
    CloseKeeps(s.(back := s.back - {c}), s.back[c]);
  }

  /** Nothing of the channel is left in the cache. */
  ghost predicate Gone(s: Cache, c: ChannelID) {
    c !in s.links.toClient && c !in s.links.toConnector && c !in s.orphans && c !in s.back
  }

  lemma CleanupKeeps(s: Cache, c: ChannelID)
    requires Inv(s)
    ensures Inv(Cleanup(s, c)) && Gone(Cleanup(s, c), c)
    ensures c in s.orphans ==> !Live(Cleanup(s, c), s.orphans[c])
    ensures c in s.back ==> !Live(Cleanup(s, c), s.back[c])
  {
    var t := Unmap(s, c);
    if c in t.orphans {
      DropOrphanKeeps(t, c);
    }
    var u := if c in t.orphans then Close(t.(orphans := t.orphans - {c}), t.orphans[c]) else t;
    if c in u.back {
      DropReturnKeeps(u, c);
    }
  }

  lemma {:induction false} PushAllKeeps(s: Cache, q: QueueID, ms: seq<Frame>)
    requires Inv(s) && Live(s, q)
    ensures var t := PushAll(s, q, ms);
            && Inv(t) && Live(t, q) && t == s.(store := s.store.(heap := t.store.heap))
            && Items(t, q) == Cut(Items(s, q) + ms)
            && forall p | p != q :: Items(t, p) == Items(s, p)
    decreases |ms|
  {
    if ms != [] {
      var front := ms[..|ms| - 1];
      PushAllKeeps(s, q, front);
      PushKeeps(PushAll(s, q, front), q, ms[|ms| - 1]);
      assert Items(s, q) + ms == Items(s, q) + front + [ms[|ms| - 1]];
    }
  }

  /** The part of a sequence that fits in a queue. */
  function Cut(ms: seq<Frame>): seq<Frame> { if |ms| <= CAPACITY then ms else ms[..CAPACITY] }

  lemma RequeueKeeps(s: Cache, c: ChannelID, rest: seq<Frame>)
    requires Inv(s)
    ensures Inv(Requeue(s, c, rest))
  {
    if c in s.back {
      EmptiedKeeps(s, s.back[c]);
      PushAllKeeps(Emptied(s, s.back[c]), s.back[c], rest + Items(s, s.back[c]));
    }
  }

  lemma PopKeeps(s: Cache, q: QueueID)
    requires Inv(s) && q in s.store.heap && s.store.heap[q].items != []
    ensures Inv(Pop(s, q))
  {
    var t := Pop(s, q);
    assert forall p | p in s.store.heap :: p in t.store.heap && t.store.heap[p].open == s.store.heap[p].open;
  }

  /** The mappings play no part in the invariant. */
  lemma MapsKeep(s: Cache, t: Cache)
    requires Inv(s) && t == s.(links := t.links)
    ensures Inv(t)
  {
    assert forall q :: Live(s, q) <==> Live(t, q);
  }

  lemma PublishKeeps(s: Cache, c: ChannelID, ws: LinkID, link: LinkID, token: Token)
    requires Inv(s)
    ensures var t := Publish(s, c, ws, link, token);
            && Inv(t) && c in t.orphans && Live(t, t.orphans[c])
            && (c in s.orphans ==> t.orphans[c] == s.orphans[c]) && (c !in s.orphans ==> t.orphans[c] == s.store.made)
  {
    MapsKeep(s, Mapped(s, c, ws, link, token));
    ReserveKeeps(Mapped(s, c, ws, link, token), c);
  }

  lemma ForgetKeeps(s: Cache, token: Token)
    requires Inv(s)
    ensures Inv(ForgetToken(s, token))
  {
    var t := ForgetToken(s, token);
    assert forall q :: Live(s, q) <==> Live(t, q);
    assert forall c | c in t.orphans :: c in s.orphans && t.orphans[c] == s.orphans[c];
  }

  lemma ApplyKeeps(s: Cache, ev: Event)
    requires Inv(s)
    ensures Inv(Apply(s, ev))
  {
    match ev
    case Reserved(c) => ReserveKeeps(s, c);
    case Arrived(c, m) =>
      if c in s.orphans {
        PushKeeps(s, s.orphans[c], m);
      } else if c !in s.links.toClient {
        BufferOrphanKeeps(s, c, m);
      }
    case Returned(c, m) => BufferReturnKeeps(s, c, m);
    case OrphanExpired(c) =>
      if c in s.orphans {
        DropOrphanKeeps(s, c);
      }
    case ReturnExpired(c) =>
      if c in s.back {
        DropReturnKeeps(s, c);
      }
    case CleanedUp(c) => CleanupKeeps(s, c);
    case DrainBegun(c) =>
      if c in s.back {
        EmptiedKeeps(s, s.back[c]);
      }
    case DrainFailed(c, rest) => RequeueKeeps(s, c, rest);
    case Published(c, ws, link, token) => PublishKeeps(s, c, ws, link, token);
    case Forgotten(token) => ForgetKeeps(s, token);
    case MapClient(_, _) => MapsKeep(s, Apply(s, ev));
    case MapConnector(_, _) => MapsKeep(s, Apply(s, ev));
    case MapToken(_, _) => MapsKeep(s, Apply(s, ev));
    case Popped(q) =>
      if q in s.store.heap && s.store.heap[q].items != [] {
        PopKeeps(s, q);
      }
  }

  /** In every reachable state each held queue is open and held once, and no
      step has sent on, closed or drained a closed queue. */
  lemma {:induction false} HeldQueuesOpen(evs: seq<Event>)
    ensures Inv(After(EMPTY, evs))
    decreases |evs|
  {
    if evs != [] {
      HeldQueuesOpen(evs[..|evs| - 1]);
      ApplyKeeps(After(EMPTY, evs[..|evs| - 1]), evs[|evs| - 1]);
    }
  }

  // ------------------------------------------------------ a failed drain

  /** Between the start of a drain and its end the channel is not cleaned up,
      its return buffer is not dropped and nobody else drains it. The expiry
      timer may fire: it does nothing while the connector is mapped. */
  ghost predicate Quiet(s: Cache, ev: Event, c: ChannelID, q: QueueID) {
    match ev
    case CleanedUp(d) => d != c
    case ReturnExpired(d) => d != c || c in s.links.toConnector
    case DrainBegun(d) => d != c
    case DrainFailed(d, _) => d != c
    case Popped(p) => p != q
    case _ => true
  }

  ghost predicate AllQuiet(s: Cache, evs: seq<Event>, c: ChannelID, q: QueueID)
    decreases |evs|
  {
    evs != [] ==> AllQuiet(s, evs[..|evs| - 1], c, q) && Quiet(After(s, evs[..|evs| - 1]), evs[|evs| - 1], c, q)
  }

  /** The return-path frames that arrive for a channel. */
  function Arrivals(c: ChannelID, evs: seq<Event>): seq<Frame> {
    if evs == [] then []
    else
      var ev := evs[|evs| - 1];
      Arrivals(c, evs[..|evs| - 1]) + if ev.Returned? && ev.c == c then [ev.m] else []
  }

  /** The channel keeps this return queue, with these contents. */
  ghost predicate Holds(s: Cache, c: ChannelID, q: QueueID, items: seq<Frame>) {
    c in s.back && s.back[c] == q && Items(s, q) == items
  }

  lemma OrphanSideHolds(s: Cache, ev: Event, c: ChannelID, q: QueueID, items: seq<Frame>)
    requires Inv(s) && Holds(s, c, q, items)
    requires ev.Reserved? || ev.Arrived? || ev.Published?
    ensures Holds(Apply(s, ev), c, q, items)
  {
    var d := ev.c;
    MakeKeeps(s);
    if ev.Arrived? {
      if d in s.orphans {
        PushKeeps(s, s.orphans[d], ev.m);
      } else if d !in s.links.toClient {
        ReserveKeeps(s, d);
        PushKeeps(Reserve(s, d), s.store.made, ev.m);
      }
    }
  }

  lemma OtherReturnHolds(s: Cache, ev: Event, c: ChannelID, q: QueueID, items: seq<Frame>)
    requires Inv(s) && Holds(s, c, q, items) && ev.Returned? && ev.c != c
    ensures Holds(Apply(s, ev), c, q, items)
  {
    MakeKeeps(s);
    ReserveReturnKeeps(s, ev.c);
    PushKeeps(ReserveReturn(s, ev.c), ReserveReturn(s, ev.c).back[ev.c], ev.m);
  }

  lemma OtherDrainHolds(s: Cache, ev: Event, c: ChannelID, q: QueueID, items: seq<Frame>)
    requires Inv(s) && Holds(s, c, q, items) && (ev.DrainBegun? || ev.DrainFailed?) && ev.c != c
    ensures Holds(Apply(s, ev), c, q, items)
  {
    if ev.c in s.back {
      var p := s.back[ev.c];
      EmptiedKeeps(s, p);
      if ev.DrainFailed? {
        PushAllKeeps(Emptied(s, p), p, ev.rest + Items(s, p));
      }
    }
  }

  lemma CloseHolds(s: Cache, p: QueueID, c: ChannelID, q: QueueID, items: seq<Frame>)
    requires Holds(s, c, q, items)
    ensures Holds(Close(s, p), c, q, items)
  {
  }

  lemma OtherClosedHolds(s: Cache, ev: Event, c: ChannelID, q: QueueID, items: seq<Frame>)
    requires Holds(s, c, q, items) && (ev.OrphanExpired? || ev.CleanedUp? || ev.ReturnExpired?)
    requires ev.c == c ==> ev.OrphanExpired? || (ev.ReturnExpired? && c in s.links.toConnector)
    ensures Holds(Apply(s, ev), c, q, items)
  {
    var t := if ev.CleanedUp? then Unmap(s, ev.c) else s;
    var u := t;
    if ev.c in t.orphans && !ev.ReturnExpired? {
      u := Close(t.(orphans := t.orphans - {ev.c}), t.orphans[ev.c]);
      CloseHolds(t.(orphans := t.orphans - {ev.c}), t.orphans[ev.c], c, q, items);
    }
    if ev.c in u.back && !ev.OrphanExpired? && ev.c != c {
      CloseHolds(u.(back := u.back - {ev.c}), u.back[ev.c], c, q, items);
    }
  }

  lemma StepHolds(s: Cache, ev: Event, c: ChannelID, q: QueueID, items: seq<Frame>)
    requires Inv(s) && Holds(s, c, q, items) && Quiet(s, ev, c, q)
    ensures Holds(Apply(s, ev), c, q, if ev.Returned? && ev.c == c then Cut(items + [ev.m]) else items)
  {
    if ev.Reserved? || ev.Arrived? || ev.Published? {
      OrphanSideHolds(s, ev, c, q, items);
    } else if ev.DrainBegun? || ev.DrainFailed? {
      OtherDrainHolds(s, ev, c, q, items);
    } else if ev.Returned? {
      if ev.c == c {
        PushKeeps(s, q, ev.m);
      } else {
        OtherReturnHolds(s, ev, c, q, items);
      }
    } else if ev.OrphanExpired? || ev.CleanedUp? || ev.ReturnExpired? {
      OtherClosedHolds(s, ev, c, q, items);
    }
  }

  lemma CutMore(items: seq<Frame>, extra: seq<Frame>)
    ensures Cut(Cut(items) + extra) == Cut(items + extra)
  {
  }

  lemma {:induction false} QuietRun(s: Cache, c: ChannelID, q: QueueID, items: seq<Frame>, evs: seq<Event>)
    requires Inv(s) && Holds(s, c, q, items) && AllQuiet(s, evs, c, q)
    ensures Inv(After(s, evs)) && Holds(After(s, evs), c, q, Cut(items + Arrivals(c, evs)))
    decreases |evs|
  {
    if evs == [] {
      assert items + [] == items;
    } else {
      var front, ev := evs[..|evs| - 1], evs[|evs| - 1];
      QuietRun(s, c, q, items, front);
      ApplyKeeps(After(s, front), ev);
      StepHolds(After(s, front), ev, c, q, Cut(items + Arrivals(c, front)));
      if ev.Returned? && ev.c == c {
        CutMore(items + Arrivals(c, front), [ev.m]);
        assert items + Arrivals(c, evs) == items + Arrivals(c, front) + [ev.m];
      } else {
        assert Arrivals(c, evs) == Arrivals(c, front);
      }
    }
  }

  lemma RequeueHolds(s: Cache, c: ChannelID, q: QueueID, items: seq<Frame>, rest: seq<Frame>)
    requires Inv(s) && Holds(s, c, q, items)
    ensures Holds(Requeue(s, c, rest), c, q, Cut(rest + items))
  {
    EmptiedKeeps(s, q);
    PushAllKeeps(Emptied(s, q), q, rest + items);
    assert [] + (rest + items) == rest + items;
  }

  function Prefix(ms: seq<Frame>, n: nat): seq<Frame> { if |ms| <= n then ms else ms[..n] }

  lemma Splice(drained: seq<Frame>, k: nat, later: seq<Frame>)
    requires k < |drained|
    ensures drained[..k] + Cut(drained[k..] + Cut(later)) == Prefix(drained + later, k + CAPACITY)
  {
    var l, r := drained[..k] + Cut(drained[k..] + Cut(later)), Prefix(drained + later, k + CAPACITY);
    assert |l| == |r|;
    assert forall i | 0 <= i < |l| :: l[i] == r[i];
  }

  /** A drain whose k-th write fails, with anything else going on meanwhile:
      frames written, then the buffer, are the drained frames followed by the
      later arrivals, cut only at the tail by the capacity. */
  lemma FailedDrainKeepsOrder(s: Cache, c: ChannelID, evs: seq<Event>, k: nat)
    requires Inv(s) && c in s.back && AllQuiet(BeginDrain(s, c), evs, c, s.back[c]) && k < |Taken(s, c)|
    ensures var drained := Taken(s, c);
            var t := Requeue(After(BeginDrain(s, c), evs), c, drained[k..]);
            && c in t.back && t.back[c] == s.back[c]
            && drained[..k] + Items(t, t.back[c]) == Prefix(drained + Arrivals(c, evs), k + CAPACITY)
  {
    CompleteDrainKeepsOrder(s, c, evs);
    RequeueHolds(After(BeginDrain(s, c), evs), c, s.back[c], Cut(Arrivals(c, evs)), Taken(s, c)[k..]);
    Splice(Taken(s, c), k, Arrivals(c, evs));
  }

  /** A drain that succeeds leaves exactly the later arrivals buffered. */
  lemma CompleteDrainKeepsOrder(s: Cache, c: ChannelID, evs: seq<Event>)
    requires Inv(s) && c in s.back && AllQuiet(BeginDrain(s, c), evs, c, s.back[c])
    ensures Inv(After(BeginDrain(s, c), evs)) && Holds(After(BeginDrain(s, c), evs), c, s.back[c], Cut(Arrivals(c, evs)))
  {
    EmptiedKeeps(s, s.back[c]);
    QuietRun(BeginDrain(s, c), c, s.back[c], [], evs);
    assert [] + Arrivals(c, evs) == Arrivals(c, evs);
  }
}
