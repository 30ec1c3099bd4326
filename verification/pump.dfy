/** The connector pump of linksocks/server.go: one goroutine per channel that
    binds the channel to a provider link, forwards its queue, and rebinds when
    the link drops. A server is the channel cache and its running pumps; every
    step of every pump may be interleaved with anything else. */
module Pumps {
  import opened Bytes
  import opened ConnCache
  import opened ConnCacheRuns

  /** Where a pump is between two steps. `Holding` has a frame in hand. */
  datatype Place = Top | Wait | Publishing | Binding | Draining | Holding(frame: Frame)

  datatype Pump = Pump(
    ws: LinkID, token: Token, link: Option<LinkID>, queue: QueueID, pending: Option<Frame>, bound: bool, at: Place)

  /** What reaches provider links, or fails to. A bind carries the original
      request or asks to resume. `Direct` bypasses the pump. */
  datatype Wire =
    | BindOk(link: LinkID, c: ChannelID, resume: bool)
    | BindFailed(link: LinkID, c: ChannelID, resume: bool)
    | Sent(link: LinkID, c: ChannelID, m: Frame)
    | SendFailed(link: LinkID, c: ChannelID, m: Frame)
    | Direct(link: LinkID, c: ChannelID, m: Frame)

  datatype Server = Server(cache: Cache, pumps: map<ChannelID, Pump>, log: seq<Wire>, accepted: seq<(ChannelID, Frame)>)

  const IDLE: Server := Server(EMPTY, map[], [], [])

  datatype Step =
    | Start(c: ChannelID, ws: LinkID, resume: bool, token: Token)
    | Tick(c: ChannelID, found: Option<LinkID>, ok: bool)
    | Stop(c: ChannelID)
    | Other(ev: Event)

  /** The cache, the pump unless it exits, and what it wrote. */
  datatype Turn = Turn(cache: Cache, pump: Option<Pump>, wires: seq<Wire>)

  /** One step of the pump of channel c. `found` is the outcome of waiting for a
      provider, `ok` the outcome of a write. A pump past Wait has a link (see
      PumpRuns.Shaped), so the branches without one are never taken. */
  function Advance(s: Cache, c: ChannelID, p: Pump, found: Option<LinkID>, ok: bool): Turn {
    match p.at
    case Top =>
      if c !in s.orphans then Turn(s, None, [])
      else Turn(s, Some(p.(at := if p.link.None? then Wait else Publishing)), [])
    case Wait =>
      if found.Some? then Turn(s, Some(p.(link := found, at := Publishing)), [])
      else if c !in s.orphans || !p.bound then Turn(s, None, [])
      else Turn(s, Some(p.(at := Top)), [])
    case Publishing =>
      if p.link.None? then Turn(s, Some(p.(at := Top)), [])
      else
        var t := Publish(s, c, p.ws, p.link.value, p.token);
        Turn(t, Some(p.(queue := t.orphans[c], at := Binding)), [])
    case Binding =>
      if p.link.None? then Turn(s, Some(p.(at := Top)), [])
      else if ok then Turn(s, Some(p.(bound := true, at := Draining)), [BindOk(p.link.value, c, p.bound)])
      else Turn(s, Some(p.(bound := true, link := None, at := Top)), [BindFailed(p.link.value, c, p.bound)])
    case Draining =>
      if p.pending.Some? then Turn(s, Some(p.(pending := None, at := Holding(p.pending.value))), [])
      else if p.queue !in s.store.heap then Turn(s, None, [])
      else if s.store.heap[p.queue].items != [] then
        Turn(Pop(s, p.queue), Some(p.(at := Holding(s.store.heap[p.queue].items[0]))), [])
      else if !s.store.heap[p.queue].open then Turn(s, None, [])
      else Turn(s, Some(p), [])
    case Holding(m) =>
      if p.link.None? then Turn(s, Some(p.(pending := Some(m), at := Top)), [])
      else if ok then Turn(s, Some(p.(at := Draining)), [Sent(p.link.value, c, m)])
      else Turn(s, Some(p.(pending := Some(m), link := None, at := Top)), [SendFailed(p.link.value, c, m)])
  }

  function Set(pumps: map<ChannelID, Pump>, c: ChannelID, p: Option<Pump>): map<ChannelID, Pump> {
    if p.None? then pumps - {c} else pumps[c := p.value]
  }

  /** Whether a payload from a connector enters the channel's queue. */
  predicate Admitted(s: Cache, c: ChannelID) {
    if c in s.orphans then |Items(s, s.orphans[c])| < CAPACITY else c !in s.links.toClient
  }

  function Forward(s: Server, c: ChannelID, m: Frame): Server {
    s.(cache := ConnCache.Route(s.cache, c, m),
       log := s.log + (if c !in s.cache.orphans && c in s.cache.links.toClient then [Direct(s.cache.links.toClient[c], c, m)] else []),
       accepted := s.accepted + if Admitted(s.cache, c) then [(c, m)] else [])
  }

  function Next(s: Server, step: Step): Server {
    match step
    case Start(c, ws, resume, token) =>
      if c !in s.pumps then s.(pumps := s.pumps[c := Pump(ws, token, None, 0, None, resume, Top)])
      else if resume then s.(cache := Apply(s.cache, MapConnector(c, ws)))
      else s
    case Tick(c, found, ok) =>
      if c !in s.pumps then s
      else
        var t := Advance(s.cache, c, s.pumps[c], found, ok);
        Server(t.cache, Set(s.pumps, c, t.pump), s.log + t.wires, s.accepted)
    case Stop(c) =>
      if c in s.pumps && (s.pumps[c].at.Top? || s.pumps[c].at.Wait? || s.pumps[c].at.Draining?) then s.(pumps := s.pumps - {c})
      else s
    case Other(ev) =>
      if ev.Arrived? then Forward(s, ev.c, ev.m)
      else if ev.Popped? || ev.Published? then s
      else s.(cache := Apply(s.cache, ev))
  }

  function Run(s: Server, steps: seq<Step>): Server {
    if steps == [] then s else Next(Run(s, steps[..|steps| - 1]), steps[|steps| - 1])
  }

  // ------------------------------------------------ how the cache can change

  ghost predicate FreshReturn(s: Cache, t: Cache, d: ChannelID)
    requires d in t.back
  {
    (d in s.back && t.back[d] == s.back[d]) || s.store.made <= t.back[d]
  }

  ghost predicate FreshOrphan(s: Cache, t: Cache, d: ChannelID)
    requires d in t.orphans
  {
    (d in s.orphans && t.orphans[d] == s.orphans[d]) || s.store.made <= t.orphans[d]
  }

  /** Queues never vanish, and an entry gets a queue only when the queue is new. */
  ghost predicate Grows(s: Cache, t: Cache) {
    && (forall q | q in s.store.heap :: q in t.store.heap) && s.store.made <= t.store.made
    && (forall d | d in t.back :: FreshReturn(s, t, d))
    && (forall d | d in t.orphans :: FreshOrphan(s, t, d))
  }

  lemma GrowsOn(s: Cache, t: Cache, u: Cache)
    requires Grows(s, t) && Grows(t, u)
    ensures Grows(s, u)
  {
    forall d | d in u.back
      ensures FreshReturn(s, u, d)
    {
      assert FreshReturn(t, u, d);
      if d in t.back {
        assert FreshReturn(s, t, d);
      }
    }
    forall d | d in u.orphans
      ensures FreshOrphan(s, u, d)
    {
      assert FreshOrphan(t, u, d);
      if d in t.orphans {
        assert FreshOrphan(s, t, d);
      }
    }
  }

  lemma PushGrows(s: Cache, q: QueueID, m: Frame)
    ensures Grows(s, Push(s, q, m))
  {
  }

  lemma {:induction false} PushAllGrows(s: Cache, q: QueueID, ms: seq<Frame>)
    ensures Grows(s, PushAll(s, q, ms))
    decreases |ms|
  {
    if ms != [] {
      var t := PushAll(s, q, ms[..|ms| - 1]);
      PushAllGrows(s, q, ms[..|ms| - 1]);
      PushGrows(t, q, ms[|ms| - 1]);
      GrowsOn(s, t, PushAll(s, q, ms));
    }
  }

  lemma CloseGrows(s: Cache, q: QueueID)
    ensures Grows(s, Close(s, q)) && Grows(s, Emptied(s, q))
  {
  }

  lemma RemoveGrows(s: Cache, c: ChannelID)
    ensures Grows(s, s.(orphans := s.orphans - {c})) && Grows(s, s.(back := s.back - {c}))
  {
  }

  lemma DropOrphanGrows(s: Cache, c: ChannelID)
    requires c in s.orphans
    ensures Grows(s, Close(s.(orphans := s.orphans - {c}), s.orphans[c]))
  {
    RemoveGrows(s, c);
    CloseGrows(s.(orphans := s.orphans - {c}), s.orphans[c]);
    GrowsOn(s, s.(orphans := s.orphans - {c}), Close(s.(orphans := s.orphans - {c}), s.orphans[c]));
  }

  lemma DropReturnGrows(s: Cache, c: ChannelID)
    requires c in s.back
    ensures Grows(s, Close(s.(back := s.back - {c}), s.back[c]))
  {
    RemoveGrows(s, c);
    CloseGrows(s.(back := s.back - {c}), s.back[c]);
    GrowsOn(s, s.(back := s.back - {c}), Close(s.(back := s.back - {c}), s.back[c]));
  }

  lemma ReserveGrows(s: Cache, c: ChannelID)
    ensures Grows(s, Reserve(s, c)) && Grows(s, ReserveReturn(s, c))
  {
  }

  lemma CleanupGrows(s: Cache, c: ChannelID)
    ensures Grows(s, Cleanup(s, c))
  {
    var t := Unmap(s, c);
    var u := if c in t.orphans then Close(t.(orphans := t.orphans - {c}), t.orphans[c]) else t;
    assert Grows(s, t);
    if c in t.orphans {
      DropOrphanGrows(t, c);
    }
    GrowsOn(s, t, u);
    if c in u.back {
      DropReturnGrows(u, c);
      GrowsOn(s, u, Cleanup(s, c));
    }
  }

  lemma ArrivedGrows(s: Cache, c: ChannelID, m: Frame)
    ensures Grows(s, ConnCache.Route(s, c, m))
  {
    if c in s.orphans {
      PushGrows(s, s.orphans[c], m);
    } else if c !in s.links.toClient {
      ReserveGrows(s, c);
      PushGrows(Reserve(s, c), s.store.made, m);
      GrowsOn(s, Reserve(s, c), ConnCache.Route(s, c, m));
    }
  }

  lemma ReturnedGrows(s: Cache, c: ChannelID, m: Frame)
    ensures Grows(s, BufferReturn(s, c, m))
  {
    var t := ReserveReturn(s, c);
    ReserveGrows(s, c);
    PushGrows(t, t.back[c], m);
    GrowsOn(s, t, BufferReturn(s, c, m));
  }

  lemma RequeueGrows(s: Cache, c: ChannelID, rest: seq<Frame>)
    ensures Grows(s, Requeue(s, c, rest))
  {
    if c in s.back {
      CloseGrows(s, s.back[c]);
      PushAllGrows(Emptied(s, s.back[c]), s.back[c], rest + Items(s, s.back[c]));
      GrowsOn(s, Emptied(s, s.back[c]), Requeue(s, c, rest));
    }
  }

  lemma ExpireGrows(s: Cache, c: ChannelID)
    ensures Grows(s, ExpireOrphan(s, c)) && Grows(s, ExpireReturn(s, c)) && Grows(s, BeginDrain(s, c))
  {
    if c in s.orphans {
      DropOrphanGrows(s, c);
    }
    if c in s.back {
      DropReturnGrows(s, c);
      CloseGrows(s, s.back[c]);
    }
  }

  lemma PublishGrows(s: Cache, c: ChannelID, ws: LinkID, link: LinkID, token: Token)
    ensures Grows(s, Publish(s, c, ws, link, token))
  {
    var m := Mapped(s, c, ws, link, token);
    assert Grows(s, m);
    ReserveGrows(m, c);
    GrowsOn(s, m, Publish(s, c, ws, link, token));
  }

  lemma ForgetGrows(s: Cache, token: Token)
    ensures Grows(s, ForgetToken(s, token))
  {
  }

  lemma ApplyGrows(s: Cache, ev: Event)
    ensures Grows(s, Apply(s, ev))
  {
    match ev
    case Reserved(c) => ReserveGrows(s, c);
    case Arrived(c, m) => ArrivedGrows(s, c, m);
    case Returned(c, m) => ReturnedGrows(s, c, m);
    case OrphanExpired(c) => ExpireGrows(s, c);
    case ReturnExpired(c) => ExpireGrows(s, c);
    case CleanedUp(c) => CleanupGrows(s, c);
    case DrainBegun(c) => ExpireGrows(s, c);
    case DrainFailed(c, rest) => RequeueGrows(s, c, rest);
    case Published(c, ws, link, token) => PublishGrows(s, c, ws, link, token);
    case Forgotten(token) => ForgetGrows(s, token);
    case _ =>
  }
}
