/** The connCache object and the pump goroutine of linksocks/server.go, proved
    against their value models. Sending, closing and draining demand an open
    queue, so each method also shows that it never meets a closed one. */
module ServerCache {
  import opened Bytes
  import opened ConnCache
  import opened ConnCacheRuns
  import opened Pumps
  import PumpRuns

  lemma ForgetMore(s: Cache, gone: set<ChannelID>, c: ChannelID)
    ensures Forget(Forget(s, gone), {c}) == Forget(s, gone + {c})
  {
    var t, u := Forget(Forget(s, gone), {c}), Forget(s, gone + {c});
    assert t.links.toClient == u.links.toClient && t.links.toConnector == u.links.toConnector && t.orphans == u.orphans;
  }

  /** The cache after a drain that wrote n frames, with these events meanwhile. */
  function Drained(s: Cache, c: ChannelID, evs: seq<Event>, n: nat): Cache {
    var t := After(BeginDrain(s, c), evs);
    if n < |Taken(s, c)| then Requeue(t, c, Taken(s, c)[n..]) else t
  }

  lemma {:induction false} AfterJoin(s: Cache, front: seq<Event>, more: seq<Event>)
    ensures After(s, front + more) == After(After(s, front), more)
    decreases |more|
  {
    if more == [] {
      assert front + more == front;
    } else {
      AfterJoin(s, front, more[..|more| - 1]);
      assert (front + more)[..|front + more| - 1] == front + more[..|more| - 1];
    }
  }

  /** A drain that stops after n writes, whatever others do meanwhile short of
      cleaning the channel up, keeps the order of the return path. */
  lemma DrainedInOrder(s: Cache, c: ChannelID, evs: seq<Event>, n: nat)
    requires ConnCacheRuns.Inv(s) && c in s.back && AllQuiet(BeginDrain(s, c), evs, c, s.back[c]) && n <= |Taken(s, c)|
    ensures var t := Drained(s, c, evs, n);
            && c in t.back && t.back[c] == s.back[c]
            && Taken(s, c)[..n] + Items(t, t.back[c]) == Prefix(Taken(s, c) + Arrivals(c, evs), n + CAPACITY)
  {
    var taken, later := Taken(s, c), Arrivals(c, evs);
    if n < |taken| {
      FailedDrainKeepsOrder(s, c, evs, n);
    } else {
      CompleteDrainKeepsOrder(s, c, evs);
      assert taken[..n] == taken && (|later| > CAPACITY ==> (taken + later)[..n + CAPACITY] == taken + later[..CAPACITY]);
    }
  }

  class ConnectorCache {
    var toClient: map<ChannelID, LinkID>
    var toConnector: map<ChannelID, LinkID>
    var orphanQueues: map<ChannelID, QueueID>
    var returnQueues: map<ChannelID, QueueID>
    var tokenCache: map<Token, seq<ChannelID>>
    var queues: map<QueueID, Queue>
    var made: QueueID

    ghost function View(): Cache
      reads this
    {
      Cache(Links(toClient, toConnector, tokenCache), orphanQueues, returnQueues, Store(queues, made, false))
    }

    ghost predicate Valid()
      reads this
    {
      ConnCacheRuns.Inv(View())
    }

    constructor ()
      ensures View() == EMPTY && Valid()
    {
      toClient, toConnector, orphanQueues, returnQueues, tokenCache := map[], map[], map[], map[], map[];
      queues, made := map[], 0;
    }

    method MakeQueue() returns (q: QueueID)
      requires Valid()
      modifies `queues, `made
      ensures q == old(made) && View() == Make(old(View())) && Valid()
    {
      MakeKeeps(View());
      q := made;
      queues, made := queues[q := Queue([], true)], made + 1;
    }

    method Send(q: QueueID, m: Frame) returns (sent: bool)
      requires Valid() && Live(View(), q)
      modifies `queues
      ensures View() == Push(old(View()), q, m) && Valid() && Live(View(), q)
      ensures sent <==> |old(View().store.heap[q].items)| < CAPACITY
    {
      PushKeeps(View(), q, m);
      sent := |queues[q].items| < CAPACITY;
      if sent {
        queues := queues[q := Queue(queues[q].items + [m], true)];
      }
    }

    method DrainQueue(q: QueueID) returns (out: seq<Frame>)
      requires Valid() && Live(View(), q)
      modifies `queues
      ensures out == old(Items(View(), q)) && View() == Emptied(old(View()), q) && Valid() && Live(View(), q)
    {
      EmptiedKeeps(View(), q);
      out := [];
      while queues[q].items != []
        invariant q in queues && queues[q].open && out + queues[q].items == old(queues[q].items)
        invariant queues == old(queues)[q := queues[q]]
        decreases |queues[q].items|
      {
        out := out + [queues[q].items[0]];
        queues := queues[q := Queue(queues[q].items[1..], true)];
      }
      assert queues == old(queues)[q := Queue([], true)];
    }

    method ReserveOrphanQueue(c: ChannelID)
      requires Valid()
      modifies this
      ensures View() == Reserve(old(View()), c) && Valid()
    {
      ReserveKeeps(View(), c);
      if c !in orphanQueues {
        var q := MakeQueue();
        orphanQueues := orphanQueues[c := q];
      }
    }

    method BufferOrphanPayload(c: ChannelID, m: Frame) returns (sent: bool)
      requires Valid()
      modifies this
      ensures View() == BufferOrphan(old(View()), c, m) && Valid()
    {
      ReserveOrphanQueue(c);
      sent := Send(orphanQueues[c], m);
    }

    /** The provider link to write to, when the frame is not queued here. */
    method RouteConnectorPayload(c: ChannelID, m: Frame) returns (target: Option<LinkID>)
      requires Valid()
      modifies this
      ensures View() == Route(old(View()), c, m) && Valid()
      ensures target == if c in old(orphanQueues) || c !in old(toClient) then None else Some(old(toClient[c]))
    {
      target := None;
      var sent;
      if c in orphanQueues {
        sent := Send(orphanQueues[c], m);
      } else if c in toClient {
        target := Some(toClient[c]);
      } else {
        sent := BufferOrphanPayload(c, m);
      }
    }

    method BufferConnectorReturn(c: ChannelID, m: Frame) returns (sent: bool)
      requires Valid()
      modifies this
      ensures View() == BufferReturn(old(View()), c, m) && Valid()
    {
      ReserveReturnKeeps(View(), c);
      if c !in returnQueues {
        var q := MakeQueue();
        returnQueues := returnQueues[c := q];
      }
      sent := Send(returnQueues[c], m);
    }

    method CloseQueue(q: QueueID)
      requires Live(View(), q)
      modifies `queues
      ensures View() == Close(old(View()), q)
    {
      queues := queues[q := Queue(queues[q].items, false)];
    }

    method ExpireConnectorReturn(c: ChannelID)
      requires Valid()
      modifies this
      ensures View() == ExpireReturn(old(View()), c) && Valid()
    {
      ApplyKeeps(View(), ReturnExpired(c));
      if c in returnQueues && c !in toConnector {
        var q := returnQueues[c];
        returnQueues := returnQueues - {c};
        CloseQueue(q);
      }
    }

    method ExpireOrphanData(c: ChannelID)
      requires Valid()
      modifies this
      ensures View() == ExpireOrphan(old(View()), c) && Valid()
    {
      ApplyKeeps(View(), OrphanExpired(c));
      if c in orphanQueues && c !in toClient {
        var q := orphanQueues[c];
        orphanQueues := orphanQueues - {c};
        CloseQueue(q);
      }
    }

    method CleanupConnectorChannel(c: ChannelID)
      requires Valid()
      modifies this
      ensures View() == Cleanup(old(View()), c) && Valid()
    {
      CleanupKeeps(View(), c);
      toClient, toConnector := toClient - {c}, toConnector - {c};
      if c in orphanQueues {
        var q := orphanQueues[c];
        orphanQueues := orphanQueues - {c};
        CloseQueue(q);
      }
      if c in returnQueues {
        var q := returnQueues[c];
        returnQueues := returnQueues - {c};
        CloseQueue(q);
      }
    }

    /** The first locked section of a drain: take everything buffered. */
    method TakeReturn(c: ChannelID) returns (taken: seq<Frame>)
      requires Valid()
      modifies `queues
      ensures taken == Taken(old(View()), c) && View() == BeginDrain(old(View()), c) && Valid()
    {
      taken := [];
      if c in returnQueues {
        taken := DrainQueue(returnQueues[c]);
      }
    }

    /** The second: put what was not written back ahead of later arrivals. */
    method RequeueReturn(c: ChannelID, rest: seq<Frame>)
      requires Valid()
      modifies `queues
      ensures View() == Requeue(old(View()), c, rest) && Valid()
    {
      if c in returnQueues {
        var q := returnQueues[c];
        var later := DrainQueue(q);
        var merged := rest + later;
        ghost var start := View();
        var i := 0;
        while i < |merged|
          invariant 0 <= i <= |merged| && Valid() && Live(View(), q)
          invariant View() == PushAll(start, q, merged[..i])
          invariant returnQueues == old(returnQueues)
        {
          assert merged[..i + 1][..i] == merged[..i];
          var sent := Send(q, merged[i]);
          i := i + 1;
        }
        assert merged[..i] == merged;
      }
    }

    method MapBinding(c: ChannelID, ws: LinkID, link: LinkID, token: Token)
      modifies `toClient, `toConnector, `tokenCache
      ensures View() == Mapped(old(View()), c, ws, link, token)
    {
      if c !in toConnector || toConnector[c] == ws {
        toConnector := toConnector[c := ws];
      }
      toClient := toClient[c := link];
      var ids := if token in tokenCache then tokenCache[token] else [];
      if c !in ids {
        tokenCache := tokenCache[token := ids + [c]];
      }
    }

    /** The pump's locked section before it binds the provider. */
    method PublishBinding(c: ChannelID, ws: LinkID, link: LinkID, token: Token) returns (queue: QueueID, target: LinkID)
      requires Valid()
      modifies this
      ensures View() == Publish(old(View()), c, ws, link, token) && Valid()
      ensures c in orphanQueues && queue == orphanQueues[c] && c in toConnector && target == toConnector[c]
    {
      MapsKeep(View(), Mapped(View(), c, ws, link, token));
      MapBinding(c, ws, link, token);
      ReserveOrphanQueue(c);
      queue, target := orphanQueues[c], toConnector[c];
    }

    /** Removing a token forgets its channels one by one. */
    method ForgetChannels(token: Token)
      requires Valid()
      modifies this
      ensures View() == ForgetToken(old(View()), token) && Valid()
    {
      ForgetKeeps(View(), token);
      if token in tokenCache {
        var ids := tokenCache[token];
        var i := 0;
        while i < |ids|
          invariant 0 <= i <= |ids| && View() == Forget(old(View()), Members(ids[..i]))
        {
          MembersMore(ids, i);
          ForgetMore(old(View()), Members(ids[..i]), ids[i]);
          toClient, toConnector, orphanQueues := toClient - {ids[i]}, toConnector - {ids[i]}, orphanQueues - {ids[i]};
          i := i + 1;
        }
        assert ids[..i] == ids;
        tokenCache := tokenCache - {token};
      }
    }

    method Receive(q: QueueID) returns (m: Frame)
      requires Valid() && q in queues && queues[q].items != []
      modifies `queues
      ensures m == old(queues[q].items[0]) && View() == Pop(old(View()), q) && Valid()
    {
      PopKeeps(View(), q);
      m := queues[q].items[0];
      queues := queues[q := queues[q].(items := queues[q].items[1..])];
    }

    /** Whatever another goroutine does to the cache in one locked section. */
    method Perform(ev: Event)
      requires Valid()
      modifies this
      ensures View() == Apply(old(View()), ev) && Valid()
    {
      ApplyKeeps(View(), ev);
      match ev
      case Reserved(c) => ReserveOrphanQueue(c);
      case Arrived(c, m) => var _ := RouteConnectorPayload(c, m);
      case Returned(c, m) => var _ := BufferConnectorReturn(c, m);
      case OrphanExpired(c) => ExpireOrphanData(c);
      case ReturnExpired(c) => ExpireConnectorReturn(c);
      case CleanedUp(c) => CleanupConnectorChannel(c);
      case DrainBegun(c) => var _ := TakeReturn(c);
      case DrainFailed(c, rest) => RequeueReturn(c, rest);
      case Published(c, ws, link, token) => var _, _ := PublishBinding(c, ws, link, token);
      case Forgotten(token) => ForgetChannels(token);
      case MapClient(c, link) => toClient := toClient[c := link];
      case MapConnector(c, link) => toConnector := toConnector[c := link];
      case MapToken(c, token) => tokenCache := WithChannel(tokenCache, token, c);
      case Popped(q) =>
        if q in queues && queues[q].items != [] {
          var _ := Receive(q);
        }
    }

    method PerformAll(evs: seq<Event>)
      requires Valid()
      modifies this
      ensures View() == After(old(View()), evs) && Valid()
    {
      var i := 0;
      while i < |evs|
        invariant 0 <= i <= |evs| && Valid() && View() == After(old(View()), evs[..i])
      {
        assert evs[..i + 1][..i] == evs[..i];
        Perform(evs[i]);
        i := i + 1;
      }
      assert evs[..i] == evs;
    }

    /** A drain: write i succeeds when `lands(i)`, and others do `meanwhile(i)`
        to the cache before it ends. All that they did is `evs`. */
    method DrainConnectorReturn(c: ChannelID, lands: nat -> bool, meanwhile: nat -> seq<Event>)
      returns (written: seq<Frame>, ghost evs: seq<Event>)
      requires Valid()
      modifies this
      ensures Valid() && written <= Taken(old(View()), c)
      ensures View() == Drained(old(View()), c, evs, |written|)
    {
      var pending := TakeReturn(c);
      written, evs := [], [];
      ghost var start := View();
      var i := 0;
      while i < |pending|
        invariant 0 <= i <= |pending| && written == pending[..i] && Valid() && View() == After(start, evs)
      {
        AfterJoin(start, evs, meanwhile(i));
        evs := evs + meanwhile(i);
        PerformAll(meanwhile(i));
        if !lands(i) {
          RequeueReturn(c, pending[i..]);
          return;
        }
        written, i := written + [pending[i]], i + 1;
      }
    }
  }

  /** One pump goroutine between two of its steps. */
  class ConnectorPump {
    const c: ChannelID
    const ws: LinkID
    const token: Token
    var link: Option<LinkID>
    var queue: QueueID
    var pending: Option<Frame>
    var bound: bool
    var at: Place

    ghost function View(): Pump
      reads this
    {
      Pump(ws, token, link, queue, pending, bound, at)
    }

    constructor (c: ChannelID, ws: LinkID, resume: bool, token: Token)
      ensures View() == Pump(ws, token, None, 0, None, resume, Top) && this.c == c
    {
      this.c, this.ws, this.token := c, ws, token;
      link, queue, pending, bound, at := None, 0, None, resume, Top;
    }

    /** The bind message was written, or the link dropped. */
    method TryBind(ghost s: Cache, ghost found: Option<LinkID>, ok: bool) returns (wires: seq<Wire>)
      requires at.Binding? && link.Some?
      modifies this
      ensures Turn(s, Some(View()), wires) == Advance(s, c, old(View()), found, ok)
    {
      var resume := bound;
      bound := true;
      if ok {
        wires, at := [BindOk(link.value, c, resume)], Draining;
      } else {
        wires, link, at := [BindFailed(link.value, c, resume)], None, Top;
      }
    }

    /** The frame in hand was written, or is kept for the next link. */
    method TryWrite(ghost s: Cache, ghost found: Option<LinkID>, ok: bool) returns (wires: seq<Wire>)
      requires at.Holding? && link.Some?
      modifies this
      ensures Turn(s, Some(View()), wires) == Advance(s, c, old(View()), found, ok)
    {
      var m := at.frame;
      if ok {
        wires, at := [Sent(link.value, c, m)], Draining;
      } else {
        wires, pending, link, at := [SendFailed(link.value, c, m)], Some(m), None, Top;
      }
    }

    /** The pending frame first, then the queue; a closed empty queue ends the pump. */
    method TakeFrame(cache: ConnectorCache, ghost found: Option<LinkID>, ghost ok: bool) returns (running: bool)
      requires cache.Valid() && at.Draining? && queue in cache.queues
      modifies this, cache`queues
      ensures cache.Valid()
      ensures var t := Advance(old(cache.View()), c, old(View()), found, ok);
              cache.View() == t.cache && t.wires == [] && running == t.pump.Some? && (running ==> View() == t.pump.value)
    {
      if pending.Some? {
        at, pending := Holding(pending.value), None;
      } else if cache.queues[queue].items != [] {
        var m := cache.Receive(queue);
        at := Holding(m);
      } else if !cache.queues[queue].open {
        return false;
      }
      return true;
    }

    /** One step up to the next point where others may run. */
    method Step(cache: ConnectorCache, found: Option<LinkID>, ok: bool) returns (running: bool, wires: seq<Wire>)
      requires cache.Valid() && PumpRuns.Shaped(View()) && PumpRuns.Owned(cache.View(), c, View())
      modifies this, cache
      ensures cache.Valid()
      ensures var t := Advance(old(cache.View()), c, old(View()), found, ok);
              && cache.View() == t.cache && wires == t.wires && running == t.pump.Some?
              && (running ==> View() == t.pump.value)
    {
      running, wires := true, [];
      match at
      case Top =>
        if c !in cache.orphanQueues {
          return false, [];
        }
        at := if link.None? then Wait else Publishing;
      case Wait =>
        if found.Some? {
          link, at := found, Publishing;
        } else if c !in cache.orphanQueues || !bound {
          return false, [];
        } else {
          at := Top;
        }
      case Publishing =>
        var target;
        queue, target := cache.PublishBinding(c, ws, link.value, token);
        at := Binding;
      case Binding => wires := TryBind(cache.View(), found, ok);
      case Draining => running := TakeFrame(cache, found, ok);
      case Holding(_) => wires := TryWrite(cache.View(), found, ok);
    }
  }
}
