/** Whole runs of the server's pumps: binding before payload, and conservation
    of the frames of a channel. */
module PumpRuns {
  import opened Bytes
  import opened ConnCache
  import opened ConnCacheRuns
  import opened Pumps

  // ------------------------------------------------------ binding and payload

  /** The latest attempt to bind the channel. */
  function LastBind(c: ChannelID, log: seq<Wire>): Option<Wire> {
    if log == [] then None
    else
      var w := log[|log| - 1];
      if (w.BindOk? || w.BindFailed?) && w.c == c then Some(w) else LastBind(c, log[..|log| - 1])
  }

  lemma LastBindMore(c: ChannelID, log: seq<Wire>, w: Wire)
    ensures LastBind(c, log + [w]) == if (w.BindOk? || w.BindFailed?) && w.c == c then Some(w) else LastBind(c, log)
  {
    assert (log + [w])[..|log|] == log;
  }

  /** The latest attempt to bind the channel went to this link and succeeded. */
  predicate BoundTo(c: ChannelID, log: seq<Wire>, link: LinkID) {
    var w := LastBind(c, log);
    w.Some? && w.value.BindOk? && w.value.link == link
  }

  /** Where a pump is, it has what it needs there. */
  ghost predicate Shaped(p: Pump) {
    && (p.at.Publishing? || p.at.Binding? || p.at.Draining? || p.at.Holding? ==> p.link.Some?)
    && (p.at.Holding? ==> p.pending.None?) && (p.at.Draining? || p.at.Holding? ==> p.bound)
  }

  /** No entry but the channel's own buffer may be this queue. */
  ghost predicate Private(s: Cache, c: ChannelID, q: QueueID) {
    && q < s.store.made && (forall d | d in s.back :: s.back[d] != q)
    && (forall d | d in s.orphans && d != c :: s.orphans[d] != q)
  }

  /** The pump's queue exists and no other channel uses it. */
  ghost predicate Owned(s: Cache, c: ChannelID, p: Pump) {
    p.at.Binding? || p.at.Draining? || p.at.Holding? ==> p.queue in s.store.heap && Private(s, c, p.queue)
  }

  ghost predicate Bound(log: seq<Wire>, c: ChannelID, p: Pump) {
    p.at.Draining? || p.at.Holding? ==> p.link.Some? && BoundTo(c, log, p.link.value)
  }

  ghost predicate PumpOk(s: Cache, log: seq<Wire>, c: ChannelID, p: Pump) {
    Shaped(p) && Owned(s, c, p) && Bound(log, c, p)
  }

  /** Every payload a pump writes, or tries to write, goes to the link of the
      latest bind of its channel, and that bind succeeded. */
  ghost predicate BindFirst(log: seq<Wire>) { forall i | 0 <= i < |log| :: Backed(log[..i], log[i]) }

  ghost predicate Inv(s: Server) {
    ConnCacheRuns.Inv(s.cache) && BindFirst(s.log) && forall c | c in s.pumps :: PumpOk(s.cache, s.log, c, s.pumps[c])
  }

  lemma OwnedGrows(s: Cache, t: Cache, c: ChannelID, p: Pump)
    requires Owned(s, c, p) && Grows(s, t)
    ensures Owned(t, c, p)
  {
    forall d | d in t.back && Private(s, c, p.queue)
      ensures t.back[d] != p.queue
    {
      assert FreshReturn(s, t, d);
    }
    forall d | d in t.orphans && d != c && Private(s, c, p.queue)
      ensures t.orphans[d] != p.queue
    {
      assert FreshOrphan(s, t, d);
    }
  }

  lemma PublishOwned(s: Cache, ev: Event)
    requires ConnCacheRuns.Inv(s) && ev.Published?
    ensures var t := Apply(s, ev); ev.c in t.orphans && t.orphans[ev.c] in t.store.heap && Private(t, ev.c, t.orphans[ev.c])
  {
    var t := Apply(s, ev);
    ApplyKeeps(s, ev);
    assert Live(t, t.orphans[ev.c]);
  }

  lemma AdvanceEvent(s: Cache, c: ChannelID, p: Pump, found: Option<LinkID>, ok: bool) returns (ev: Event)
    ensures ev.Published? || ev.Popped?
    ensures Advance(s, c, p, found, ok).cache == s || Advance(s, c, p, found, ok).cache == Apply(s, ev)
  {
    ev := if p.at.Publishing? && p.link.Some? then Published(c, p.ws, p.link.value, p.token) else Popped(p.queue);
  }

  lemma AdvanceCache(s: Cache, c: ChannelID, p: Pump, found: Option<LinkID>, ok: bool)
    requires ConnCacheRuns.Inv(s)
    ensures ConnCacheRuns.Inv(Advance(s, c, p, found, ok).cache) && Grows(s, Advance(s, c, p, found, ok).cache)
  {
    var ev := AdvanceEvent(s, c, p, found, ok);
    ApplyKeeps(s, ev);
    ApplyGrows(s, ev);
    assert Grows(s, s);
  }

  lemma DrainOwned(s: Cache, c: ChannelID, p: Pump, found: Option<LinkID>, ok: bool)
    requires p.at.Draining? && Shaped(p) && Owned(s, c, p) && Advance(s, c, p, found, ok).pump.Some?
    ensures var t := Advance(s, c, p, found, ok); Shaped(t.pump.value) && Owned(t.cache, c, t.pump.value)
  {
    ApplyGrows(s, Popped(p.queue));
    OwnedGrows(s, Apply(s, Popped(p.queue)), c, p);
  }

  lemma AdvancePump(s: Cache, c: ChannelID, p: Pump, found: Option<LinkID>, ok: bool)
    requires ConnCacheRuns.Inv(s) && Shaped(p) && Owned(s, c, p) && Advance(s, c, p, found, ok).pump.Some?
    ensures var t := Advance(s, c, p, found, ok); Shaped(t.pump.value) && Owned(t.cache, c, t.pump.value)
  {
    if p.at.Publishing? {
      PublishOwned(s, Published(c, p.ws, p.link.value, p.token));
    } else if p.at.Draining? {
      DrainOwned(s, c, p, found, ok);
    }
  }

  /** A payload goes to the link of its channel's latest bind, which succeeded. */
  ghost predicate Backed(log: seq<Wire>, w: Wire) {
    w.Sent? || w.SendFailed? ==> BoundTo(w.c, log, w.link)
  }

  lemma AdvanceLog(s: Cache, log: seq<Wire>, c: ChannelID, p: Pump, found: Option<LinkID>, ok: bool)
    requires Shaped(p) && Bound(log, c, p)
    ensures var t := Advance(s, c, p, found, ok);
            && |t.wires| <= 1 && (t.pump.Some? ==> Bound(log + t.wires, c, t.pump.value))
            && (t.wires != [] ==> t.wires[0].c == c && Backed(log, t.wires[0]))
  {
    var t := Advance(s, c, p, found, ok);
    if t.wires == [] {
      assert log + t.wires == log;
    } else {
      LastBindMore(c, log, t.wires[0]);
    }
  }

  lemma BindFirstMore(log: seq<Wire>, w: Wire)
    requires BindFirst(log) && Backed(log, w)
    ensures BindFirst(log + [w])
  {
    forall i | 0 <= i < |log + [w]|
      ensures Backed((log + [w])[..i], (log + [w])[i])
    {
      assert (log + [w])[..i] == log[..i];
      assert log[..|log|] == log;
    }
  }

  /** The pumps of other channels are not affected by a step. */
  lemma OthersKeep(s: Server, t: Cache, wires: seq<Wire>, c: ChannelID, d: ChannelID)
    requires d in s.pumps && PumpOk(s.cache, s.log, d, s.pumps[d]) && Grows(s.cache, t)
    requires |wires| <= 1 && (wires != [] ==> wires[0].c == c && (c != d || wires[0].Direct?))
    ensures PumpOk(t, s.log + wires, d, s.pumps[d])
  {
    OwnedGrows(s.cache, t, d, s.pumps[d]);
    if wires == [] {
      assert s.log + wires == s.log;
    } else {
      LastBindMore(d, s.log, wires[0]);
    }
  }

  lemma TickKeeps(s: Server, c: ChannelID, found: Option<LinkID>, ok: bool)
    requires Inv(s) && c in s.pumps
    ensures Inv(Next(s, Tick(c, found, ok)))
  {
    var p, u := s.pumps[c], Next(s, Tick(c, found, ok));
    var t := Advance(s.cache, c, p, found, ok);
    AdvanceCache(s.cache, c, p, found, ok);
    AdvanceLog(s.cache, s.log, c, p, found, ok);
    if t.pump.Some? {
      AdvancePump(s.cache, c, p, found, ok);
    }
    forall d | d in u.pumps
      ensures PumpOk(u.cache, u.log, d, u.pumps[d])
    {
      if d != c {
        OthersKeep(s, t.cache, t.wires, c, d);
      }
    }
    if t.wires == [] {
      assert s.log + t.wires == s.log;
    } else {
      BindFirstMore(s.log, t.wires[0]);
    }
  }

  lemma OtherKeeps(s: Server, t: Cache, wires: seq<Wire>)
    requires Inv(s) && ConnCacheRuns.Inv(t) && Grows(s.cache, t) && |wires| <= 1 && (wires != [] ==> wires[0].Direct?)
    ensures Inv(Server(t, s.pumps, s.log + wires, s.accepted))
  {
    forall d | d in s.pumps
      ensures PumpOk(t, s.log + wires, d, s.pumps[d])
    {
      OthersKeep(s, t, wires, if wires == [] then 0 else wires[0].c, d);
    }
    if wires == [] {
      assert s.log + wires == s.log;
    } else {
      BindFirstMore(s.log, wires[0]);
      assert s.log + wires == s.log + [wires[0]];
    }
  }

  lemma NextKeeps(s: Server, step: Step)
    requires Inv(s)
    ensures Inv(Next(s, step))
  {
    match step
    case Start(c, ws, resume, token) =>
      if c in s.pumps && resume {
        OtherKeeps(s, Next(s, step).cache, []);
      }
    case Tick(c, found, ok) =>
      if c in s.pumps {
        TickKeeps(s, c, found, ok);
      }
    case Stop(c) =>
    case Other(ev) => EventKeeps(s, ev);
  }

  /** What an arrival writes past the pump. */
  function Bypassing(s: Server, ev: Event): seq<Wire> {
    if ev.Arrived? && Bypasses(s.cache, ev.c) then [Direct(s.cache.links.toClient[ev.c], ev.c, ev.m)] else []
  }

  lemma EventKeeps(s: Server, ev: Event)
    requires Inv(s)
    ensures Inv(Next(s, Other(ev)))
  {
    ApplyKeeps(s.cache, ev);
    ApplyGrows(s.cache, ev);
    OtherKeeps(s, Apply(s.cache, ev), Bypassing(s, ev));
    if !ev.Arrived? {
      assert s.log + [] == s.log;
    }
  }

  lemma {:induction false} RunKeeps(s: Server, steps: seq<Step>)
    requires Inv(s)
    ensures Inv(Run(s, steps))
    decreases |steps|
  {
    if steps != [] {
      RunKeeps(s, steps[..|steps| - 1]);
      NextKeeps(Run(s, steps[..|steps| - 1]), steps[|steps| - 1]);
    }
  }

  /** On every link, in every run: the bind comes before any payload, and
      nothing re-bound the channel in between. */
  lemma BindBeforePayload(steps: seq<Step>, i: nat)
    requires i < |Run(IDLE, steps).log| && (Run(IDLE, steps).log[i].Sent? || Run(IDLE, steps).log[i].SendFailed?)
    ensures var w := Run(IDLE, steps).log[i];
            BoundTo(w.c, Run(IDLE, steps).log[..i], w.link)
  {
    RunKeeps(IDLE, steps);
    assert Backed(Run(IDLE, steps).log[..i], Run(IDLE, steps).log[i]);
  }

  // ------------------------------------------------------------ conservation

  /** The channel's frames written to providers, in order. */
  function SentOf(c: ChannelID, log: seq<Wire>): seq<Frame> {
    if log == [] then []
    else
      var w := log[|log| - 1];
      SentOf(c, log[..|log| - 1]) + if w.Sent? && w.c == c then [w.m] else []
  }

  /** The channel's frames accepted into its queue, in order. */
  function AcceptedOf(c: ChannelID, accepted: seq<(ChannelID, Frame)>): seq<Frame> {
    if accepted == [] then []
    else
      var x := accepted[|accepted| - 1];
      AcceptedOf(c, accepted[..|accepted| - 1]) + if x.0 == c then [x.1] else []
  }

  /** The frame a pump has taken and not yet written. */
  function Held(pumps: map<ChannelID, Pump>, c: ChannelID): seq<Frame> {
    if c !in pumps then [] else HeldBy(pumps[c])
  }

  function HeldBy(p: Pump): seq<Frame> {
    if p.at.Holding? then [p.at.frame] else if p.pending.Some? then [p.pending.value] else []
  }

  /** Written, then in hand, then queued. */
  function Balance(s: Server, c: ChannelID, q: QueueID): seq<Frame> {
    SentOf(c, s.log) + Held(s.pumps, c) + Items(s.cache, q)
  }

  lemma SentMore(c: ChannelID, log: seq<Wire>, w: Wire)
    ensures SentOf(c, log + [w]) == SentOf(c, log) + if w.Sent? && w.c == c then [w.m] else []
  {
    assert (log + [w])[..|log|] == log;
  }

  lemma AcceptedMore(c: ChannelID, accepted: seq<(ChannelID, Frame)>, x: (ChannelID, Frame))
    ensures AcceptedOf(c, accepted + [x]) == AcceptedOf(c, accepted) + if x.0 == c then [x.1] else []
  {
    assert (accepted + [x])[..|accepted|] == accepted;
  }

  ghost predicate Alive(s: Cache, c: ChannelID, q: QueueID) { c in s.orphans && s.orphans[c] == q }

  ghost predicate OnQueue(pumps: map<ChannelID, Pump>, c: ChannelID, q: QueueID) {
    c in pumps ==> Pulling(pumps[c], q)
  }

  ghost predicate Pulling(p: Pump, q: QueueID) {
    p.at.Binding? || p.at.Draining? || p.at.Holding? ==> p.queue == q
  }

  lemma PopBalances(s: Cache, sent: seq<Frame>, q: QueueID)
    requires q in s.store.heap && s.store.heap[q].items != []
    ensures sent + [s.store.heap[q].items[0]] + Items(Pop(s, q), q) == sent + [] + Items(s, q)
  {
    assert s.store.heap[q].items == [s.store.heap[q].items[0]] + s.store.heap[q].items[1..];
  }

  lemma DrainBalances(s: Cache, sent: seq<Frame>, c: ChannelID, q: QueueID, p: Pump, found: Option<LinkID>, ok: bool)
    requires p.at.Draining? && p.queue == q && Advance(s, c, p, found, ok).pump.Some?
    ensures var t := Advance(s, c, p, found, ok);
            && t.wires == [] && sent + HeldBy(t.pump.value) + Items(t.cache, q) == sent + HeldBy(p) + Items(s, q)
            && t.pump.value.queue == q
  {
    if p.pending.None? && s.store.heap[q].items != [] {
      PopBalances(s, sent, q);
    }
  }

  lemma WriteBalances(log: seq<Wire>, c: ChannelID, m: Frame, link: LinkID, items: seq<Frame>)
    ensures SentOf(c, log + [Sent(link, c, m)]) + [] + items == SentOf(c, log) + [m] + items
    ensures SentOf(c, log + [SendFailed(link, c, m)]) == SentOf(c, log)
    ensures forall b :: SentOf(c, log + [BindOk(link, c, b)]) == SentOf(c, log) && SentOf(c, log + [BindFailed(link, c, b)]) == SentOf(c, log)
  {
    SentMore(c, log, Sent(link, c, m));
    SentMore(c, log, SendFailed(link, c, m));
    forall b
      ensures SentOf(c, log + [BindOk(link, c, b)]) == SentOf(c, log) && SentOf(c, log + [BindFailed(link, c, b)]) == SentOf(c, log)
    {
      SentMore(c, log, BindOk(link, c, b));
      SentMore(c, log, BindFailed(link, c, b));
    }
  }

  lemma HoldBalances(s: Cache, log: seq<Wire>, c: ChannelID, q: QueueID, p: Pump, found: Option<LinkID>, ok: bool)
    requires Shaped(p) && p.at.Holding? && p.queue == q
    ensures var t := Advance(s, c, p, found, ok);
            && t.pump.Some? && t.cache == s && Pulling(t.pump.value, q)
            && SentOf(c, log + t.wires) + HeldBy(t.pump.value) + Items(s, q) == SentOf(c, log) + HeldBy(p) + Items(s, q)
  {
    WriteBalances(log, c, p.at.frame, p.link.value, Items(s, q));
  }

  lemma BindBalances(s: Cache, log: seq<Wire>, c: ChannelID, q: QueueID, p: Pump, found: Option<LinkID>, ok: bool)
    requires Shaped(p) && (p.at.Top? || p.at.Wait? || p.at.Publishing? || p.at.Binding?) && Alive(s, c, q) && Pulling(p, q)
    requires Advance(s, c, p, found, ok).pump.Some?
    ensures var t := Advance(s, c, p, found, ok);
            && SentOf(c, log + t.wires) == SentOf(c, log) && HeldBy(t.pump.value) == HeldBy(p)
            && Items(t.cache, q) == Items(s, q) && Pulling(t.pump.value, q)
  {
    if p.at.Binding? {
      WriteBalances(log, c, Data([]), p.link.value, []);
    } else {
      assert log + [] == log;
    }
  }

  /** One step of the channel's own pump moves frames along, losing none. */
  lemma AdvanceBalances(s: Cache, log: seq<Wire>, c: ChannelID, q: QueueID, p: Pump, found: Option<LinkID>, ok: bool)
    requires Shaped(p) && Alive(s, c, q) && Pulling(p, q) && Advance(s, c, p, found, ok).pump.Some?
    ensures var t := Advance(s, c, p, found, ok);
            && SentOf(c, log + t.wires) + HeldBy(t.pump.value) + Items(t.cache, q) == SentOf(c, log) + HeldBy(p) + Items(s, q)
            && Pulling(t.pump.value, q)
  {
    if p.at.Draining? {
      DrainBalances(s, SentOf(c, log), c, q, p, found, ok);
      assert log + [] == log;
    } else if p.at.Holding? {
      HoldBalances(s, log, c, q, p, found, ok);
    } else {
      BindBalances(s, log, c, q, p, found, ok);
    }
  }

  lemma OtherArrivedItems(s: Cache, d: ChannelID, m: Frame, c: ChannelID, q: QueueID)
    requires ConnCacheRuns.Inv(s) && Alive(s, c, q) && d != c
    ensures Items(ConnCache.Route(s, d, m), q) == Items(s, q)
  {
    if d in s.orphans {
      PushKeeps(s, s.orphans[d], m);
    } else if d !in s.links.toClient {
      MakeKeeps(s);
      ReserveKeeps(s, d);
      PushKeeps(Reserve(s, d), s.store.made, m);
    }
  }

  lemma OtherReturnedItems(s: Cache, d: ChannelID, m: Frame, c: ChannelID, q: QueueID)
    requires ConnCacheRuns.Inv(s) && Alive(s, c, q)
    ensures Items(BufferReturn(s, d, m), q) == Items(s, q)
  {
    MakeKeeps(s);
    ReserveReturnKeeps(s, d);
    PushKeeps(ReserveReturn(s, d), ReserveReturn(s, d).back[d], m);
  }

  lemma DrainItems(s: Cache, d: ChannelID, rest: seq<Frame>, c: ChannelID, q: QueueID)
    requires ConnCacheRuns.Inv(s) && Alive(s, c, q)
    ensures Items(BeginDrain(s, d), q) == Items(s, q) && Items(Requeue(s, d, rest), q) == Items(s, q)
  {
    if d in s.back {
      EmptiedKeeps(s, s.back[d]);
      PushAllKeeps(Emptied(s, s.back[d]), s.back[d], rest + Items(s, s.back[d]));
    }
  }

  lemma CloseItems(s: Cache, p: QueueID, q: QueueID)
    ensures Items(Close(s, p), q) == Items(s, q)
  {
  }

  lemma ExpireItems(s: Cache, d: ChannelID, q: QueueID)
    ensures Items(ExpireOrphan(s, d), q) == Items(s, q) && Items(ExpireReturn(s, d), q) == Items(s, q)
  {
    if d in s.orphans {
      CloseItems(s.(orphans := s.orphans - {d}), s.orphans[d], q);
    }
    if d in s.back {
      CloseItems(s.(back := s.back - {d}), s.back[d], q);
    }
  }

  lemma CleanupItems(s: Cache, d: ChannelID, q: QueueID)
    ensures Items(Cleanup(s, d), q) == Items(s, q)
  {
    var t := Unmap(s, d);
    var u := if d in t.orphans then Close(t.(orphans := t.orphans - {d}), t.orphans[d]) else t;
    assert Items(u, q) == Items(s, q) by {
      if d in t.orphans {
        CloseItems(t.(orphans := t.orphans - {d}), t.orphans[d], q);
      }
    }
    if d in u.back {
      CloseItems(u.(back := u.back - {d}), u.back[d], q);
    }
  }

  lemma ReserveItems(s: Cache, d: ChannelID, q: QueueID)
    requires ConnCacheRuns.Inv(s) && q in s.store.heap
    ensures Items(Reserve(s, d), q) == Items(s, q)
  {
    MakeKeeps(s);
  }

  lemma OtherItems(s: Cache, ev: Event, c: ChannelID, q: QueueID)
    requires ConnCacheRuns.Inv(s) && Alive(s, c, q) && !ev.Popped? && !(ev.Arrived? && ev.c == c)
    ensures Items(Apply(s, ev), q) == Items(s, q)
  {
    match ev
    case Reserved(d) => ReserveItems(s, d, q);
    case Arrived(d, m) => OtherArrivedItems(s, d, m, c, q);
    case Returned(d, m) => OtherReturnedItems(s, d, m, c, q);
    case OrphanExpired(d) => ExpireItems(s, d, q);
    case ReturnExpired(d) => ExpireItems(s, d, q);
    case CleanedUp(d) => CleanupItems(s, d, q);
    case DrainBegun(d) => DrainItems(s, d, [], c, q);
    case DrainFailed(d, rest) => DrainItems(s, d, rest, c, q);
    case _ =>
  }

  lemma ArrivedItems(s: Cache, c: ChannelID, q: QueueID, m: Frame)
    requires ConnCacheRuns.Inv(s) && Alive(s, c, q)
    ensures Items(ConnCache.Route(s, c, m), q) == Items(s, q) + if Admitted(s, c) then [m] else []
  {
    PushKeeps(s, q, m);
  }

  /** What a step adds to the channel's queue. */
  function Gain(s: Server, step: Step, c: ChannelID): seq<Frame> {
    if step.Other? && step.ev.Arrived? && step.ev.c == c && Admitted(s.cache, c) then [step.ev.m] else []
  }

  /** The pump of another channel never touches this channel's queue. */
  lemma OtherPumpItems(s: Server, c: ChannelID, q: QueueID, step: Step)
    requires Inv(s) && Alive(s.cache, c, q) && step.Tick? && step.c != c && step.c in s.pumps
    ensures Items(Next(s, step).cache, q) == Items(s.cache, q)
  {
    var d := step.c;
    var p := s.pumps[d];
    assert PumpOk(s.cache, s.log, d, p);
    if p.at.Publishing? && p.link.Some? {
      OtherItems(s.cache, Published(d, p.ws, p.link.value, p.token), c, q);
    } else if p.at.Draining? {
      assert Private(s.cache, d, p.queue);
      assert p.queue != q;
    }
  }

  lemma OtherPumpSent(s: Server, c: ChannelID, step: Step)
    requires Inv(s) && step.Tick? && step.c != c && step.c in s.pumps
    ensures SentOf(c, Next(s, step).log) == SentOf(c, s.log)
  {
    assert PumpOk(s.cache, s.log, step.c, s.pumps[step.c]);
    var t := Advance(s.cache, step.c, s.pumps[step.c], step.found, step.ok);
    AdvanceLog(s.cache, s.log, step.c, s.pumps[step.c], step.found, step.ok);
    if t.wires == [] {
      assert s.log + t.wires == s.log;
    } else {
      SentMore(c, s.log, t.wires[0]);
      assert s.log + t.wires == s.log + [t.wires[0]];
    }
  }

  lemma OwnPumpBalances(s: Server, c: ChannelID, q: QueueID, step: Step)
    requires Inv(s) && Alive(s.cache, c, q) && OnQueue(s.pumps, c, q)
    requires step.Tick? && step.c == c && c in s.pumps && c in Next(s, step).pumps
    ensures Balance(Next(s, step), c, q) == Balance(s, c, q) && OnQueue(Next(s, step).pumps, c, q)
  {
    assert PumpOk(s.cache, s.log, c, s.pumps[c]);
    AdvanceBalances(s.cache, s.log, c, q, s.pumps[c], step.found, step.ok);
  }

  lemma ArrivalAccepted(s: Server, c: ChannelID, step: Step)
    requires step.Other? && step.ev.Arrived?
    ensures AcceptedOf(c, Next(s, step).accepted) == AcceptedOf(c, s.accepted) + Gain(s, step, c)
  {
    if Admitted(s.cache, step.ev.c) {
      AcceptedMore(c, s.accepted, (step.ev.c, step.ev.m));
    } else {
      assert s.accepted + [] == s.accepted;
    }
  }

  lemma ArrivalSent(s: Server, c: ChannelID, step: Step)
    requires step.Other? && step.ev.Arrived?
    ensures SentOf(c, Next(s, step).log) == SentOf(c, s.log) && Next(s, step).pumps == s.pumps
  {
    var d := step.ev.c;
    if d !in s.cache.orphans && d in s.cache.links.toClient {
      SentMore(c, s.log, Direct(s.cache.links.toClient[d], d, step.ev.m));
    } else {
      assert s.log + [] == s.log;
    }
  }

  lemma ArrivalItems(s: Server, c: ChannelID, q: QueueID, step: Step)
    requires Inv(s) && Alive(s.cache, c, q) && step.Other? && step.ev.Arrived?
    ensures Items(Next(s, step).cache, q) == Items(s.cache, q) + Gain(s, step, c)
  {
    if step.ev.c == c {
      ArrivedItems(s.cache, c, q, step.ev.m);
    } else {
      OtherArrivedItems(s.cache, step.ev.c, step.ev.m, c, q);
    }
  }

  lemma Regroup(sent: seq<Frame>, held: seq<Frame>, items: seq<Frame>, gain: seq<Frame>)
    ensures sent + held + (items + gain) == sent + held + items + gain
  {
  }

  lemma ArrivalBalances(s: Server, c: ChannelID, q: QueueID, step: Step)
    requires Inv(s) && Alive(s.cache, c, q) && step.Other? && step.ev.Arrived?
    ensures Balance(Next(s, step), c, q) == Balance(s, c, q) + Gain(s, step, c)
    ensures Next(s, step).pumps == s.pumps
  {
    ArrivalSent(s, c, step);
    ArrivalItems(s, c, q, step);
    Regroup(SentOf(c, s.log), Held(s.pumps, c), Items(s.cache, q), Gain(s, step, c));
  }

  /** The channel keeps its queue, and no pump of the channel exits. */
  ghost predicate Spared(s: Server, t: Server, c: ChannelID, q: QueueID) {
    Alive(s.cache, c, q) && Alive(t.cache, c, q) && (c in s.pumps ==> c in t.pumps)
  }

  /** Both the accepted frames and the balance grew by the same frames. */
  ghost predicate Moved(s: Server, t: Server, c: ChannelID, q: QueueID, gained: seq<Frame>) {
    AcceptedOf(c, t.accepted) == AcceptedOf(c, s.accepted) + gained && Balance(t, c, q) == Balance(s, c, q) + gained
  }

  lemma MovedOn(s: Server, t: Server, u: Server, c: ChannelID, q: QueueID, g: seq<Frame>, h: seq<Frame>)
    requires Moved(s, t, c, q, g) && Moved(t, u, c, q, h)
    ensures Moved(s, u, c, q, g + h)
  {
    assert Balance(s, c, q) + g + h == Balance(s, c, q) + (g + h);
    assert AcceptedOf(c, s.accepted) + g + h == AcceptedOf(c, s.accepted) + (g + h);
  }

  lemma Still(s: Server, t: Server, c: ChannelID, q: QueueID)
    requires t.accepted == s.accepted && SentOf(c, t.log) == SentOf(c, s.log) && Held(t.pumps, c) == Held(s.pumps, c)
    requires Items(t.cache, q) == Items(s.cache, q)
    ensures Moved(s, t, c, q, [])
  {
  }

  lemma TickBalances(s: Server, c: ChannelID, q: QueueID, step: Step)
    requires Inv(s) && OnQueue(s.pumps, c, q) && Spared(s, Next(s, step), c, q) && step.Tick? && step.c in s.pumps
    ensures Moved(s, Next(s, step), c, q, []) && OnQueue(Next(s, step).pumps, c, q)
  {
    if step.c == c {
      OwnPumpBalances(s, c, q, step);
    } else {
      OtherPumpSent(s, c, step);
      OtherPumpItems(s, c, q, step);
      Still(s, Next(s, step), c, q);
    }
  }

  lemma StepBalances(s: Server, c: ChannelID, q: QueueID, step: Step)
    requires Inv(s) && OnQueue(s.pumps, c, q) && Spared(s, Next(s, step), c, q)
    ensures Moved(s, Next(s, step), c, q, Gain(s, step, c)) && OnQueue(Next(s, step).pumps, c, q)
  {
    match step
    case Start(_, _, _, _) => Still(s, Next(s, step), c, q);
    case Stop(_) => Still(s, Next(s, step), c, q);
    case Tick(d, _, _) =>
      if d in s.pumps {
        TickBalances(s, c, q, step);
      }
    case Other(ev) =>
      if ev.Arrived? {
        ArrivalBalances(s, c, q, step);
        ArrivalAccepted(s, c, step);
      } else if !ev.Popped? && !ev.Published? {
        OtherItems(s.cache, ev, c, q);
        Still(s, Next(s, step), c, q);
      }
  }

  /** The channel is not cleaned up during these steps: it keeps its queue all
      along, and no pump of it exits, for a pump that exits cleans up. */
  ghost predicate Undisturbed(s: Server, steps: seq<Step>, c: ChannelID, q: QueueID)
    decreases |steps|
  {
    if steps == [] then Alive(s.cache, c, q)
    else Undisturbed(s, steps[..|steps| - 1], c, q) && Spared(Run(s, steps[..|steps| - 1]), Run(s, steps), c, q)
  }

  /** While a channel is not cleaned up, under any interleaving of arrivals,
      provider drops and rebinds: frames written, then the one in hand, then
      the queue equal the frames accepted, in order. */
  lemma {:induction false} FramesConserved(s: Server, steps: seq<Step>, c: ChannelID, q: QueueID) returns (gained: seq<Frame>)
    requires Inv(s) && OnQueue(s.pumps, c, q) && Undisturbed(s, steps, c, q)
    ensures Moved(s, Run(s, steps), c, q, gained) && OnQueue(Run(s, steps).pumps, c, q)
    decreases |steps|
  {
    gained := [];
    if steps == [] {
      Still(s, s, c, q);
    } else {
      var front, step := steps[..|steps| - 1], steps[|steps| - 1];
      var before := FramesConserved(s, front, c, q);
      RunKeeps(s, front);
      StepBalances(Run(s, front), c, q, step);
      gained := before + Gain(Run(s, front), step, c);
      MovedOn(s, Run(s, front), Run(s, steps), c, q, before, Gain(Run(s, front), step, c));
    }
  }

  /** From the moment a channel is reserved: everything written since, what is
      in hand and what is queued is exactly what was accepted since. */
  lemma ReservedConserved(s: Server, steps: seq<Step>, c: ChannelID)
    requires Inv(s) && c !in s.pumps && c !in s.cache.orphans
    requires Undisturbed(Next(s, Other(Reserved(c))), steps, c, s.cache.store.made)
    ensures var t := Run(Next(s, Other(Reserved(c))), steps);
            && AcceptedOf(c, s.accepted) <= AcceptedOf(c, t.accepted)
            && Balance(t, c, s.cache.store.made) == SentOf(c, s.log) + AcceptedOf(c, t.accepted)[|AcceptedOf(c, s.accepted)|..]
  {
    var r := Next(s, Other(Reserved(c)));
    NextKeeps(s, Other(Reserved(c)));
    ReservedEmpty(s, c);
    var gained := FramesConserved(r, steps, c, s.cache.store.made);
    Suffix(AcceptedOf(c, s.accepted), gained, AcceptedOf(c, Run(r, steps).accepted));
  }

  lemma ReservedEmpty(s: Server, c: ChannelID)
    requires Inv(s) && c !in s.pumps && c !in s.cache.orphans
    ensures var r := Next(s, Other(Reserved(c)));
            r.accepted == s.accepted && c !in r.pumps && Balance(r, c, s.cache.store.made) == SentOf(c, s.log)
  {
    var r := Next(s, Other(Reserved(c)));
    MakeKeeps(s.cache);
    assert Items(r.cache, s.cache.store.made) == [];
  }

  lemma Suffix(front: seq<Frame>, gained: seq<Frame>, all: seq<Frame>)
    requires all == front + gained
    ensures front <= all && all[|front|..] == gained
  {
  }

  // ------------------------------------------------------- the direct forward

  /** The guard under which a payload from a connector is written at once,
      past the pump and its queue. */
  predicate Bypasses(s: Cache, c: ChannelID) { c in s.links.toClient && c !in s.orphans }

  /** What an arrival writes, in any state: nothing, unless it bypasses. */
  lemma ArrivalWritesIff(s: Server, c: ChannelID, m: Frame)
    ensures var t := Next(s, Other(Arrived(c, m)));
            && (t.log != s.log <==> Bypasses(s.cache, c))
            && (Bypasses(s.cache, c) ==> t.log == s.log + [Direct(s.cache.links.toClient[c], c, m)])
  {
    if !Bypasses(s.cache, c) {
      assert s.log + [] == s.log;
    }
  }

  /** Like `Backed`, for every payload whoever writes it. */
  ghost predicate BackedAll(log: seq<Wire>, w: Wire) {
    w.Sent? || w.SendFailed? || w.Direct? ==> BoundTo(w.c, log, w.link)
  }

  ghost predicate BindFirstAll(log: seq<Wire>) { forall i | 0 <= i < |log| :: BackedAll(log[..i], log[i]) }

  lemma BindFirstAllMore(log: seq<Wire>, w: Wire)
    ensures BindFirstAll(log + [w]) <==> BindFirstAll(log) && BackedAll(log, w)
  {
    var more := log + [w];
    assert forall i | 0 <= i < |log| :: more[..i] == log[..i];
    assert more[..|log|] == log;
    if BindFirstAll(more) {
      forall i | 0 <= i < |log|
        ensures BackedAll(log[..i], log[i])
      {
        assert BackedAll(more[..i], more[i]);
      }
      assert BackedAll(more[..|log|], more[|log|]);
    }
  }

  /** Step k of the run is an arrival that bypasses the pump. */
  ghost predicate BypassAt(steps: seq<Step>, k: nat) {
    k < |steps| && steps[k].Other? && steps[k].ev.Arrived? && Bypasses(Run(IDLE, steps[..k]).cache, steps[k].ev.c)
  }

  /** ... to a link the channel was last bound to. */
  ghost predicate BackedAt(steps: seq<Step>, k: nat) {
    BypassAt(steps, k) ==>
      var s := Run(IDLE, steps[..k]); BoundTo(steps[k].ev.c, s.log, s.cache.links.toClient[steps[k].ev.c])
  }

  ghost predicate AllBackedAt(steps: seq<Step>) { forall k | 0 <= k < |steps| :: BackedAt(steps, k) }

  lemma AllBackedMore(front: seq<Step>, last: Step)
    ensures AllBackedAt(front + [last]) <==> AllBackedAt(front) && BackedAt(front + [last], |front|)
  {
    var steps := front + [last];
    assert forall k | 0 <= k < |front| :: steps[..k] == front[..k] && steps[k] == front[k];
    forall k | 0 <= k < |front|
      ensures BackedAt(steps, k) <==> BackedAt(front, k)
    {
    }
  }

  lemma PumpWiresBacked(s: Server, step: Step)
    requires Inv(s) && step.Tick? && step.c in s.pumps
    ensures BindFirstAll(Next(s, step).log) <==> BindFirstAll(s.log)
  {
    assert PumpOk(s.cache, s.log, step.c, s.pumps[step.c]);
    AdvanceLog(s.cache, s.log, step.c, s.pumps[step.c], step.found, step.ok);
    var t := Advance(s.cache, step.c, s.pumps[step.c], step.found, step.ok);
    if t.wires == [] {
      assert s.log + t.wires == s.log;
    } else {
      assert s.log + t.wires == s.log + [t.wires[0]];
      BindFirstAllMore(s.log, t.wires[0]);
      NeverDirect(s.cache, step.c, s.pumps[step.c], step.found, step.ok);
    }
  }

  lemma NeverDirect(s: Cache, c: ChannelID, p: Pump, found: Option<LinkID>, ok: bool)
    ensures forall i | 0 <= i < |Advance(s, c, p, found, ok).wires| :: !Advance(s, c, p, found, ok).wires[i].Direct?
  {
  }

  lemma StepBackedIff(s: Server, step: Step)
    requires Inv(s)
    ensures var bypass := step.Other? && step.ev.Arrived? && Bypasses(s.cache, step.ev.c);
            BindFirstAll(Next(s, step).log) <==>
              BindFirstAll(s.log) && (bypass ==> BoundTo(step.ev.c, s.log, s.cache.links.toClient[step.ev.c]))
  {
    if step.Tick? && step.c in s.pumps {
      PumpWiresBacked(s, step);
    } else if step.Other? && step.ev.Arrived? {
      ArrivalWritesIff(s, step.ev.c, step.ev.m);
      if Bypasses(s.cache, step.ev.c) {
        BindFirstAllMore(s.log, Direct(s.cache.links.toClient[step.ev.c], step.ev.c, step.ev.m));
      }
    }
  }

  /** In every run, every payload on every link comes after the channel's bind
      there if and only if each payload that bypassed a pump did: exactly the
      arrivals that find a mapped provider and no queue. */
  lemma {:induction false} PayloadsBackedIff(steps: seq<Step>)
    ensures BindFirstAll(Run(IDLE, steps).log) <==> AllBackedAt(steps)
    decreases |steps|
  {
    if steps != [] {
      var front, last := steps[..|steps| - 1], steps[|steps| - 1];
      assert steps == front + [last];
      PayloadsBackedIff(front);
      RunKeeps(IDLE, front);
      StepBackedIff(Run(IDLE, front), last);
      AllBackedMore(front, last);
    }
  }

  /** A payload forwarded with no bind before it. */
  lemma DirectExample(m: Frame)
    ensures Run(IDLE, [Other(MapClient(1, 7))] + [Other(Arrived(1, m))]).log == [Direct(7, 1, m)]
    ensures LastBind(1, []) == None && !BindFirstAll([Direct(7, 1, m)])
  {
    var one, both := [Other(MapClient(1, 7))], [Other(MapClient(1, 7))] + [Other(Arrived(1, m))];
    assert one[..0] == [] && both[..1] == one;
    assert [] + [Direct(7, 1, m)] == [Direct(7, 1, m)];
    assert [Direct(7, 1, m)][..0] == [] && !BackedAll([Direct(7, 1, m)][..0], [Direct(7, 1, m)][0]);
  }

  ghost predicate BoundHasQueue(s: Cache) { forall c | c in s.links.toClient :: c in s.orphans }

  /** A payload bypasses the pump only after a direct rendezvous mapped its
      channel: without one, every mapped channel has its queue. */
  lemma {:induction false} NoDirectForward(steps: seq<Step>)
    requires forall i | 0 <= i < |steps| :: steps[i].Other? ==> !steps[i].ev.MapClient?
    ensures BoundHasQueue(Run(IDLE, steps).cache)
    ensures forall i | 0 <= i < |Run(IDLE, steps).log| :: !Run(IDLE, steps).log[i].Direct?
    decreases |steps|
  {
    if steps != [] {
      var front, step := steps[..|steps| - 1], steps[|steps| - 1];
      NoDirectForward(front);
      RunKeeps(IDLE, front);
      StepBound(Run(IDLE, front), step);
      StepDirect(Run(IDLE, front), step);
    }
  }

  lemma PushBound(s: Cache, q: QueueID, m: Frame)
    requires BoundHasQueue(s)
    ensures BoundHasQueue(Push(s, q, m)) && BoundHasQueue(Close(s, q)) && BoundHasQueue(Emptied(s, q))
  {
  }

  lemma ReserveBound(s: Cache, c: ChannelID)
    requires BoundHasQueue(s)
    ensures BoundHasQueue(Reserve(s, c)) && BoundHasQueue(ReserveReturn(s, c))
  {
  }

  lemma CleanupBound(s: Cache, c: ChannelID)
    requires BoundHasQueue(s)
    ensures BoundHasQueue(Cleanup(s, c))
  {
    var t := Unmap(s, c);
    var u := if c in t.orphans then Close(t.(orphans := t.orphans - {c}), t.orphans[c]) else t;
    assert u.links.toClient == t.links.toClient && u.orphans == t.orphans - {c};
    assert BoundHasQueue(u);
    if c in u.back {
      PushBound(u.(back := u.back - {c}), u.back[c], Data([]));
    }
  }

  lemma ExpireBound(s: Cache, c: ChannelID)
    requires BoundHasQueue(s)
    ensures BoundHasQueue(ExpireOrphan(s, c)) && BoundHasQueue(ExpireReturn(s, c)) && BoundHasQueue(BeginDrain(s, c))
  {
    if c in s.orphans && c !in s.links.toClient {
      PushBound(s.(orphans := s.orphans - {c}), s.orphans[c], Data([]));
    }
    if c in s.back {
      PushBound(s.(back := s.back - {c}), s.back[c], Data([]));
      PushBound(s, s.back[c], Data([]));
    }
  }

  lemma BufferBound(s: Cache, c: ChannelID, m: Frame)
    requires BoundHasQueue(s)
    ensures BoundHasQueue(ConnCache.Route(s, c, m)) && BoundHasQueue(BufferReturn(s, c, m))
  {
    ReserveBound(s, c);
    PushBound(Reserve(s, c), Reserve(s, c).orphans[c], m);
    PushBound(ReserveReturn(s, c), ReserveReturn(s, c).back[c], m);
  }

  lemma RequeueBound(s: Cache, c: ChannelID, rest: seq<Frame>)
    requires BoundHasQueue(s)
    ensures BoundHasQueue(Requeue(s, c, rest))
  {
    if c in s.back {
      PushAllBound(Emptied(s, s.back[c]), s.back[c], rest + Items(s, s.back[c]));
    }
  }

  lemma ApplyBound(s: Cache, ev: Event)
    requires BoundHasQueue(s) && !ev.MapClient?
    ensures BoundHasQueue(Apply(s, ev))
  {
    match ev
    case Reserved(c) => ReserveBound(s, c);
    case Arrived(c, m) => BufferBound(s, c, m);
    case Returned(c, m) => BufferBound(s, c, m);
    case OrphanExpired(c) => ExpireBound(s, c);
    case ReturnExpired(c) => ExpireBound(s, c);
    case CleanedUp(c) => CleanupBound(s, c);
    case DrainBegun(c) => ExpireBound(s, c);
    case DrainFailed(c, rest) => RequeueBound(s, c, rest);
    case _ =>
  }

  lemma {:induction false} PushAllBound(s: Cache, q: QueueID, ms: seq<Frame>)
    ensures PushAll(s, q, ms).links.toClient == s.links.toClient && PushAll(s, q, ms).orphans == s.orphans
    decreases |ms|
  {
    if ms != [] {
      PushAllBound(s, q, ms[..|ms| - 1]);
    }
  }

  lemma StepBound(s: Server, step: Step)
    requires BoundHasQueue(s.cache) && (step.Other? ==> !step.ev.MapClient?)
    ensures BoundHasQueue(Next(s, step).cache)
  {
    if step.Tick? && step.c in s.pumps {
      var ev := AdvanceEvent(s.cache, step.c, s.pumps[step.c], step.found, step.ok);
      ApplyBound(s.cache, ev);
    } else if step.Other? {
      ApplyBound(s.cache, step.ev);
    }
  }

  lemma StepDirect(s: Server, step: Step)
    requires BoundHasQueue(s.cache)
    ensures s.log <= Next(s, step).log
    ensures forall i | |s.log| <= i < |Next(s, step).log| :: !Next(s, step).log[i].Direct?
  {
  }
}
