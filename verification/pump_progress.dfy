/** A connector pump forwards what it holds and what is queued, over as many
    provider links as it takes, and says which of its binds is the first. */
module PumpProgress {
  import opened Bytes
  import opened ConnCache
  import opened ConnCacheRuns
  import opened Pumps
  import opened PumpRuns

  // ---------------------------------------------------------------- progress

  /** Steps of the pump of c in which a provider is found and writes succeed. */
  function Ticks(c: ChannelID, link: LinkID, n: nat): seq<Step> {
    if n == 0 then [] else Ticks(c, link, n - 1) + [Tick(c, Some(link), true)]
  }

  /** How many such steps the pump is away from waiting on an empty queue. */
  function Work(p: Pump, queued: nat): nat {
    var way :=
      match p.at
      case Top => if p.link.None? then 4 else 3
      case Wait => 3
      case Publishing => 2
      case Binding => 1
      case Draining => 0
      case Holding(_) => 1;
    way + 2 * queued + if p.pending.Some? then 2 else 0
  }

  /** The channel has its queue q, and a pump that works on it. */
  ghost predicate Pumped(s: Server, c: ChannelID, q: QueueID) {
    PumpRuns.Inv(s) && c in s.pumps && Alive(s.cache, c, q) && OnQueue(s.pumps, c, q)
  }

  /** The queue has been forwarded and the pump waits for more. */
  ghost predicate CaughtUp(s: Server, c: ChannelID, q: QueueID) {
    Pumped(s, c, q) && s.pumps[c].at.Draining? && HeldBy(s.pumps[c]) == [] && Items(s.cache, q) == []
  }

  lemma WorkDone(s: Server, c: ChannelID, q: QueueID)
    requires Pumped(s, c, q)
    ensures Work(s.pumps[c], |Items(s.cache, q)|) == 0 <==> CaughtUp(s, c, q)
  {
    assert PumpOk(s.cache, s.log, c, s.pumps[c]);
  }

  /** One such step brings the pump one step nearer. */
  lemma AdvanceNearer(s: Cache, c: ChannelID, q: QueueID, p: Pump, link: LinkID)
    requires ConnCacheRuns.Inv(s) && Shaped(p) && Owned(s, c, p) && Alive(s, c, q) && Pulling(p, q)
    requires Work(p, |Items(s, q)|) > 0
    ensures var t := Advance(s, c, p, Some(link), true);
            && t.pump.Some? && Alive(t.cache, c, q)
            && Work(t.pump.value, |Items(t.cache, q)|) == Work(p, |Items(s, q)|) - 1
  {
  }

  /** t is n steps nearer to it than s and no frame was lost or added. */
  ghost predicate Nearer(s: Server, t: Server, c: ChannelID, q: QueueID, n: nat)
    requires c in s.pumps
  {
    && Pumped(t, c, q) && Balance(t, c, q) == Balance(s, c, q)
    && Work(t.pumps[c], |Items(t.cache, q)|) + n == Work(s.pumps[c], |Items(s.cache, q)|)
  }

  lemma TickNearer(s: Server, c: ChannelID, q: QueueID, link: LinkID)
    requires Pumped(s, c, q) && Work(s.pumps[c], |Items(s.cache, q)|) > 0
    ensures Nearer(s, Next(s, Tick(c, Some(link), true)), c, q, 1)
  {
    assert PumpOk(s.cache, s.log, c, s.pumps[c]);
    AdvanceNearer(s.cache, c, q, s.pumps[c], link);
    OwnPumpBalances(s, c, q, Tick(c, Some(link), true));
    TickKeeps(s, c, Some(link), true);
  }

  lemma NearerOn(s: Server, t: Server, u: Server, c: ChannelID, q: QueueID, n: nat)
    requires c in s.pumps && Nearer(s, t, c, q, n) && Nearer(t, u, c, q, 1)
    ensures Nearer(s, u, c, q, n + 1)
  {
  }

  lemma RunLast(s: Server, steps: seq<Step>, step: Step)
    ensures Run(s, steps + [step]) == Next(Run(s, steps), step)
  {
    assert (steps + [step])[..|steps|] == steps;
  }

  lemma {:induction false} TicksNearer(s: Server, c: ChannelID, q: QueueID, link: LinkID, n: nat) returns (t: Server)
    requires Pumped(s, c, q) && n <= Work(s.pumps[c], |Items(s.cache, q)|)
    ensures t == Run(s, Ticks(c, link, n)) && Nearer(s, t, c, q, n)
  {
    t := s;
    if n > 0 {
      var front := TicksNearer(s, c, q, link, n - 1);
      TickNearer(front, c, q, link);
      RunLast(s, Ticks(c, link, n - 1), Tick(c, Some(link), true));
      t := Next(front, Tick(c, Some(link), true));
      NearerOn(s, front, t, c, q, n - 1);
    }
  }

  /** Wherever a pump stands, with or without a link, with or without a frame
      kept from a dropped link: as long as its channel has its queue, finitely
      many of its own steps forward the frame it holds and then the queue, in
      order, and nothing else; the pump then waits for more. */
  lemma QueueIsForwarded(s: Server, c: ChannelID, q: QueueID, link: LinkID) returns (n: nat)
    requires Pumped(s, c, q)
    ensures var t := Run(s, Ticks(c, link, n));
            CaughtUp(t, c, q) && SentOf(c, t.log) == SentOf(c, s.log) + Held(s.pumps, c) + Items(s.cache, q)
  {
    n := Work(s.pumps[c], |Items(s.cache, q)|);
    var t := TicksNearer(s, c, q, link, n);
    WorkDone(t, c, q);
    assert SentOf(c, t.log) + [] + [] == SentOf(c, t.log);
  }

  /** The same from every reachable state, for any running pump of a channel
      whose queue is the one it works on. */
  lemma RunIsForwarded(steps: seq<Step>, c: ChannelID, q: QueueID, link: LinkID) returns (n: nat)
    requires var s := Run(IDLE, steps); c in s.pumps && Alive(s.cache, c, q) && OnQueue(s.pumps, c, q)
    ensures var s := Run(IDLE, steps); var t := Run(s, Ticks(c, link, n));
            CaughtUp(t, c, q) && SentOf(c, t.log) == SentOf(c, s.log) + Held(s.pumps, c) + Items(s.cache, q)
  {
    RunKeeps(IDLE, steps);
    n := QueueIsForwarded(Run(IDLE, steps), c, q, link);
  }

  // ------------------------------------------------------- how a pump ends

  /** While its channel has its queue a pump ends exactly when it waited in vain
      for its very first provider; one that has tried to bind goes on waiting. */
  lemma EndsIff(s: Server, c: ChannelID, q: QueueID, found: Option<LinkID>, ok: bool)
    requires Pumped(s, c, q)
    ensures c !in Next(s, Tick(c, found, ok)).pumps <==> s.pumps[c].at.Wait? && found.None? && !s.pumps[c].bound
  {
    assert PumpOk(s.cache, s.log, c, s.pumps[c]);
    assert Live(s.cache, q);
  }

  /** A pump that comes back to the top after its channel was cleaned up ends,
      and so does one that has emptied a closed queue. */
  lemma EndsWhenGone(s: Server, c: ChannelID, found: Option<LinkID>, ok: bool)
    requires c in s.pumps
    requires var p := s.pumps[c];
             || (p.at.Top? && c !in s.cache.orphans)
             || (p.at.Draining? && p.pending.None? && p.queue in s.cache.store.heap && s.cache.store.heap[p.queue] == Queue([], false))
    ensures c !in Next(s, Tick(c, found, ok)).pumps
  {
  }

  /** A write that fails costs the pump its link: it waits for a provider anew
      and resumes on the one it finds, with the frame it kept. */
  lemma ResumesElsewhere(s: Server, c: ChannelID, q: QueueID, link: LinkID, found: Option<LinkID>)
    requires Pumped(s, c, q) && (s.pumps[c].at.Binding? || s.pumps[c].at.Holding?)
    ensures var t := Next(s, Tick(c, found, false)); var u := Run(t, Ticks(c, link, 4));
            && c in t.pumps && t.pumps[c].link.None? && HeldBy(t.pumps[c]) == HeldBy(s.pumps[c])
            && u.log == t.log + [BindOk(link, c, true)] && c in u.pumps && u.pumps[c].at.Draining? && u.pumps[c].link == Some(link)
  {
    var t := Next(s, Tick(c, found, false));
    FailedDropsLink(s, c, q, found);
    FourTicks(t, c, q, link);
  }

  lemma FailedDropsLink(s: Server, c: ChannelID, q: QueueID, found: Option<LinkID>)
    requires Pumped(s, c, q) && (s.pumps[c].at.Binding? || s.pumps[c].at.Holding?)
    ensures var t := Next(s, Tick(c, found, false));
            && Pumped(t, c, q) && t.pumps[c].at.Top? && t.pumps[c].link.None? && t.pumps[c].bound
            && HeldBy(t.pumps[c]) == HeldBy(s.pumps[c])
  {
    assert PumpOk(s.cache, s.log, c, s.pumps[c]);
    TickKeeps(s, c, found, false);
  }

  lemma TicksMore(s: Server, c: ChannelID, link: LinkID, n: nat)
    ensures Run(s, Ticks(c, link, n + 1)) == Next(Run(s, Ticks(c, link, n)), Tick(c, Some(link), true))
  {
    RunLast(s, Ticks(c, link, n), Tick(c, Some(link), true));
  }

  lemma FourTicks(s: Server, c: ChannelID, q: QueueID, link: LinkID)
    requires Pumped(s, c, q) && s.pumps[c].at.Top? && s.pumps[c].link.None? && s.pumps[c].bound
    ensures var u := Run(s, Ticks(c, link, 4));
            u.log == s.log + [BindOk(link, c, true)] && c in u.pumps && u.pumps[c].at.Draining? && u.pumps[c].link == Some(link)
  {
    TicksMore(s, c, link, 0);
    TicksMore(s, c, link, 1);
    var two := Run(s, Ticks(c, link, 2));
    assert two.log == s.log && two.pumps[c] == s.pumps[c].(link := Some(link), at := Publishing) && two.cache == s.cache;
    TicksMore(s, c, link, 2);
    TicksMore(s, c, link, 3);
  }

  /** A pump about to bind has put its provider link in the provider map and,
      unless another connector link has the channel, its own in the other. */
  lemma PublishingMaps(s: Server, c: ChannelID, found: Option<LinkID>, ok: bool)
    requires c in s.pumps && s.pumps[c].at.Publishing? && s.pumps[c].link.Some?
    ensures var p, t := s.pumps[c], Next(s, Tick(c, found, ok)).cache.links;
            && c in t.toClient && t.toClient[c] == p.link.value
            && c in t.toConnector && t.toConnector[c] == if c in s.cache.links.toConnector then s.cache.links.toConnector[c] else p.ws
  {
  }

  /** Asking for a channel that has a pump makes no second one: a connector that
      resumes takes the channel over, any other request changes nothing. */
  lemma StartAgain(s: Server, c: ChannelID, ws: LinkID, resume: bool, token: Token)
    requires c in s.pumps
    ensures var t := Next(s, Start(c, ws, resume, token));
            && t.pumps == s.pumps && t.log == s.log
            && t.cache == if resume then s.cache.(links := s.cache.links.(toConnector := s.cache.links.toConnector[c := ws])) else s.cache
  {
  }

  // -------------------------------------------------- requests and resumes

  /** Of each attempt to bind the channel, whether it asked to resume. */
  function BindFlags(c: ChannelID, log: seq<Wire>): seq<bool> {
    if log == [] then []
    else
      var w := log[|log| - 1];
      BindFlags(c, log[..|log| - 1]) + if (w.BindOk? || w.BindFailed?) && w.c == c then [w.resume] else []
  }

  lemma FlagsMore(c: ChannelID, log: seq<Wire>, w: Wire)
    ensures BindFlags(c, log + [w]) == BindFlags(c, log) + if (w.BindOk? || w.BindFailed?) && w.c == c then [w.resume] else []
  {
    assert (log + [w])[..|log|] == log;
  }

  /** The flag a step adds: a pump of c that binds says whether it bound before. */
  function Flag(s: Server, step: Step, c: ChannelID): seq<bool> {
    if step.Tick? && step.c == c && c in s.pumps && s.pumps[c].at.Binding? then [s.pumps[c].bound] else []
  }

  /** A pump writes at most one thing at a time, and binds only where it binds. */
  lemma AdvanceFlag(s: Cache, c: ChannelID, p: Pump, found: Option<LinkID>, ok: bool)
    requires Shaped(p)
    ensures var w := Advance(s, c, p, found, ok).wires;
            && |w| <= 1 && (w != [] ==> w[0].c == c)
            && if p.at.Binding? then w != [] && (w[0].BindOk? || w[0].BindFailed?) && w[0].resume == p.bound
               else w == [] || !(w[0].BindOk? || w[0].BindFailed?)
  {
  }

  lemma TickFlags(s: Server, c: ChannelID, step: Step)
    requires PumpRuns.Inv(s) && step.Tick? && step.c in s.pumps
    ensures BindFlags(c, Next(s, step).log) == BindFlags(c, s.log) + Flag(s, step, c)
  {
    var p := s.pumps[step.c];
    assert PumpOk(s.cache, s.log, step.c, p);
    var wires := Advance(s.cache, step.c, p, step.found, step.ok).wires;
    AdvanceFlag(s.cache, step.c, p, step.found, step.ok);
    assert Next(s, step).log == s.log + wires;
    if wires == [] {
      assert s.log + wires == s.log;
    } else {
      FlagsMore(c, s.log, wires[0]);
      assert wires == [wires[0]];
    }
  }

  lemma StepFlags(s: Server, c: ChannelID, step: Step)
    requires PumpRuns.Inv(s)
    ensures BindFlags(c, Next(s, step).log) == BindFlags(c, s.log) + Flag(s, step, c)
  {
    if step.Tick? && step.c in s.pumps {
      TickFlags(s, c, step);
    } else if step.Other? && step.ev.Arrived? {
      ArrivalWritesIff(s, step.ev.c, step.ev.m);
      if Bypasses(s.cache, step.ev.c) {
        FlagsMore(c, s.log, Direct(s.cache.links.toClient[step.ev.c], step.ev.c, step.ev.m));
      }
    }
  }

  /** The channel has a pump all along. */
  ghost predicate KeepsPump(s: Server, steps: seq<Step>, c: ChannelID)
    decreases |steps|
  {
    c in Run(s, steps).pumps && (steps != [] ==> KeepsPump(s, steps[..|steps| - 1], c))
  }

  /** Only the first attempt may carry the original request. */
  ghost predicate FirstOnly(flags: seq<bool>, resume: bool) {
    forall i | 0 <= i < |flags| :: flags[i] == (resume || i > 0)
  }

  lemma StepBound(s: Server, c: ChannelID, step: Step)
    requires PumpRuns.Inv(s) && c in s.pumps && c in Next(s, step).pumps
    ensures Next(s, step).pumps[c].bound == (s.pumps[c].bound || Flag(s, step, c) != [])
  {
    assert PumpOk(s.cache, s.log, c, s.pumps[c]);
  }

  lemma FirstOnlyMore(flags: seq<bool>, resume: bool, more: seq<bool>)
    requires FirstOnly(flags, resume) && (more == [] || more == [resume || flags != []])
    ensures FirstOnly(flags + more, resume)
  {
  }

  /** From the start of a pump on, through any number of dropped links: its
      first attempt to bind carries the original request, unless the pump was
      started to resume, and every later attempt asks to resume. */
  lemma {:induction false} FirstBindOnly(s: Server, steps: seq<Step>, c: ChannelID, ws: LinkID, resume: bool, token: Token) returns (flags: seq<bool>)
    requires PumpRuns.Inv(s) && c !in s.pumps && KeepsPump(Next(s, Start(c, ws, resume, token)), steps, c)
    ensures var t := Run(Next(s, Start(c, ws, resume, token)), steps);
            && PumpRuns.Inv(t) && BindFlags(c, t.log) == BindFlags(c, s.log) + flags && FirstOnly(flags, resume)
            && c in t.pumps && t.pumps[c].bound == (resume || flags != [])
    decreases |steps|
  {
    flags := [];
    PumpRuns.NextKeeps(s, Start(c, ws, resume, token));
    if steps != [] {
      var front, last := steps[..|steps| - 1], steps[|steps| - 1];
      var u := Run(Next(s, Start(c, ws, resume, token)), front);
      var before := FirstBindOnly(s, front, c, ws, resume, token);
      StepFlags(u, c, last);
      StepBound(u, c, last);
      PumpRuns.NextKeeps(u, last);
      FirstOnlyMore(before, resume, Flag(u, last, c));
      flags := before + Flag(u, last, c);
      assert BindFlags(c, s.log) + before + Flag(u, last, c) == BindFlags(c, s.log) + flags;
    }
  }
}
