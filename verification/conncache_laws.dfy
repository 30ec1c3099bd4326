/** Which events give a channel a buffer, a link or a place in a token's list,
    which take it away, and what becomes of the buffer. */
module ConnCacheLaws {
  import opened Bytes
  import opened ConnCache
  import opened ConnCacheRuns

  /** The channels a token has seen. */
  function SeenBy(s: Cache, token: Token): seq<ChannelID> { if token in s.links.tokens then s.links.tokens[token] else [] }

  /** The token is removed and had seen the channel. */
  predicate ForgottenWith(s: Cache, ev: Event, c: ChannelID) { ev.Forgotten? && c in SeenBy(s, ev.token) }

  /** The events that take a channel's buffer away: its timer while no provider
      has the channel, its cleanup, and the removal of its token. */
  predicate DropsOrphan(s: Cache, ev: Event, c: ChannelID) {
    (ev.OrphanExpired? && ev.c == c && c !in s.links.toClient) || (ev.CleanedUp? && ev.c == c) || ForgottenWith(s, ev, c)
  }

  lemma SeenMembers(s: Cache, token: Token, c: ChannelID)
    requires token in s.links.tokens
    ensures c in Members(s.links.tokens[token]) <==> c in SeenBy(s, token)
  {
  }

  /** Refilling a queue touches nothing but the queues. */
  lemma {:induction false} PushAllStore(s: Cache, q: QueueID, ms: seq<Frame>)
    ensures PushAll(s, q, ms) == s.(store := PushAll(s, q, ms).store)
    decreases |ms|
  {
    if ms != [] {
      PushAllStore(s, q, ms[..|ms| - 1]);
    }
  }

  lemma RequeueStore(s: Cache, c: ChannelID, rest: seq<Frame>)
    ensures Requeue(s, c, rest) == s.(store := Requeue(s, c, rest).store)
  {
    if c in s.back {
      PushAllStore(Emptied(s, s.back[c]), s.back[c], rest + Items(s, s.back[c]));
    }
  }

  predicate TouchesOrphans(ev: Event) {
    ev.Reserved? || ev.Arrived? || ev.OrphanExpired? || ev.CleanedUp? || ev.Published? || ev.Forgotten?
  }

  predicate TouchesReturns(ev: Event) { ev.Returned? || ev.ReturnExpired? || ev.CleanedUp? }

  predicate TouchesLinks(ev: Event) {
    ev.CleanedUp? || ev.Published? || ev.Forgotten? || ev.MapClient? || ev.MapConnector? || ev.MapToken?
  }

  lemma OrphansSame(s: Cache, ev: Event)
    requires !TouchesOrphans(ev)
    ensures Apply(s, ev).orphans == s.orphans
  {
    if ev.DrainFailed? {
      RequeueStore(s, ev.c, ev.rest);
    }
  }

  lemma ReturnsSame(s: Cache, ev: Event)
    requires !TouchesReturns(ev)
    ensures Apply(s, ev).back == s.back
  {
    if ev.DrainFailed? {
      RequeueStore(s, ev.c, ev.rest);
    }
  }

  lemma LinksSame(s: Cache, ev: Event)
    requires !TouchesLinks(ev)
    ensures Apply(s, ev).links == s.links
  {
    if ev.DrainFailed? {
      RequeueStore(s, ev.c, ev.rest);
    }
  }

  /** In every state a buffer goes exactly on those events; otherwise the
      channel keeps it, open. */
  lemma OrphanDroppedIff(s: Cache, ev: Event, c: ChannelID)
    requires ConnCacheRuns.Inv(s) && c in s.orphans
    ensures var t := Apply(s, ev);
            && (c !in t.orphans <==> DropsOrphan(s, ev, c))
            && (c in t.orphans ==> t.orphans[c] == s.orphans[c] && Live(t, s.orphans[c]))
  {
    ApplyKeeps(s, ev);
    OrphanStays(s, ev, c);
  }

  lemma OrphanStays(s: Cache, ev: Event, c: ChannelID)
    requires c in s.orphans
    ensures var t := Apply(s, ev);
            (c !in t.orphans <==> DropsOrphan(s, ev, c)) && (c in t.orphans ==> t.orphans[c] == s.orphans[c])
  {
    if !TouchesOrphans(ev) {
      OrphansSame(s, ev);
    } else if ev.Forgotten? && ev.token in s.links.tokens {
      SeenMembers(s, ev.token, c);
    }
  }

  /** A buffer that goes is closed, and keeps its frames for a pump that still
      reads it; only the removal of a token leaves it open. */
  lemma DroppedIsClosed(s: Cache, ev: Event, c: ChannelID)
    requires ConnCacheRuns.Inv(s) && c in s.orphans && DropsOrphan(s, ev, c)
    ensures var t, q := Apply(s, ev), s.orphans[c];
            q in t.store.heap && t.store.heap[q].items == s.store.heap[q].items && (t.store.heap[q].open <==> ev.Forgotten?)
  {
    assert Live(s, s.orphans[c]);
    if ev.CleanedUp? && c in s.back {
      assert s.back[c] != s.orphans[c];
    }
  }

  /** A channel without a buffer gets one, empty but for the frame that came,
      exactly when it is reserved or published or a frame comes while no
      provider has it. */
  lemma OrphanMadeIff(s: Cache, ev: Event, c: ChannelID)
    requires ConnCacheRuns.Inv(s) && c !in s.orphans
    ensures var t := Apply(s, ev);
            && (c in t.orphans <==>
                  (ev.Reserved? && ev.c == c) || (ev.Published? && ev.c == c) || (ev.Arrived? && ev.c == c && c !in s.links.toClient))
            && (c in t.orphans ==> t.orphans[c] == s.store.made && Items(t, s.store.made) == if ev.Arrived? then [ev.m] else [])
  {
    if !TouchesOrphans(ev) {
      OrphansSame(s, ev);
    }
  }

  /** The return buffer goes exactly when its timer finds no connector or the
      channel is cleaned up, and is closed then. */
  predicate DropsReturn(s: Cache, ev: Event, c: ChannelID) {
    (ev.ReturnExpired? && ev.c == c && c !in s.links.toConnector) || (ev.CleanedUp? && ev.c == c)
  }

  lemma ReturnDroppedIff(s: Cache, ev: Event, c: ChannelID)
    requires ConnCacheRuns.Inv(s) && c in s.back
    ensures var t := Apply(s, ev);
            && (c !in t.back <==> DropsReturn(s, ev, c))
            && (c in t.back ==> t.back[c] == s.back[c])
            && s.back[c] in t.store.heap && (t.store.heap[s.back[c]].open <==> !DropsReturn(s, ev, c))
  {
    assert Live(s, s.back[c]);
    ApplyKeeps(s, ev);
    if !TouchesReturns(ev) {
      ReturnsSame(s, ev);
      assert Live(Apply(s, ev), s.back[c]);
    }
  }

  lemma ReturnMadeIff(s: Cache, ev: Event, c: ChannelID)
    requires ConnCacheRuns.Inv(s) && c !in s.back
    ensures var t := Apply(s, ev);
            && (c in t.back <==> ev.Returned? && ev.c == c)
            && (c in t.back ==> t.back[c] == s.store.made && Items(t, s.store.made) == [ev.m])
  {
    if !TouchesReturns(ev) {
      ReturnsSame(s, ev);
    }
  }

  /** A frame for a buffered channel is appended exactly while fewer than 1000
      frames wait in its buffer; a full buffer drops it and keeps the rest. */
  lemma BufferedIff(s: Cache, c: ChannelID, m: Frame)
    requires ConnCacheRuns.Inv(s)
    ensures c in s.orphans ==>
              var was := Items(s, s.orphans[c]); Items(Apply(s, Arrived(c, m)), s.orphans[c]) == if |was| < 1000 then was + [m] else was
    ensures c in s.back ==>
              var was := Items(s, s.back[c]); Items(Apply(s, Returned(c, m)), s.back[c]) == if |was| < 1000 then was + [m] else was
  {
    if c in s.orphans {
      assert Live(s, s.orphans[c]);
    }
    if c in s.back {
      assert Live(s, s.back[c]);
    }
  }

  /** The provider link of a channel after an event. */
  function ClientAfter(s: Cache, ev: Event, c: ChannelID): Option<LinkID> {
    if (ev.Published? || ev.MapClient?) && ev.c == c then Some(ev.link)
    else if (ev.CleanedUp? && ev.c == c) || ForgottenWith(s, ev, c) || c !in s.links.toClient then None
    else Some(s.links.toClient[c])
  }

  /** The connector link of a channel after an event. A pump that publishes
      never takes a channel from another connector link. */
  function ConnectorAfter(s: Cache, ev: Event, c: ChannelID): Option<LinkID> {
    if ev.MapConnector? && ev.c == c then Some(ev.link)
    else if (ev.CleanedUp? && ev.c == c) || ForgottenWith(s, ev, c) then None
    else if c in s.links.toConnector then Some(s.links.toConnector[c])
    else if ev.Published? && ev.c == c then Some(ev.ws)
    else None
  }

  function Find(links: map<ChannelID, LinkID>, c: ChannelID): Option<LinkID> { if c in links then Some(links[c]) else None }

  lemma LinksAfter(s: Cache, ev: Event, c: ChannelID)
    ensures Find(Apply(s, ev).links.toClient, c) == ClientAfter(s, ev, c)
    ensures Find(Apply(s, ev).links.toConnector, c) == ConnectorAfter(s, ev, c)
  {
    if !TouchesLinks(ev) {
      LinksSame(s, ev);
    } else if ev.Forgotten? && ev.token in s.links.tokens {
      SeenMembers(s, ev.token, c);
    }
  }

  /** A token's list gains a channel that is published or mapped under it, once,
      at the end; it goes as a whole with the token. */
  lemma SeenAfter(s: Cache, ev: Event, token: Token)
    ensures SeenBy(Apply(s, ev), token) ==
              if ev.Forgotten? && ev.token == token then []
              else if (ev.Published? || ev.MapToken?) && ev.token == token && ev.c !in SeenBy(s, token)
              then SeenBy(s, token) + [ev.c]
              else SeenBy(s, token)
  {
    if !TouchesLinks(ev) {
      LinksSame(s, ev);
    }
  }
}
