/** The channel cache of linksocks/server.go: link mappings, the buffers for
    unbound channels and the buffers for absent connectors.

    A queue is known by a number, as the source knows it by reference: the same
    queue may be held by the cache and by a pump. Sending on a closed queue,
    closing one twice, and draining a closed one (which would never end) set
    `faulted`. */
module ConnCache {
  import opened Bytes

  type ChannelID = nat
  type LinkID = nat
  type QueueID = nat
  type Token = string

  const CAPACITY := 1000

  datatype Frame = Data(data: seq<byte>) | Sealed(data: seq<byte>)

  datatype Queue = Queue(items: seq<Frame>, open: bool)

  /** The provider and the connector link of each channel, and the channels a
      token has seen. */
  datatype Links = Links(
    toClient: map<ChannelID, LinkID>, toConnector: map<ChannelID, LinkID>, tokens: map<Token, seq<ChannelID>>)

  /** Every queue ever made; `made` is the next number. */
  datatype Store = Store(heap: map<QueueID, Queue>, made: QueueID, faulted: bool)

  datatype Cache = Cache(
    links: Links, orphans: map<ChannelID, QueueID>, back: map<ChannelID, QueueID>, store: Store)

  const EMPTY: Cache := Cache(Links(map[], map[], map[]), map[], map[], Store(map[], 0, false))

  // ------------------------------------------------------------------ queues

  function Refill(s: Cache, q: QueueID, v: Queue): Cache { s.(store := s.store.(heap := s.store.heap[q := v])) }

  /** Non-blocking send: a full queue drops the frame. */
  function Push(s: Cache, q: QueueID, m: Frame): Cache {
    if q !in s.store.heap || !s.store.heap[q].open then s.(store := s.store.(faulted := true))
    else if |s.store.heap[q].items| < CAPACITY then Refill(s, q, Queue(s.store.heap[q].items + [m], true))
    else s
  }

  function PushAll(s: Cache, q: QueueID, ms: seq<Frame>): Cache {
    if ms == [] then s else Push(PushAll(s, q, ms[..|ms| - 1]), q, ms[|ms| - 1])
  }

  function Close(s: Cache, q: QueueID): Cache {
    if q !in s.store.heap || !s.store.heap[q].open then s.(store := s.store.(faulted := true))
    else Refill(s, q, Queue(s.store.heap[q].items, false))
  }

  function Items(s: Cache, q: QueueID): seq<Frame> { if q in s.store.heap then s.store.heap[q].items else [] }

  function Emptied(s: Cache, q: QueueID): Cache {
    if q !in s.store.heap || !s.store.heap[q].open then s.(store := s.store.(faulted := true)) else Refill(s, q, Queue([], true))
  }

  function Make(s: Cache): Cache { s.(store := s.store.(heap := s.store.heap[s.store.made := Queue([], true)], made := s.store.made + 1)) }

  // -------------------------------------------------------------- operations

  function Reserve(s: Cache, c: ChannelID): Cache {
    if c in s.orphans then s else Make(s).(orphans := s.orphans[c := s.store.made])
  }

  function BufferOrphan(s: Cache, c: ChannelID, m: Frame): Cache {
    var t := Reserve(s, c);
    Push(t, t.orphans[c], m)
  }

  /** A payload from a connector: queued, written to the mapped provider when
      there is no queue, or buffered. The write itself is the caller's. */
  function Route(s: Cache, c: ChannelID, m: Frame): Cache {
    if c in s.orphans then Push(s, s.orphans[c], m)
    else if c in s.links.toClient then s
    else BufferOrphan(s, c, m)
  }

  function ReserveReturn(s: Cache, c: ChannelID): Cache {
    if c in s.back then s else Make(s).(back := s.back[c := s.store.made])
  }

  function BufferReturn(s: Cache, c: ChannelID, m: Frame): Cache {
    var t := ReserveReturn(s, c);
    Push(t, t.back[c], m)
  }

  function ExpireReturn(s: Cache, c: ChannelID): Cache {
    if c !in s.back || c in s.links.toConnector then s
    else Close(s.(back := s.back - {c}), s.back[c])
  }

  function ExpireOrphan(s: Cache, c: ChannelID): Cache {
    if c !in s.orphans || c in s.links.toClient then s
    else Close(s.(orphans := s.orphans - {c}), s.orphans[c])
  }

  function Unmap(s: Cache, c: ChannelID): Cache {
    s.(links := s.links.(toClient := s.links.toClient - {c}, toConnector := s.links.toConnector - {c}))
  }

  function Cleanup(s: Cache, c: ChannelID): Cache {
    var t := Unmap(s, c);
    var u := if c in t.orphans then Close(t.(orphans := t.orphans - {c}), t.orphans[c]) else t;
    if c in u.back then Close(u.(back := u.back - {c}), u.back[c]) else u
  }

  /** What a drain takes out of the return buffer. */
  function Taken(s: Cache, c: ChannelID): seq<Frame> { if c in s.back then Items(s, s.back[c]) else [] }

  function BeginDrain(s: Cache, c: ChannelID): Cache {
    if c in s.back then Emptied(s, s.back[c]) else s
  }

  /** After a failed write: the unwritten frames go back ahead of later arrivals. */
  function Requeue(s: Cache, c: ChannelID, rest: seq<Frame>): Cache {
    if c !in s.back then s
    else PushAll(Emptied(s, s.back[c]), s.back[c], rest + Items(s, s.back[c]))
  }

  function WithChannel(tokens: map<Token, seq<ChannelID>>, token: Token, c: ChannelID): map<Token, seq<ChannelID>> {
    var ids := if token in tokens then tokens[token] else [];
    if c in ids then tokens else tokens[token := ids + [c]]
  }

  /** The pump claims a channel for its links. A channel that a reconnected
      connector link took over stays with that link. */
  function Mapped(s: Cache, c: ChannelID, ws: LinkID, link: LinkID, token: Token): Cache {
    s.(links := Links(
         s.links.toClient[c := link],
         if c !in s.links.toConnector || s.links.toConnector[c] == ws then s.links.toConnector[c := ws] else s.links.toConnector,
         WithChannel(s.links.tokens, token, c)))
  }

  /** ... and finds its buffer, which is made anew when it expired. */
  function Publish(s: Cache, c: ChannelID, ws: LinkID, link: LinkID, token: Token): Cache {
    Reserve(Mapped(s, c, ws, link, token), c)
  }

  function Forget(s: Cache, gone: set<ChannelID>): Cache {
    s.(links := s.links.(toClient := s.links.toClient - gone, toConnector := s.links.toConnector - gone), orphans := s.orphans - gone)
  }

  function Unlist(s: Cache, token: Token): Cache { s.(links := s.links.(tokens := s.links.tokens - {token})) }

  /** Removing a token forgets its channels without closing their buffers. */
  function ForgetToken(s: Cache, token: Token): Cache {
    if token !in s.links.tokens then s else Unlist(Forget(s, Members(s.links.tokens[token])), token)
  }

  /** One entry is taken from a queue by its pump. */
  function Pop(s: Cache, q: QueueID): Cache
    requires q in s.store.heap && s.store.heap[q].items != []
  {
    Refill(s, q, s.store.heap[q].(items := s.store.heap[q].items[1..]))
  }
}
