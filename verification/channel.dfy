/** The migrating logical channel of linksocks/channel.go and the client's
    deliverDataMessage of linksocks/direct_transport_quic.go.

    The value-level functions say what each operation does to the channel and
    to the network; the class below carries the operations out step by step and
    is proved against them. Module Migration reasons about whole runs. */
module Channel {
  import opened Bytes

  const U64: nat := 0x1_0000_0000_0000_0000

  type Uint64 = x: nat | x < U64

  /** Channel identifiers; 0 is the nil UUID. */
  type ChannelID = nat
  type LinkID = nat
  /** Everything a data message carries besides its channel and sequence number. */
  type Payload = seq<int>

  datatype DataMessage = DataMessage(channelID: ChannelID, payload: Payload, sequence: Uint64)

  datatype Message =
    | NoMessage
    | Data(data: DataMessage)
    | DataAck(channelID: ChannelID, sequence: Uint64)
    | Migrate(channelID: ChannelID, reason: string)
    | Other(body: Payload)

  datatype Path = Relay | Direct

  /** How one write on a link ends. A failed write may still have left the host. */
  datatype Outcome = Delivered | Refused | LeftButFailed

  datatype Sent = Sent(link: LinkID, msg: Message)

  /** The transport seen by one endpoint: every frame that ever entered the
      network, on whichever link, and how the coming writes will end. */
  datatype Net = Net(trace: seq<Sent>, script: seq<Outcome>)

  datatype Status = Ok | NilMessage | Closed | NoWriter | NoFallback | WriteFailed | TransportDown

  datatype Chan = Chan(
    id: ChannelID, path: Path, writer: Option<LinkID>, fallback: Option<LinkID>, migration: bool,
    sequence: Uint64, received: Uint64, pending: map<Uint64, DataMessage>, closed: bool)

  datatype Out = Out(ch: Chan, net: Net, status: Status)

  // ---------------------------------------------------------------- writing

  function Send(net: Net, link: LinkID, msg: Message): (Net, bool) {
    var o := if net.script == [] then Refused else net.script[0];
    var rest := if net.script == [] then [] else net.script[1..];
    (Net(if o == Refused then net.trace else net.trace + [Sent(link, msg)], rest), o == Delivered)
  }

  function SendAll(net: Net, link: LinkID, msgs: seq<DataMessage>): (Net, bool)
    decreases |msgs|
  {
    if msgs == [] then (net, true)
    else
      var (n, ok) := Send(net, link, Data(msgs[0]));
      if ok then SendAll(n, link, msgs[1..]) else (n, false)
  }

  ghost function MinKey(s: set<Uint64>): (k: Uint64)
    requires s != {}
    ensures k in s && forall x | x in s :: k <= x
  {
    assert exists k :: k in s && forall x | x in s :: k <= x by {
      var least := LeastOf(s);
    }
    var k :| k in s && forall x | x in s :: k <= x;
    k
  }

  lemma {:induction false} LeastOf(s: set<Uint64>) returns (k: Uint64)
    requires s != {}
    ensures k in s && forall x | x in s :: k <= x
  {
    k :| k in s;
    var rest := s - {k};
    if rest != {} {
      var m := LeastOf(rest);
      assert forall x | x in s :: x in rest || x == k;
      k := if m < k then m else k;
    } else {
      assert s == {k};
    }
  }

  /** The pending messages in ascending order of their map keys. */
  ghost function InOrder(p: map<Uint64, DataMessage>): (r: seq<DataMessage>)
    ensures forall m | m in r :: m in p.Values
    ensures |r| == |p|
    decreases |p|
  {
    if p == map[] then []
    else
      var k := MinKey(p.Keys);
      assert |p - {k}| == |p| - 1 by { assert (p - {k}).Keys == p.Keys - {k}; }
      [p[k]] + InOrder(p - {k})
  }

  ghost predicate KeyedBySequence(p: map<Uint64, DataMessage>) {
    forall k | k in p :: p[k].sequence == k
  }

  predicate Ascending(s: seq<DataMessage>) {
    forall i, j | 0 <= i < j < |s| :: s[i].sequence < s[j].sequence
  }

  lemma {:induction false} InOrderMembers(p: map<Uint64, DataMessage>, m: DataMessage)
    requires KeyedBySequence(p)
    ensures m in InOrder(p) <==> m.sequence in p && p[m.sequence] == m
    decreases |p|
  {
    if p != map[] {
      var k := MinKey(p.Keys);
      assert (p - {k}).Keys == p.Keys - {k};
      InOrderMembers(p - {k}, m);
    }
  }

  lemma {:induction false} InOrderAscending(p: map<Uint64, DataMessage>)
    requires KeyedBySequence(p)
    ensures Ascending(InOrder(p))
    decreases |p|
  {
    if p != map[] {
      var k := MinKey(p.Keys);
      var rest := InOrder(p - {k});
      InOrderAscending(p - {k});
      forall m | m in rest ensures k < m.sequence {
        InOrderMembers(p - {k}, m);
      }
    }
  }

  lemma HasMember(s: seq<DataMessage>)
    requires s != []
    ensures exists m :: m in s
  {
    assert s[0] in s;
  }

  /** Two ascending sequences with the same elements are equal. */
  lemma {:induction false} AscendingUnique(s: seq<DataMessage>, t: seq<DataMessage>)
    requires Ascending(s) && Ascending(t)
    requires forall m :: m in s <==> m in t
    ensures s == t
  {
    if s == [] {
      if t != [] {
        HasMember(t);
        assert false;
      }
    } else if t == [] {
      HasMember(s);
      assert false;
    } else {
      assert s[0] in t;
      assert t[0] in s;
      assert s[0] == t[0];
      forall m ensures m in s[1..] <==> m in t[1..] {
        assert m in s[1..] ==> m in s && m != s[0];
        assert m in t[1..] ==> m in t && m != t[0];
      }
      AscendingUnique(s[1..], t[1..]);
    }
  }

  /** Numbering a data message on a migrating channel retains a copy of it. */
  function Stamp(ch: Chan, msg: Message): (Chan, Message) {
    if msg.Data? && ch.migration then
      var n: Uint64 := (ch.sequence + 1) % U64;
      var d := DataMessage(if msg.data.channelID == 0 then ch.id else msg.data.channelID, msg.data.payload, n);
      (ch.(sequence := n, pending := ch.pending[n := d]), Data(d))
    else (ch, msg)
  }

  ghost function Replay(ch: Chan, net: Net): Out {
    if ch.writer.None? then Out(ch, net, NoWriter)
    else
      var (n, ok) := SendAll(net, ch.writer.value, InOrder(ch.pending));
      Out(ch, n, if ok then Ok else WriteFailed)
  }

  ghost function ToFallback(ch: Chan, net: Net, reason: string): Out {
    if ch.closed then Out(ch, net, Closed)
    else if ch.fallback.None? then Out(ch, net, NoFallback)
    else
      var c := ch.(writer := ch.fallback, path := Relay);
      if !ch.migration then Out(c, net, Ok)
      else
        var (n, ok) := Send(net, ch.fallback.value, Migrate(ch.id, reason));
        if ok then Replay(c, n) else Out(c, n, WriteFailed)
  }

  ghost function ToRelay(ch: Chan, net: Net): Out {
    if ch.fallback.None? then Out(ch, net, NoFallback)
    else if ch.closed then Out(ch, net, Closed)
    else
      var c := ch.(writer := ch.fallback, path := Relay);
      if ch.migration then Replay(c, net) else Out(c, net, Ok)
  }

  ghost function Write(ch: Chan, net: Net, msg: Message): Out {
    if msg.NoMessage? then Out(ch, net, NilMessage)
    else if ch.closed then Out(ch, net, Closed)
    else
      var (c, m) := Stamp(ch, msg);
      if ch.writer.None? then Out(c, net, NoWriter)
      else
        var (n, ok) := Send(net, ch.writer.value, m);
        if ok then Out(c, n, Ok)
        else if m.Migrate? then Out(c, n, WriteFailed)
        else Recover(c, n, m)
  }

  /** After a failed write the channel falls back to the relay. A numbered
      message went out with the replay; anything else is written once more. */
  ghost function Recover(ch: Chan, net: Net, m: Message): Out {
    var f := ToFallback(ch, net, "write failure");
    if f.status != Ok then f.(status := TransportDown)
    else if m.Data? && ch.migration then f
    else
      var (n, ok) := Send(f.net, ch.fallback.value, m);
      Out(f.ch, n, if ok then Ok else TransportDown)
  }

  // -------------------------------------------------------------- receiving

  function Accept(ch: Chan, msg: DataMessage): (Chan, bool) {
    if msg.sequence == 0 then (ch, true)
    else if msg.sequence <= ch.received then (ch, false)
    else if msg.sequence != (ch.received + 1) % U64 then (ch, false)
    else (ch.(received := msg.sequence), true)
  }

  function Reject(ch: Chan, sequence: Uint64): Chan {
    if sequence != 0 && ch.received == sequence then ch.(received := sequence - 1) else ch
  }

  ghost function Acknowledge(ch: Chan, net: Net, sequence: Uint64): Out {
    if ch.migration then Write(ch, net, DataAck(ch.id, sequence)) else Out(ch, net, Ok)
  }

  const QUEUE_CAPACITY: nat := 1000

  /** The bounded queue a channel's consumer reads, if one is registered. */
  datatype Inbox = Inbox(present: bool, queue: seq<DataMessage>)

  datatype Delivery = Delivery(ch: Chan, net: Net, inbox: Inbox)

  ghost function Deliver(ch: Chan, net: Net, inbox: Inbox, msg: DataMessage): Delivery {
    var (c, isNext) := Accept(ch, msg);
    if !isNext then
      if msg.sequence != 0 && msg.sequence <= c.received then
        var a := Acknowledge(c, net, msg.sequence);
        Delivery(a.ch, a.net, inbox)
      else Delivery(c, net, inbox)
    else if inbox.present && |inbox.queue| < QUEUE_CAPACITY then
      Delivery(c, net, inbox.(queue := inbox.queue + [msg]))
    else Delivery(Reject(c, msg.sequence), net, inbox)
  }

  /** A message for a channel that is not registered: into its queue if there
      is one, else into the buffer that waits for the channel to bind. Either
      drops what does not fit. */
  function DeliverUnbound(inbox: Inbox, waiting: seq<DataMessage>, msg: DataMessage): (Inbox, seq<DataMessage>) {
    if inbox.present then (inbox.(queue := Fit(inbox.queue, [msg])), waiting) else (inbox, Fit(waiting, [msg]))
  }

  /** What a bounded queue holds after taking these as far as they fit. */
  function Fit(queue: seq<DataMessage>, msgs: seq<DataMessage>): seq<DataMessage> {
    if |queue| + |msgs| <= QUEUE_CAPACITY then queue + msgs
    else if |queue| <= QUEUE_CAPACITY then queue + msgs[..QUEUE_CAPACITY - |queue|]
    else queue
  }

  lemma FitOn(queue: seq<DataMessage>, front: seq<DataMessage>, more: seq<DataMessage>)
    requires |queue| <= QUEUE_CAPACITY
    ensures Fit(Fit(queue, front), more) == Fit(queue, front + more)
  {
    var l, r := Fit(Fit(queue, front), more), Fit(queue, front + more);
    assert |l| == |r| && forall i | 0 <= i < |l| :: l[i] == r[i];
  }

  function Waiting(msgs: seq<DataMessage>): seq<DataMessage> {
    if msgs == [] then [] else DeliverUnbound(Inbox(false, []), Waiting(msgs[..|msgs| - 1]), msgs[|msgs| - 1]).1
  }

  /** The queue of an unregistered channel after these messages. */
  function Arriving(msgs: seq<DataMessage>): Inbox {
    if msgs == [] then Inbox(true, []) else DeliverUnbound(Arriving(msgs[..|msgs| - 1]), [], msgs[|msgs| - 1]).0
  }

  /** Messages for a channel that is not registered reach its queue in order,
      at once or when the channel binds, cut only at the tail by the capacity. */
  lemma {:induction false} HeldInOrder(msgs: seq<DataMessage>)
    ensures Waiting(msgs) == (if |msgs| <= 1000 then msgs else msgs[..1000]) && Fit([], Waiting(msgs)) == Waiting(msgs)
    ensures Arriving(msgs) == Inbox(true, Waiting(msgs))
    decreases |msgs|
  {
    if msgs != [] {
      var front := msgs[..|msgs| - 1];
      HeldInOrder(front);
      FitOn([], front, [msgs[|msgs| - 1]]);
      assert msgs == front + [msgs[|msgs| - 1]];
    }
  }

  // ------------------------------------------------------ the mutable object

  class Transport {
    var trace: seq<Sent>
    var script: seq<Outcome>

    ghost function View(): Net reads this { Net(trace, script) }

    method WriteMessage(link: LinkID, msg: Message) returns (ok: bool)
      modifies this
      ensures (View(), ok) == Send(old(View()), link, msg)
    {
      var o := Refused;
      if script != [] {
        o := script[0];
        script := script[1..];
      }
      if o != Refused {
        trace := trace + [Sent(link, msg)];
      }
      return o == Delivered;
    }
  }

  class LogicalChannel {
    const id: ChannelID
    const net: Transport
    var path: Path
    var writer: Option<LinkID>
    var fallback: Option<LinkID>
    var migration: bool
    var sequence: Uint64
    var received: Uint64
    var pending: map<Uint64, DataMessage>
    var closed: bool

    ghost function View(): Chan
      reads this
    {
      Chan(id, path, writer, fallback, migration, sequence, received, pending, closed)
    }

    ghost predicate Valid()
      reads this
    {
      KeyedBySequence(pending)
    }

    constructor (id: ChannelID, net: Transport, writer: Option<LinkID>, fallback: Option<LinkID>, path: Path)
      ensures Valid() && this.net == net
      ensures View() == Chan(id, path, writer, fallback, false, 0, 0, map[], false)
    {
      this.id, this.net := id, net;
      this.writer, this.fallback, this.path := writer, fallback, path;
      migration, sequence, received, pending, closed := false, 0, 0, map[], false;
    }

    method Switch(link: Option<LinkID>, to: Path) returns (status: Status)
      modifies this`writer, this`path
      ensures status == if link.None? then NoWriter else if closed then Closed else Ok
      ensures View() == if status == Ok then old(View()).(writer := link, path := to) else old(View())
    {
      if link.None? {
        return NoWriter;
      }
      if closed {
        return Closed;
      }
      writer, path := link, to;
      return Ok;
    }

    /** A resumed direct channel takes over and replays what is retained. */
    method ResumeDirect(link: LinkID) returns (status: Status)
      requires Valid()
      modifies this`writer, this`path, net
      ensures Valid()
      ensures Out(View(), net.View(), status)
           == if old(closed) then Out(old(View()), old(net.View()), Closed)
              else Replay(old(View()).(writer := Some(link), path := Direct), old(net.View()))
    {
      status := Switch(Some(link), Direct);
      if status == Ok {
        status := ReplayPending();
      }
    }

    /** The map is read out in no particular order and then sorted. */
    method PendingMessages() returns (result: seq<DataMessage>)
      requires Valid()
      ensures result == InOrder(pending)
    {
      result := [];
      var rest := pending.Keys;
      while rest != {}
        invariant rest <= pending.Keys
        invariant Ascending(result)
        invariant forall m :: m in result <==> m.sequence in pending.Keys - rest && pending[m.sequence] == m
        decreases rest
      {
        var k :| k in rest;
        result := Insert(result, pending[k]);
        rest := rest - {k};
      }
      InOrderAscending(pending);
      forall m ensures m in result <==> m in InOrder(pending) {
        InOrderMembers(pending, m);
      }
      AscendingUnique(result, InOrder(pending));
    }

    method ReplayPending() returns (status: Status)
      requires Valid()
      modifies net
      ensures Out(View(), net.View(), status) == Replay(View(), old(net.View()))
    {
      if writer.None? {
        return NoWriter;
      }
      var msgs := PendingMessages();
      var i := 0;
      while i < |msgs|
        invariant 0 <= i <= |msgs|
        invariant SendAll(old(net.View()), writer.value, msgs) == SendAll(net.View(), writer.value, msgs[i..])
      {
        var ok := net.WriteMessage(writer.value, Data(msgs[i]));
        assert msgs[i..][1..] == msgs[i + 1..];
        if !ok {
          return WriteFailed;
        }
        i := i + 1;
      }
      return Ok;
    }

    method SwitchToFallback(reason: string) returns (status: Status)
      requires Valid()
      modifies this, net
      ensures Valid()
      ensures Out(View(), net.View(), status) == ToFallback(old(View()), old(net.View()), reason)
    {
      if closed {
        return Closed;
      }
      if fallback.None? {
        return NoFallback;
      }
      writer, path := fallback, Relay;
      if !migration {
        return Ok;
      }
      var ok := net.WriteMessage(fallback.value, Migrate(id, reason));
      if !ok {
        return WriteFailed;
      }
      status := ReplayPending();
    }

    method SwitchToRelay() returns (status: Status)
      requires Valid()
      modifies this, net
      ensures Valid()
      ensures Out(View(), net.View(), status) == ToRelay(old(View()), old(net.View()))
    {
      if fallback.None? {
        return NoFallback;
      }
      status := Switch(fallback, Relay);
      if status != Ok || !migration {
        return;
      }
      status := ReplayPending();
    }

    method WriteMessage(msg: Message) returns (status: Status)
      requires Valid()
      modifies this, net
      ensures Valid()
      ensures Out(View(), net.View(), status) == Write(old(View()), old(net.View()), msg)
    {
      if msg.NoMessage? {
        return NilMessage;
      }
      if closed {
        return Closed;
      }
      var m := StampMessage(msg);
      if writer.None? {
        return NoWriter;
      }
      var ok := net.WriteMessage(writer.value, m);
      if ok {
        return Ok;
      }
      if m.Migrate? {
        return WriteFailed;
      }
      status := RecoverWrite(m);
    }

    method StampMessage(msg: Message) returns (m: Message)
      requires Valid()
      modifies this`sequence, this`pending
      ensures Valid()
      ensures (View(), m) == Stamp(old(View()), msg)
    {
      m := msg;
      if msg.Data? && migration {
        var data := msg.data;
        if data.channelID == 0 {
          data := data.(channelID := id);
        }
        sequence := (sequence + 1) % U64;
        data := data.(sequence := sequence);
        pending := pending[sequence := data];
        m := Data(data);
      }
    }

    method RecoverWrite(m: Message) returns (status: Status)
      requires Valid()
      modifies this, net
      ensures Valid()
      ensures Out(View(), net.View(), status) == Recover(old(View()), old(net.View()), m)
    {
      var switched := SwitchToFallback("write failure");
      if switched != Ok {
        return TransportDown;
      }
      if m.Data? && migration {
        return Ok;
      }
      var ok := net.WriteMessage(writer.value, m);
      return if ok then Ok else TransportDown;
    }

    method AcceptData(msg: DataMessage) returns (isNext: bool)
      modifies this`received
      ensures (View(), isNext) == Accept(old(View()), msg)
    {
      if msg.sequence == 0 {
        return true;
      }
      if msg.sequence <= received {
        return false;
      }
      if msg.sequence != (received + 1) % U64 {
        return false;
      }
      received := msg.sequence;
      return true;
    }

    method RejectData(sequence: Uint64)
      modifies this`received
      ensures View() == Reject(old(View()), sequence)
    {
      if sequence == 0 {
        return;
      }
      if received == sequence {
        received := sequence - 1;
      }
    }

    method AcknowledgeReceived(sequence: Uint64)
      requires Valid()
      modifies this`pending
      ensures Valid() && View() == old(View()).(pending := old(pending) - {sequence})
    {
      pending := pending - {sequence};
    }

    method AcknowledgeMessage(sequence: Uint64) returns (status: Status)
      requires Valid()
      modifies this, net
      ensures Valid()
      ensures Out(View(), net.View(), status) == Acknowledge(old(View()), old(net.View()), sequence)
    {
      if !migration {
        return Ok;
      }
      status := WriteMessage(DataAck(id, sequence));
    }
  }

  function Insert(s: seq<DataMessage>, m: DataMessage): (r: seq<DataMessage>)
    requires Ascending(s)
    requires forall x | x in s :: x.sequence != m.sequence
    ensures Ascending(r)
    ensures forall x :: x in r <==> x in s || x == m
  {
    if s == [] then [m]
    else if m.sequence < s[0].sequence then [m] + s
    else
      assert s == [s[0]] + s[1..];
      var t := Insert(s[1..], m);
      assert forall x | x in t :: s[0].sequence < x.sequence;
      [s[0]] + t
  }

  class Client {
    const channel: LogicalChannel
    var registered: bool
    var queuePresent: bool
    var queue: seq<DataMessage>
    var waiting: seq<DataMessage>

    constructor (channel: LogicalChannel)
      ensures this.channel == channel && !registered && !queuePresent && queue == [] && waiting == []
    {
      this.channel, registered, queuePresent, queue, waiting := channel, false, false, [], [];
    }

    method HandleDirectChannelFailure(reason: string) returns (status: Status)
      requires channel.Valid()
      modifies channel, channel.net
      ensures channel.Valid()
      ensures Out(channel.View(), channel.net.View(), status)
           == if old(channel.path) == Relay then Out(old(channel.View()), old(channel.net.View()), Ok)
              else ToFallback(old(channel.View()), old(channel.net.View()), reason)
    {
      if channel.path == Relay {
        return Ok;
      }
      status := channel.SwitchToFallback(reason);
    }

    /** One data message, handled as one step. */
    method DeliverDataMessage(msg: DataMessage)
      requires channel.Valid()
      modifies this`queue, this`waiting, channel, channel.net
      ensures channel.Valid()
      ensures registered ==>
                Delivery(channel.View(), channel.net.View(), Inbox(queuePresent, queue))
                == Deliver(old(channel.View()), old(channel.net.View()), Inbox(old(queuePresent), old(queue)), msg)
                && waiting == old(waiting)
      ensures !registered ==>
                channel.View() == old(channel.View()) && channel.net.View() == old(channel.net.View())
                && (Inbox(queuePresent, queue), waiting) == DeliverUnbound(Inbox(old(queuePresent), old(queue)), old(waiting), msg)
    {
      assert queue + [msg][..0] == queue && waiting + [msg][..0] == waiting;
      if registered {
        DeliverRegistered(msg);
      } else if queuePresent {
        if |queue| < QUEUE_CAPACITY {
          queue := queue + [msg];
        }
      } else if |waiting| < QUEUE_CAPACITY {
        waiting := waiting + [msg];
      }
    }

    method DeliverRegistered(msg: DataMessage)
      requires channel.Valid()
      modifies this`queue, channel, channel.net
      ensures channel.Valid()
      ensures Delivery(channel.View(), channel.net.View(), Inbox(queuePresent, queue))
           == Deliver(old(channel.View()), old(channel.net.View()), Inbox(old(queuePresent), old(queue)), msg)
    {
      var isNext := channel.AcceptData(msg);
      if !isNext {
        if msg.sequence != 0 && msg.sequence <= channel.received {
          var _ := channel.AcknowledgeMessage(msg.sequence);
        }
        return;
      }
      if queuePresent {
        if |queue| < QUEUE_CAPACITY {
          queue := queue + [msg];
        } else {
          channel.RejectData(msg.sequence);
        }
      } else {
        channel.RejectData(msg.sequence);
      }
    }

    /** When the channel binds, what waited moves into its queue in order. */
    method FlushOrphanData()
      requires |queue| <= QUEUE_CAPACITY
      modifies this`queue, this`waiting
      ensures queue == Fit(old(queue), old(waiting)) && waiting == []
    {
      var taken := waiting;
      waiting := [];
      var i := 0;
      while i < |taken| && |queue| < QUEUE_CAPACITY
        invariant 0 <= i <= |taken| && |queue| <= QUEUE_CAPACITY && waiting == []
        invariant queue == old(queue) + taken[..i]
      {
        queue, i := queue + [taken[i]], i + 1;
      }
      assert i == |taken| ==> taken[..i] == taken;
    }
  }
}
