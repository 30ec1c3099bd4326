/** Whole runs of two endpoints of one migrating channel.

    Frames that left an endpoint stay in its trace for ever and any of them may
    arrive at the peer at any time, any number of times or never, whichever
    link carried it: the network loses, duplicates and reorders at will. */
module Migration {
  import opened Bytes
  import opened Channel

  /** One endpoint, with two histories: every data message it numbered, and
      every data message it put into its consumer's queue. */
  datatype Endpoint = Endpoint(
    ch: Chan, net: Net, inbox: Inbox, log: seq<DataMessage>, enqueued: seq<DataMessage>)

  datatype Event =
    | WriteData(payload: Payload, named: bool, script: seq<Outcome>)
    | WriteOther(body: Payload, script: seq<Outcome>)
    | DirectFailure(reason: string, script: seq<Outcome>)
    | GoRelay(script: seq<Outcome>)
    | ResumeDirect(link: LinkID, script: seq<Outcome>)
    | SwitchDirect(link: LinkID)
    | EnableMigration(on: bool)
    | SetQueue(present: bool)
    | Arrive(frame: nat, script: seq<Outcome>)
    | Consume(script: seq<Outcome>)
    | Close

  ghost function With(e: Endpoint, o: Out): Endpoint { e.(ch := o.ch, net := o.net) }

  /** What one event at endpoint `me` does, given the frames its peer has sent. */
  ghost function Act(me: Endpoint, peer: Endpoint, ev: Event): Endpoint {
    match ev
    case WriteData(payload, named, script) =>
      var msg := Data(DataMessage(if named then me.ch.id else 0, payload, 0));
      var numbered := if me.ch.closed || !me.ch.migration then [] else [Stamp(me.ch, msg).1.data];
      With(me, Write(me.ch, me.net.(script := script), msg)).(log := me.log + numbered)
    case WriteOther(body, script) => With(me, Write(me.ch, me.net.(script := script), Other(body)))
    case DirectFailure(reason, script) =>
      if me.ch.path == Relay then me else With(me, ToFallback(me.ch, me.net.(script := script), reason))
    case GoRelay(script) => With(me, ToRelay(me.ch, me.net.(script := script)))
    case ResumeDirect(link, script) =>
      if me.ch.closed then me
      else With(me, Replay(me.ch.(writer := Some(link), path := Direct), me.net.(script := script)))
    case SwitchDirect(link) =>
      if me.ch.closed then me else me.(ch := me.ch.(writer := Some(link), path := Direct))
    case EnableMigration(on) => me.(ch := me.ch.(migration := on))
    case SetQueue(present) => me.(inbox := Inbox(present, if present then me.inbox.queue else []))
    case Arrive(i, script) =>
      if i < |peer.net.trace| then Receive(me.(net := me.net.(script := script)), peer.net.trace[i].msg) else me
    case Consume(script) =>
      if me.inbox.present && me.inbox.queue != [] then
        var head := me.inbox.queue[0];
        var e := me.(inbox := me.inbox.(queue := me.inbox.queue[1..]));
        if head.sequence == 0 then e
        else With(e, Acknowledge(e.ch, e.net.(script := script), head.sequence))
      else me
    case Close => me.(ch := me.ch.(closed := true, writer := None))
  }

  ghost function Receive(me: Endpoint, msg: Message): Endpoint {
    match msg
    case Data(d) =>
      if d.channelID != me.ch.id then me
      else
        var r := Deliver(me.ch, me.net, me.inbox, d);
        Endpoint(r.ch, r.net, r.inbox, me.log,
                 me.enqueued + if |r.inbox.queue| > |me.inbox.queue| then [d] else [])
    case DataAck(c, n) => if c == me.ch.id then me.(ch := me.ch.(pending := me.ch.pending - {n})) else me
    case Migrate(c, _) =>
      if c != me.ch.id || !me.ch.migration then me
      else
        var o := ToRelay(me.ch, me.net);
        if o.ch.writer.None? then With(me, o)
        else With(me, o).(net := Send(o.net, o.ch.writer.value, Other([])).0)
    case _ => me
  }

  datatype System = System(a: Endpoint, b: Endpoint)

  /** An event at endpoint a or at endpoint b. */
  datatype Step = Step(atA: bool, event: Event)

  ghost function Next(s: System, step: Step): System {
    if step.atA then System(Act(s.a, s.b, step.event), s.b) else System(s.a, Act(s.b, s.a, step.event))
  }

  ghost function Run(s: System, steps: seq<Step>): System
    decreases |steps|
  {
    if steps == [] then s else Next(Run(s, steps[..|steps| - 1]), steps[|steps| - 1])
  }

  function Fresh(id: ChannelID, writer: Option<LinkID>, fallback: Option<LinkID>, path: Path): Endpoint {
    Endpoint(Chan(id, path, writer, fallback, false, 0, 0, map[], false), Net([], []), Inbox(false, []), [], [])
  }

  ghost predicate Initial(s: System) {
    exists id, wa, fa, pa, wb, fb, pb | 0 < id :: s == System(Fresh(id, wa, fa, pa), Fresh(id, wb, fb, pb))
  }

  function Numbered(s: seq<DataMessage>): seq<DataMessage> {
    if s == [] then []
    else Numbered(s[..|s| - 1]) + if s[|s| - 1].sequence == 0 then [] else [s[|s| - 1]]
  }

  // ----------------------------------------------------------- the invariant

  ghost predicate Logged(d: DataMessage, log: seq<DataMessage>) {
    1 <= d.sequence <= |log| && log[d.sequence - 1] == d
  }

  ghost predicate LogOk(log: seq<DataMessage>, id: ChannelID) {
    forall i | 0 <= i < |log| :: log[i].sequence == i + 1 && log[i].channelID == id
  }

  ghost predicate FrameOk(m: Message, e: Endpoint) {
    match m
    case Data(d) => d.sequence != 0 ==> Logged(d, e.log)
    case DataAck(c, n) => n <= e.ch.received
    case _ => true
  }

  ghost predicate TraceOk(e: Endpoint) {
    forall i | 0 <= i < |e.net.trace| :: FrameOk(e.net.trace[i].msg, e)
  }

  ghost predicate PendingOk(e: Endpoint) {
    forall k | k in e.ch.pending :: e.ch.pending[k].sequence == k && Logged(e.ch.pending[k], e.log)
  }

  ghost predicate QueueOk(e: Endpoint) {
    forall d | d in e.inbox.queue :: d.sequence <= e.ch.received
  }

  ghost predicate EndpointOk(e: Endpoint) {
    e.ch.sequence == |e.log| && LogOk(e.log, e.ch.id) && PendingOk(e) && QueueOk(e) && TraceOk(e)
  }

  /** Nothing the sender numbered is lost: delivered already, or still held. */
  ghost predicate NothingLost(s: Endpoint, r: Endpoint) {
    forall k: Uint64 | 1 <= k <= |s.log| ::
      k <= r.ch.received || (k in s.ch.pending && s.ch.pending[k] == s.log[k - 1])
  }

  /** The receiver queued the first `received` numbered messages, and no others. */
  ghost predicate PrefixQueued(s: Endpoint, r: Endpoint) {
    r.ch.received <= |s.log| && Numbered(r.enqueued) == s.log[..r.ch.received]
  }

  ghost predicate Direction(s: Endpoint, r: Endpoint) { NothingLost(s, r) && PrefixQueued(s, r) }

  ghost predicate Inv(s: System) {
    && s.a.ch.id == s.b.ch.id
    && EndpointOk(s.a) && EndpointOk(s.b)
    && Direction(s.a, s.b) && Direction(s.b, s.a)
  }

  /** Fewer messages than the 64-bit counter can number. */
  ghost predicate Countable(s: System) { |s.a.log| < U64 && |s.b.log| < U64 }

  // -------------------------------------- what a write leaves in the network

  /** A write changes neither `received` nor the identity, and every frame it
      adds is the message itself, a retained message or a control message. */
  ghost predicate Emits(ch: Chan, net: Net, o: Out, m: Message) {
    && o.ch.id == ch.id && o.ch.received == ch.received
    && o.ch.sequence == ch.sequence && o.ch.pending == ch.pending
    && net.trace <= o.net.trace
    && forall i | |net.trace| <= i < |o.net.trace| ::
         var x := o.net.trace[i].msg;
         x == m || x.Migrate? || (x.Data? && x.data in ch.pending.Values)
  }

  lemma {:induction false} SendAllEmits(net: Net, link: LinkID, msgs: seq<DataMessage>)
    ensures var after := SendAll(net, link, msgs).0;
            && net.trace <= after.trace
            && forall i | |net.trace| <= i < |after.trace| :: after.trace[i].msg.Data? && after.trace[i].msg.data in msgs
    decreases |msgs|
  {
    if msgs != [] {
      SendAllEmits(Send(net, link, Data(msgs[0])).0, link, msgs[1..]);
    }
  }

  lemma ReplayEmits(ch: Chan, net: Net, m: Message)
    ensures Emits(ch, net, Replay(ch, net), m)
  {
    if ch.writer.Some? {
      SendAllEmits(net, ch.writer.value, InOrder(ch.pending));
    }
  }

  lemma ToFallbackEmits(ch: Chan, net: Net, reason: string, m: Message)
    ensures Emits(ch, net, ToFallback(ch, net, reason), m)
  {
    if ch.fallback.Some? {
      var c := ch.(writer := ch.fallback, path := Relay);
      ReplayEmits(c, Send(net, ch.fallback.value, Migrate(ch.id, reason)).0, m);
    }
  }

  lemma ToRelayEmits(ch: Chan, net: Net, m: Message)
    ensures Emits(ch, net, ToRelay(ch, net), m)
  {
    ReplayEmits(ch.(writer := ch.fallback, path := Relay), net, m);
  }

  lemma WriteEmits(ch: Chan, net: Net, msg: Message)
    requires !msg.NoMessage? && !ch.closed
    ensures var (c, m) := Stamp(ch, msg); Emits(c, net, Write(ch, net, msg), m)
  {
    var (c, m) := Stamp(ch, msg);
    if ch.writer.Some? {
      var (n, ok) := Send(net, ch.writer.value, m);
      ToFallbackEmits(c, n, "write failure", m);
    }
  }

  lemma AcknowledgeEmits(ch: Chan, net: Net, n: Uint64)
    ensures Emits(ch, net, Acknowledge(ch, net, n), DataAck(ch.id, n))
  {
    if ch.migration && !ch.closed {
      WriteEmits(ch, net, DataAck(ch.id, n));
    }
  }

  /** Writing a message whose frame is in order keeps the endpoint in order. */
  lemma EmitsKeepsEndpoint(me: Endpoint, net: Net, o: Out, m: Message)
    requires EndpointOk(me) && net.trace == me.net.trace
    requires Emits(me.ch, net, o, m) && FrameOk(m, me)
    ensures EndpointOk(With(me, o))
  {
    var e := With(me, o);
    forall i | 0 <= i < |e.net.trace| ensures FrameOk(e.net.trace[i].msg, e) {
      if i < |net.trace| {
        assert e.net.trace[i] == me.net.trace[i];
        assert FrameOk(me.net.trace[i].msg, me);
      }
    }
  }

  // ----------------------------------------------------- each event keeps it

  /** An endpoint that numbered one more message and has not written it yet. */
  function Numbering(me: Endpoint, msg: Message): Endpoint {
    var (c, m) := Stamp(me.ch, msg);
    me.(ch := c, log := me.log + if msg.Data? && me.ch.migration then [m.data] else [])
  }

  lemma NumberingKeeps(me: Endpoint, msg: Message)
    requires EndpointOk(me) && msg.Data? && msg.data.sequence == 0 && |Numbering(me, msg).log| < U64
    requires msg.data.channelID == 0 || msg.data.channelID == me.ch.id
    ensures EndpointOk(Numbering(me, msg)) && FrameOk(Stamp(me.ch, msg).1, Numbering(me, msg))
  {
    var mid := Numbering(me, msg);
    forall i | 0 <= i < |me.net.trace|
      ensures FrameOk(me.net.trace[i].msg, mid)
    {
      assert FrameOk(me.net.trace[i].msg, me);
    }
  }

  lemma NumberingDirects(me: Endpoint, peer: Endpoint, msg: Message)
    requires EndpointOk(me) && Direction(me, peer) && Direction(peer, me) && |Numbering(me, msg).log| < U64
    ensures Direction(Numbering(me, msg), peer) && Direction(peer, Numbering(me, msg))
  {
    var mid := Numbering(me, msg);
    assert mid.log[..peer.ch.received] == me.log[..peer.ch.received];
  }

  lemma SameDirections(mid: Endpoint, e: Endpoint, peer: Endpoint)
    requires Direction(mid, peer) && Direction(peer, mid) && e.log == mid.log && e.enqueued == mid.enqueued
    requires e.ch.received == mid.ch.received && e.ch.pending == mid.ch.pending
    ensures Direction(e, peer) && Direction(peer, e)
  {
  }

  lemma WriteDataKeeps(me: Endpoint, peer: Endpoint, ev: Event)
    requires ev.WriteData? && me.ch.id == peer.ch.id
    requires EndpointOk(me) && Direction(me, peer) && Direction(peer, me)
    requires |Act(me, peer, ev).log| < U64
    ensures var e := Act(me, peer, ev); EndpointOk(e) && Direction(e, peer) && Direction(peer, e)
  {
    var msg := Data(DataMessage(if ev.named then me.ch.id else 0, ev.payload, 0));
    var net, e := me.net.(script := ev.script), Act(me, peer, ev);
    if me.ch.closed {
      assert me.log + [] == me.log;
      KeepsTrace(me, e);
    } else {
      var mid := Numbering(me, msg);
      assert e == With(mid, Write(me.ch, net, msg));
      WriteEmits(me.ch, net, msg);
      NumberingKeeps(me, msg);
      NumberingDirects(me, peer, msg);
      EmitsKeepsEndpoint(mid, net, Write(me.ch, net, msg), Stamp(me.ch, msg).1);
      SameDirections(mid, e, peer);
    }
  }

  lemma DuplicateKeeps(me: Endpoint, peer: Endpoint, d: DataMessage)
    requires EndpointOk(me) && Direction(me, peer) && Direction(peer, me) && d.channelID == me.ch.id
    requires !Accept(me.ch, d).1
    ensures var e := Receive(me, Data(d)); EndpointOk(e) && Direction(e, peer) && Direction(peer, e)
  {
    var e := Receive(me, Data(d));
    assert e.enqueued == me.enqueued;
    AcknowledgeEmits(me.ch, me.net, d.sequence);
    if d.sequence <= me.ch.received {
      EmitsKeepsEndpoint(me, me.net, Acknowledge(me.ch, me.net, d.sequence), DataAck(me.ch.id, d.sequence));
    }
    SameDirections(me, e, peer);
  }

  /** The endpoint after queueing d, which was its turn. */
  function Queued(me: Endpoint, d: DataMessage): Endpoint {
    me.(ch := Accept(me.ch, d).0, inbox := me.inbox.(queue := me.inbox.queue + [d]), enqueued := me.enqueued + [d])
  }

  lemma QueuedOk(me: Endpoint, d: DataMessage)
    requires EndpointOk(me) && Accept(me.ch, d).1
    ensures EndpointOk(Queued(me, d))
  {
    var e := Queued(me, d);
    forall i | 0 <= i < |e.net.trace|
      ensures FrameOk(e.net.trace[i].msg, e)
    {
      assert FrameOk(me.net.trace[i].msg, me);
    }
  }

  lemma QueuedPrefix(me: Endpoint, peer: Endpoint, d: DataMessage)
    requires PrefixQueued(peer, me) && Accept(me.ch, d).1 && (d.sequence != 0 ==> Logged(d, peer.log))
    ensures PrefixQueued(peer, Queued(me, d))
  {
    var e := Queued(me, d);
    assert e.enqueued[..|e.enqueued| - 1] == me.enqueued;
    if d.sequence != 0 {
      assert peer.log[..d.sequence] == peer.log[..d.sequence - 1] + [d];
    }
  }

  lemma QueuedDirects(me: Endpoint, peer: Endpoint, d: DataMessage)
    requires Direction(me, peer) && Direction(peer, me) && Accept(me.ch, d).1 && (d.sequence != 0 ==> Logged(d, peer.log))
    ensures Direction(Queued(me, d), peer) && Direction(peer, Queued(me, d))
  {
    QueuedPrefix(me, peer, d);
  }

  lemma DeliverKeeps(me: Endpoint, peer: Endpoint, d: DataMessage)
    requires EndpointOk(me) && Direction(me, peer) && Direction(peer, me)
    requires d.sequence != 0 ==> Logged(d, peer.log)
    ensures var e := Receive(me, Data(d)); EndpointOk(e) && Direction(e, peer) && Direction(peer, e)
  {
    if d.channelID == me.ch.id {
      if !Accept(me.ch, d).1 {
        DuplicateKeeps(me, peer, d);
      } else if me.inbox.present && |me.inbox.queue| < QUEUE_CAPACITY {
        assert Receive(me, Data(d)) == Queued(me, d);
        QueuedOk(me, d);
        QueuedDirects(me, peer, d);
      } else {
        assert me.enqueued + [] == me.enqueued;
        assert Receive(me, Data(d)) == me;
      }
    }
  }

  lemma MigrateKeeps(me: Endpoint, c: ChannelID, reason: string)
    requires EndpointOk(me)
    ensures var e := Receive(me, Migrate(c, reason));
            EndpointOk(e) && e.log == me.log && e.enqueued == me.enqueued
            && e.ch.received == me.ch.received && e.ch.pending == me.ch.pending
  {
    var e := Receive(me, Migrate(c, reason));
    if c == me.ch.id && me.ch.migration {
      var o := ToRelay(me.ch, me.net);
      ToRelayEmits(me.ch, me.net, NoMessage);
      EmitsKeepsEndpoint(me, me.net, o, NoMessage);
      forall i | 0 <= i < |e.net.trace| ensures FrameOk(e.net.trace[i].msg, e) {
        if i < |o.net.trace| {
          assert FrameOk(With(me, o).net.trace[i].msg, With(me, o));
        }
      }
    }
  }

  lemma ReceiveKeeps(me: Endpoint, peer: Endpoint, msg: Message)
    requires me.ch.id == peer.ch.id && FrameOk(msg, peer)
    requires EndpointOk(me) && Direction(me, peer) && Direction(peer, me)
    ensures var e := Receive(me, msg); EndpointOk(e) && Direction(e, peer) && Direction(peer, e)
  {
    match msg
    case Data(d) => DeliverKeeps(me, peer, d);
    case DataAck(_, _) => KeepsTrace(me, Receive(me, msg));
    case Migrate(c, reason) => MigrateKeeps(me, c, reason);
    case _ =>
  }

  lemma ArriveKeeps(me: Endpoint, peer: Endpoint, ev: Event)
    requires ev.Arrive? && me.ch.id == peer.ch.id
    requires EndpointOk(me) && EndpointOk(peer) && Direction(me, peer) && Direction(peer, me)
    ensures var e := Act(me, peer, ev); EndpointOk(e) && Direction(e, peer) && Direction(peer, e)
  {
    if ev.frame < |peer.net.trace| {
      var m := me.(net := me.net.(script := ev.script));
      KeepsTrace(me, m);
      ReceiveKeeps(m, peer, peer.net.trace[ev.frame].msg);
    }
  }

  lemma SwitchKeeps(me: Endpoint, peer: Endpoint, ev: Event)
    requires EndpointOk(me) && (ev.DirectFailure? || ev.GoRelay? || ev.ResumeDirect?)
    ensures EndpointOk(Act(me, peer, ev)) && Quiet(me, Act(me, peer, ev))
  {
    var net := me.net.(script := ev.script);
    match ev
    case DirectFailure(reason, _) =>
      ToFallbackEmits(me.ch, net, reason, NoMessage);
      EmitsKeepsEndpoint(me, net, ToFallback(me.ch, net, reason), NoMessage);
    case GoRelay(_) =>
      ToRelayEmits(me.ch, net, NoMessage);
      EmitsKeepsEndpoint(me, net, ToRelay(me.ch, net), NoMessage);
    case ResumeDirect(link, _) =>
      var c := me.ch.(writer := Some(link), path := Direct);
      ReplayEmits(c, net, NoMessage);
      EmitsKeepsEndpoint(me, net, Replay(c, net), NoMessage);
  }

  /** Nothing that either direction depends on changed. */
  ghost predicate Quiet(me: Endpoint, e: Endpoint) {
    e.log == me.log && e.enqueued == me.enqueued && e.ch.received == me.ch.received && e.ch.pending == me.ch.pending
  }

  lemma ConsumeKeeps(me: Endpoint, peer: Endpoint, ev: Event)
    requires EndpointOk(me) && ev.Consume?
    ensures EndpointOk(Act(me, peer, ev)) && Quiet(me, Act(me, peer, ev))
  {
    if me.inbox.present && me.inbox.queue != [] {
      var head, net := me.inbox.queue[0], me.net.(script := ev.script);
      var e := me.(inbox := me.inbox.(queue := me.inbox.queue[1..]));
      KeepsTrace(me, e);
      if head.sequence != 0 {
        AcknowledgeEmits(e.ch, net, head.sequence);
        EmitsKeepsEndpoint(e, net, Acknowledge(e.ch, net, head.sequence), DataAck(e.ch.id, head.sequence));
      }
    }
  }

  lemma OtherKeeps(me: Endpoint, peer: Endpoint, ev: Event)
    requires EndpointOk(me) && ev.WriteOther?
    ensures EndpointOk(Act(me, peer, ev)) && Quiet(me, Act(me, peer, ev))
  {
    var net := me.net.(script := ev.script);
    if !me.ch.closed {
      WriteEmits(me.ch, net, Other(ev.body));
    }
    EmitsKeepsEndpoint(me, net, Write(me.ch, net, Other(ev.body)), Other(ev.body));
  }

  lemma LocalKeeps(me: Endpoint, peer: Endpoint, ev: Event)
    requires !ev.WriteData? && !ev.Arrive?
    requires EndpointOk(me) && Direction(me, peer) && Direction(peer, me)
    ensures var e := Act(me, peer, ev); EndpointOk(e) && Direction(e, peer) && Direction(peer, e)
  {
    var e := Act(me, peer, ev);
    if ev.WriteOther? {
      OtherKeeps(me, peer, ev);
    } else if ev.DirectFailure? || ev.GoRelay? || ev.ResumeDirect? {
      SwitchKeeps(me, peer, ev);
    } else if ev.Consume? {
      ConsumeKeeps(me, peer, ev);
    } else {
      KeepsTrace(me, e);
    }
    SameDirections(me, e, peer);
  }

  lemma KeepsTrace(me: Endpoint, e: Endpoint)
    requires TraceOk(me) && e.net.trace == me.net.trace && e.log == me.log && e.ch.received == me.ch.received
    ensures TraceOk(e)
  {
    forall i | 0 <= i < |e.net.trace| ensures FrameOk(e.net.trace[i].msg, e) {
      assert FrameOk(me.net.trace[i].msg, me);
    }
  }

  lemma ActKeeps(me: Endpoint, peer: Endpoint, ev: Event)
    requires me.ch.id == peer.ch.id && EndpointOk(me) && EndpointOk(peer)
    requires Direction(me, peer) && Direction(peer, me)
    requires |Act(me, peer, ev).log| < U64
    ensures var e := Act(me, peer, ev);
            e.ch.id == me.ch.id && EndpointOk(e) && Direction(e, peer) && Direction(peer, e)
  {
    ActBasics(me, peer, ev);
    if ev.WriteData? {
      WriteDataKeeps(me, peer, ev);
    } else if ev.Arrive? {
      ArriveKeeps(me, peer, ev);
    } else {
      LocalKeeps(me, peer, ev);
    }
  }

  lemma WriteKeepsId(ch: Chan, net: Net, msg: Message)
    ensures Write(ch, net, msg).ch.id == ch.id
  {
    if !msg.NoMessage? && !ch.closed {
      WriteEmits(ch, net, msg);
    }
  }

  lemma ActBasics(me: Endpoint, peer: Endpoint, ev: Event)
    ensures me.log <= Act(me, peer, ev).log && Act(me, peer, ev).ch.id == me.ch.id
  {
    match ev
    case WriteData(payload, named, script) =>
      WriteKeepsId(me.ch, me.net.(script := script), Data(DataMessage(if named then me.ch.id else 0, payload, 0)));
    case WriteOther(body, script) => WriteKeepsId(me.ch, me.net.(script := script), Other(body));
    case DirectFailure(reason, script) =>
      ToFallbackEmits(me.ch, me.net.(script := script), reason, NoMessage);
    case Arrive(i, script) =>
      if i < |peer.net.trace| {
        var net := me.net.(script := script);
        match peer.net.trace[i].msg
        case Data(d) => AcknowledgeEmits(me.ch, net, d.sequence);
        case _ =>
      }
    case Consume(script) =>
      if me.inbox.queue != [] {
        AcknowledgeEmits(me.ch, me.net.(script := script), me.inbox.queue[0].sequence);
      }
    case _ =>
  }

  // ------------------------------------------------------------ whole runs

  lemma {:induction false} RunInv(s: System, steps: seq<Step>)
    requires Initial(s) && Countable(Run(s, steps))
    ensures Inv(Run(s, steps))
    decreases |steps|
  {
    if steps != [] {
      var before, last := Run(s, steps[..|steps| - 1]), steps[|steps| - 1];
      var (me, peer) := if last.atA then (before.a, before.b) else (before.b, before.a);
      ActBasics(me, peer, last.event);
      RunInv(s, steps[..|steps| - 1]);
      ActKeeps(me, peer, last.event);
    }
  }

  /** In every run the messages each receiver queues are exactly the first
      `received` messages its peer numbered: in order, no gap, no duplicate. */
  lemma PrefixDelivery(s: System, steps: seq<Step>)
    requires Initial(s) && Countable(Run(s, steps))
    ensures var t := Run(s, steps); PrefixQueued(t.a, t.b) && PrefixQueued(t.b, t.a)
  {
    RunInv(s, steps);
  }

  /** In every run each numbered message has been queued by the peer or is
      still retained unchanged, and no acknowledgement in the network runs
      ahead of what was queued. */
  lemma NoMessageLost(s: System, steps: seq<Step>)
    requires Initial(s) && Countable(Run(s, steps))
    ensures var t := Run(s, steps); NothingLost(t.a, t.b) && NothingLost(t.b, t.a)
    ensures var t := Run(s, steps); AcksBehind(t.a) && AcksBehind(t.b)
  {
    RunInv(s, steps);
    TraceBehind(Run(s, steps).a);
    TraceBehind(Run(s, steps).b);
  }

  ghost predicate AcksBehind(e: Endpoint) {
    forall i | 0 <= i < |e.net.trace| && e.net.trace[i].msg.DataAck? :: e.net.trace[i].msg.sequence <= e.ch.received
  }

  lemma TraceBehind(e: Endpoint)
    requires TraceOk(e)
    ensures AcksBehind(e)
  {
    forall i | 0 <= i < |e.net.trace| && e.net.trace[i].msg.DataAck?
      ensures e.net.trace[i].msg.sequence <= e.ch.received
    {
      assert FrameOk(e.net.trace[i].msg, e);
    }
  }

  // ------------------------------------------------------ recovery by replay

  ghost predicate LinkUp(script: seq<Outcome>, n: nat) {
    n <= |script| && forall i | 0 <= i < n :: script[i] == Delivered
  }

  function Frames(link: LinkID, msgs: seq<DataMessage>): seq<Sent> {
    if msgs == [] then [] else [Sent(link, Data(msgs[0]))] + Frames(link, msgs[1..])
  }

  lemma {:induction false} FrameAt(link: LinkID, msgs: seq<DataMessage>, i: nat)
    requires i < |msgs|
    ensures |Frames(link, msgs)| == |msgs| && Frames(link, msgs)[i] == Sent(link, Data(msgs[i]))
    decreases |msgs|
  {
    if |msgs| > 1 {
      FrameAt(link, msgs[1..], if i == 0 then 0 else i - 1);
    }
  }

  lemma SendOnLiveLink(net: Net, link: LinkID, m: Message, n: nat)
    requires LinkUp(net.script, n + 1)
    ensures Send(net, link, m).1 && LinkUp(Send(net, link, m).0.script, n)
    ensures Send(net, link, m).0.trace == net.trace + [Sent(link, m)]
  {
  }

  lemma Joined(trace: seq<Sent>, link: LinkID, msgs: seq<DataMessage>)
    requires msgs != []
    ensures trace + [Sent(link, Data(msgs[0]))] + Frames(link, msgs[1..]) == trace + Frames(link, msgs)
  {
  }

  lemma {:induction false} SendAllOnLiveLink(net: Net, link: LinkID, msgs: seq<DataMessage>)
    requires LinkUp(net.script, |msgs|)
    ensures SendAll(net, link, msgs).1 && SendAll(net, link, msgs).0.trace == net.trace + Frames(link, msgs)
    decreases |msgs|
  {
    if msgs != [] {
      SendOnLiveLink(net, link, Data(msgs[0]), |msgs| - 1);
      SendAllOnLiveLink(Send(net, link, Data(msgs[0])).0, link, msgs[1..]);
      Joined(net.trace, link, msgs);
    }
  }

  /** The messages stand in the trace, one after the other, from `lo` on. */
  ghost predicate Carries(trace: seq<Sent>, lo: nat, msgs: seq<DataMessage>) {
    lo + |msgs| <= |trace| && forall i | 0 <= i < |msgs| :: trace[lo + i].msg == Data(msgs[i])
  }

  lemma CarriesOn(before: seq<Sent>, after: seq<Sent>, lo: nat, msgs: seq<DataMessage>)
    requires Carries(before, lo, msgs) && before <= after
    ensures Carries(after, lo, msgs)
  {
  }

  lemma ReplayCarries(ch: Chan, net: Net)
    requires ch.writer.Some? && LinkUp(net.script, |ch.pending|)
    ensures Replay(ch, net).status == Ok && Carries(Replay(ch, net).net.trace, |net.trace|, InOrder(ch.pending))
  {
    var link, msgs := ch.writer.value, InOrder(ch.pending);
    SendAllOnLiveLink(net, link, msgs);
    assert Replay(ch, net).net.trace == net.trace + Frames(link, msgs);
    forall i | 0 <= i < |msgs|
      ensures |Frames(link, msgs)| == |msgs| && (net.trace + Frames(link, msgs))[|net.trace| + i].msg == Data(msgs[i])
    {
      FrameAt(link, msgs, i);
    }
  }

  lemma ToFallbackCarries(ch: Chan, net: Net, reason: string)
    requires !ch.closed && ch.migration && ch.fallback.Some? && LinkUp(net.script, |ch.pending| + 1)
    ensures var o := ToFallback(ch, net, reason);
            o.status == Ok && o.ch.pending == ch.pending && Carries(o.net.trace, |net.trace| + 1, InOrder(ch.pending))
  {
    var c, m := ch.(writer := ch.fallback, path := Relay), Migrate(ch.id, reason);
    SendOnLiveLink(net, ch.fallback.value, m, |ch.pending|);
    ReplayCarries(c, Send(net, ch.fallback.value, m).0);
  }

  /** The first write fails and the relay then takes the control message and n more. */
  ghost predicate FailsOver(ch: Chan, script: seq<Outcome>, n: nat) {
    && !ch.closed && ch.migration && ch.writer.Some? && ch.fallback.Some?
    && script != [] && script[0] != Delivered && LinkUp(script[1..], n + 1)
  }

  /** Where the replay of a failed write starts: after whatever the failed write
      left behind, and after the control message. */
  function FailoverAt(trace: seq<Sent>, script: seq<Outcome>): nat {
    |trace| + 1 + if script != [] && script[0] == LeftButFailed then 1 else 0
  }

  lemma RecoverCarries(ch: Chan, net: Net, m: Message)
    requires !ch.closed && ch.migration && ch.fallback.Some? && LinkUp(net.script, |ch.pending| + 1)
    ensures var o := Recover(ch, net, m);
            o.ch.pending == ch.pending && Carries(o.net.trace, |net.trace| + 1, InOrder(ch.pending))
  {
    ToFallbackCarries(ch, net, "write failure");
    var f := ToFallback(ch, net, "write failure");
    if !m.Data? {
      CarriesOn(f.net.trace, Send(f.net, ch.fallback.value, m).0.trace, |net.trace| + 1, InOrder(ch.pending));
    }
  }

  lemma FirstWriteFails(ch: Chan, net: Net, m: Message, n: nat)
    requires FailsOver(ch, net.script, n)
    ensures var (after, ok) := Send(net, ch.writer.value, m);
            !ok && |after.trace| + 1 == FailoverAt(net.trace, net.script) && LinkUp(after.script, n + 1)
  {
  }

  lemma FailedWriteCarries(ch: Chan, net: Net, msg: Message)
    requires !msg.NoMessage? && !msg.Migrate? && FailsOver(ch, net.script, |Stamp(ch, msg).0.pending|)
    ensures var o := Write(ch, net, msg);
            && o.ch.pending == Stamp(ch, msg).0.pending
            && Carries(o.net.trace, FailoverAt(net.trace, net.script), InOrder(o.ch.pending))
  {
    var (c, m) := Stamp(ch, msg);
    FirstWriteFails(ch, net, m, |c.pending|);
    assert Write(ch, net, msg) == Recover(c, Send(net, ch.writer.value, m).0, m);
    RecoverCarries(c, Send(net, ch.writer.value, m).0, m);
  }

  /** The events at which an endpoint replays all it retains over a live link:
      a resumed direct channel, the switch to the relay, a failed direct
      channel, a failed write of any kind, and a peer that migrates. */
  ghost predicate Replays(me: Endpoint, peer: Endpoint, ev: Event) {
    var n := |me.ch.pending|;
    match ev
    case ResumeDirect(_, script) => !me.ch.closed && LinkUp(script, n)
    case GoRelay(script) => !me.ch.closed && me.ch.fallback.Some? && me.ch.migration && LinkUp(script, n)
    case DirectFailure(_, script) =>
      !me.ch.closed && me.ch.path == Direct && me.ch.fallback.Some? && me.ch.migration && LinkUp(script, n + 1)
    case WriteData(payload, named, script) => FailsOver(me.ch, script, |Stamp(me.ch, Written(me, ev)).0.pending|)
    case WriteOther(_, script) => FailsOver(me.ch, script, n)
    case Consume(script) =>
      me.inbox.present && me.inbox.queue != [] && me.inbox.queue[0].sequence != 0 && FailsOver(me.ch, script, n)
    case Arrive(i, script) =>
      i < |peer.net.trace| && AnswersWithReplay(me, peer.net.trace[i].msg, script)
    case _ => false
  }

  ghost predicate AnswersWithReplay(me: Endpoint, msg: Message, script: seq<Outcome>) {
    var n := |me.ch.pending|;
    match msg
    case Migrate(c, _) => c == me.ch.id && !me.ch.closed && me.ch.migration && me.ch.fallback.Some? && LinkUp(script, n)
    case Data(d) => d.channelID == me.ch.id && 1 <= d.sequence <= me.ch.received && FailsOver(me.ch, script, n)
    case _ => false
  }

  function Written(me: Endpoint, ev: Event): Message
    requires ev.WriteData?
  {
    Data(DataMessage(if ev.named then me.ch.id else 0, ev.payload, 0))
  }

  /** Where in the trace the replay of such an event starts. */
  function ReplayFrom(me: Endpoint, peer: Endpoint, ev: Event): nat {
    match ev
    case DirectFailure(_, _) => |me.net.trace| + 1
    case WriteData(_, _, script) => FailoverAt(me.net.trace, script)
    case WriteOther(_, script) => FailoverAt(me.net.trace, script)
    case Consume(script) => FailoverAt(me.net.trace, script)
    case Arrive(i, script) =>
      if i < |peer.net.trace| && peer.net.trace[i].msg.Data? then FailoverAt(me.net.trace, script) else |me.net.trace|
    case _ => |me.net.trace|
  }

  ghost predicate HasRoom(s: Endpoint, r: Endpoint) {
    r.inbox.present && |r.inbox.queue| + |s.log| <= QUEUE_CAPACITY + r.ch.received
  }

  /** The frames from index `lo` on arrive at b one after the other. */
  function Arrivals(lo: nat, n: nat, acks: nat -> seq<Outcome>): seq<Step> {
    if n == 0 then [] else Arrivals(lo, n - 1, acks) + [Step(false, Arrive(lo + n - 1, acks(n - 1)))]
  }

  /** The retained messages of s are `msgs`, and they stand in its trace from `lo` on. */
  ghost predicate ReplayAt(s: Endpoint, lo: nat, msgs: seq<DataMessage>) {
    && Ascending(msgs)
    && (forall m | m in msgs :: Logged(m, s.log) && m.channelID == s.ch.id)
    && (forall k | k in s.ch.pending :: s.ch.pending[k].sequence == k && s.ch.pending[k] in msgs)
    && lo + |msgs| <= |s.net.trace|
    && (forall i | 0 <= i < |msgs| :: s.net.trace[lo + i].msg == Data(msgs[i]))
  }

  ghost predicate Replayed(e: Endpoint, lo: nat) { Carries(e.net.trace, lo, InOrder(e.ch.pending)) }

  lemma SwitchReplays(me: Endpoint, peer: Endpoint, ev: Event)
    requires Replays(me, peer, ev) && (ev.ResumeDirect? || ev.GoRelay? || ev.DirectFailure?)
    ensures Replayed(Act(me, peer, ev), ReplayFrom(me, peer, ev))
  {
    var net := me.net.(script := ev.script);
    match ev
    case ResumeDirect(link, _) => ReplayCarries(me.ch.(writer := Some(link), path := Direct), net);
    case GoRelay(_) => ReplayCarries(me.ch.(writer := me.ch.fallback, path := Relay), net);
    case DirectFailure(reason, _) => ToFallbackCarries(me.ch, net, reason);
  }

  lemma FailedWriteReplays(me: Endpoint, peer: Endpoint, ev: Event)
    requires Replays(me, peer, ev) && (ev.WriteData? || ev.WriteOther? || ev.Consume?)
    ensures Replayed(Act(me, peer, ev), ReplayFrom(me, peer, ev))
  {
    var net := me.net.(script := ev.script);
    match ev
    case WriteData(_, _, _) => FailedWriteCarries(me.ch, net, Written(me, ev));
    case WriteOther(body, _) => FailedWriteCarries(me.ch, net, Other(body));
    case Consume(_) => FailedWriteCarries(me.ch, net, DataAck(me.ch.id, me.inbox.queue[0].sequence));
  }

  lemma ToRelayCarries(ch: Chan, net: Net)
    requires !ch.closed && ch.migration && ch.fallback.Some? && LinkUp(net.script, |ch.pending|)
    ensures var o := ToRelay(ch, net);
            o.ch.writer.Some? && o.ch.pending == ch.pending && Carries(o.net.trace, |net.trace|, InOrder(ch.pending))
  {
    ReplayCarries(ch.(writer := ch.fallback, path := Relay), net);
  }

  lemma MigrateReplays(me: Endpoint, c: ChannelID, reason: string)
    requires c == me.ch.id && !me.ch.closed && me.ch.migration && me.ch.fallback.Some?
    requires LinkUp(me.net.script, |me.ch.pending|)
    ensures Replayed(Receive(me, Migrate(c, reason)), |me.net.trace|)
  {
    var o := ToRelay(me.ch, me.net);
    ToRelayCarries(me.ch, me.net);
    CarriesOn(o.net.trace, Send(o.net, o.ch.writer.value, Other([])).0.trace, |me.net.trace|, InOrder(me.ch.pending));
  }

  lemma DuplicateReplays(me: Endpoint, d: DataMessage)
    requires d.channelID == me.ch.id && 1 <= d.sequence <= me.ch.received
    requires FailsOver(me.ch, me.net.script, |me.ch.pending|)
    ensures Replayed(Receive(me, Data(d)), FailoverAt(me.net.trace, me.net.script))
  {
    FailedWriteCarries(me.ch, me.net, DataAck(me.ch.id, d.sequence));
  }

  lemma ArrivalReplays(me: Endpoint, peer: Endpoint, ev: Event)
    requires Replays(me, peer, ev) && ev.Arrive?
    ensures Replayed(Act(me, peer, ev), ReplayFrom(me, peer, ev))
  {
    var m, msg := me.(net := me.net.(script := ev.script)), peer.net.trace[ev.frame].msg;
    assert Act(me, peer, ev) == Receive(m, msg);
    if msg.Migrate? {
      MigrateReplays(m, msg.channelID, msg.reason);
    } else {
      DuplicateReplays(m, msg.data);
    }
  }

  lemma ReplayedFrames(me: Endpoint, peer: Endpoint, ev: Event)
    requires Replays(me, peer, ev)
    ensures Replayed(Act(me, peer, ev), ReplayFrom(me, peer, ev))
  {
    if ev.Arrive? {
      ArrivalReplays(me, peer, ev);
    } else if ev.WriteData? || ev.WriteOther? || ev.Consume? {
      FailedWriteReplays(me, peer, ev);
    } else {
      SwitchReplays(me, peer, ev);
    }
  }

  lemma ReplayedAt(e: Endpoint, lo: nat)
    requires EndpointOk(e) && Replayed(e, lo)
    ensures ReplayAt(e, lo, InOrder(e.ch.pending))
  {
    InOrderAscending(e.ch.pending);
    forall m ensures m in InOrder(e.ch.pending) <==> m.sequence in e.ch.pending && e.ch.pending[m.sequence] == m {
      InOrderMembers(e.ch.pending, m);
    }
  }

  ghost predicate PastFirst(k: nat, msgs: seq<DataMessage>, r: Endpoint) {
    k <= |msgs| && forall j | 0 <= j < k :: msgs[j].sequence <= r.ch.received
  }

  /** The next retained message above `received` is `received + 1`, so a replay
      in order never shows the receiver a gap. */
  lemma NextIsDeliverable(s: Endpoint, r: Endpoint, lo: nat, msgs: seq<DataMessage>, k: nat)
    requires ReplayAt(s, lo, msgs) && Direction(s, r) && PastFirst(k, msgs, r) && |s.log| < U64
    ensures if k == |msgs| then r.ch.received == |s.log| else msgs[k].sequence <= r.ch.received + 1
  {
    if r.ch.received < |s.log| {
      var n: Uint64 := r.ch.received + 1;
      assert s.ch.pending[n] in msgs;
    }
  }

  lemma DeliverNext(me: Endpoint, d: DataMessage)
    requires me.inbox.present && d.channelID == me.ch.id && 1 <= d.sequence <= me.ch.received + 1
    requires d.sequence == me.ch.received + 1 ==> |me.inbox.queue| < QUEUE_CAPACITY
    ensures var e := Receive(me, Data(d));
            && e.log == me.log && e.inbox.present
            && d.sequence <= e.ch.received && me.ch.received <= e.ch.received
            && |e.inbox.queue| - |me.inbox.queue| == e.ch.received - me.ch.received
  {
    AcknowledgeEmits(me.ch, me.net, d.sequence);
  }

  /** Arrival number k of a replay brings the receiver past retained message k. */
  lemma ArrivalCatchesUp(s: Endpoint, r: Endpoint, lo: nat, msgs: seq<DataMessage>, k: nat, script: seq<Outcome>)
    requires ReplayAt(s, lo, msgs) && Direction(s, r) && PastFirst(k, msgs, r) && HasRoom(s, r)
    requires k < |msgs| && |s.log| < U64 && s.ch.id == r.ch.id
    ensures var e := Act(r, s, Arrive(lo + k, script));
            e.log == r.log && HasRoom(s, e) && PastFirst(k + 1, msgs, e)
  {
    var d := msgs[k];
    NextIsDeliverable(s, r, lo, msgs, k);
    assert Logged(d, s.log);
    var m := r.(net := r.net.(script := script));
    DeliverNext(m, d);
    assert Act(r, s, Arrive(lo + k, script)) == Receive(m, Data(d));
  }

  /** The run can be extended by one replayed frame after another. */
  ghost predicate CatchingUp(t: System, u: System, lo: nat, msgs: seq<DataMessage>, k: nat) {
    u.a == t.a && Inv(u) && Countable(u) && HasRoom(u.a, u.b) && PastFirst(k, msgs, u.b)
  }

  ghost predicate IsArrival(step: Step, frame: nat) { !step.atA && step.event.Arrive? && step.event.frame == frame }

  lemma StepCatchesUp(t: System, u: System, lo: nat, msgs: seq<DataMessage>, k: nat, step: Step)
    requires ReplayAt(t.a, lo, msgs) && CatchingUp(t, u, lo, msgs, k) && k < |msgs| && IsArrival(step, lo + k)
    ensures CatchingUp(t, Next(u, step), lo, msgs, k + 1)
  {
    ArrivalCatchesUp(u.a, u.b, lo, msgs, k, step.event.script);
    ActKeeps(u.b, u.a, step.event);
  }

  lemma RunMore(s: System, steps: seq<Step>, k: nat)
    requires k < |steps|
    ensures Run(s, steps[..k + 1]) == Next(Run(s, steps[..k]), steps[k])
  {
    assert steps[..k + 1][..k] == steps[..k];
  }

  lemma {:induction false} ReplayCatchesUp(t: System, lo: nat, msgs: seq<DataMessage>, k: nat, steps: seq<Step>)
    requires CatchingUp(t, t, lo, msgs, 0) && ReplayAt(t.a, lo, msgs) && k <= |msgs| == |steps|
    requires forall i | 0 <= i < |steps| :: IsArrival(steps[i], lo + i)
    ensures CatchingUp(t, Run(t, steps[..k]), lo, msgs, k)
    decreases k
  {
    if k > 0 {
      ReplayCatchesUp(t, lo, msgs, k - 1, steps);
      StepCatchesUp(t, Run(t, steps[..k - 1]), lo, msgs, k - 1, steps[k - 1]);
      RunMore(t, steps, k - 1);
    }
  }

  lemma {:induction false} ArrivalsAt(lo: nat, n: nat, acks: nat -> seq<Outcome>)
    ensures |Arrivals(lo, n, acks)| == n
    ensures forall i | 0 <= i < n :: IsArrival(Arrivals(lo, n, acks)[i], lo + i)
  {
    if n > 0 {
      ArrivalsAt(lo, n - 1, acks);
    }
  }

  /** The receiver has everything the sender numbered. */
  ghost predicate CaughtUp(t: System, u: System) {
    u.a.log == t.a.log && u.b.ch.received == |u.a.log| && Numbered(u.b.enqueued) == u.a.log
  }

  lemma ReplayCompletes(v: System, lo: nat, msgs: seq<DataMessage>, acks: nat -> seq<Outcome>)
    requires CatchingUp(v, v, lo, msgs, 0) && ReplayAt(v.a, lo, msgs)
    ensures CaughtUp(v, Run(v, Arrivals(lo, |msgs|, acks)))
  {
    var steps := Arrivals(lo, |msgs|, acks);
    ArrivalsAt(lo, |msgs|, acks);
    ReplayCatchesUp(v, lo, msgs, |msgs|, steps);
    assert steps[..|msgs|] == steps;
    var u := Run(v, steps);
    NextIsDeliverable(u.a, u.b, lo, msgs, |msgs|);
    assert u.a.log[..|u.a.log|] == u.a.log;
  }

  lemma RecoversFrom(t: System, ev: Event, acks: nat -> seq<Outcome>)
    requires Inv(t) && Replays(t.a, t.b, ev)
    requires var v := Next(t, Step(true, ev)); Countable(v) && HasRoom(v.a, v.b)
    ensures var v := Next(t, Step(true, ev));
            CaughtUp(v, Run(v, Arrivals(ReplayFrom(t.a, t.b, ev), |v.a.ch.pending|, acks)))
  {
    ActKeeps(t.a, t.b, ev);
    ReplayedFrames(t.a, t.b, ev);
    CompletesFrom(Next(t, Step(true, ev)), ReplayFrom(t.a, t.b, ev), acks);
  }

  lemma CompletesFrom(v: System, lo: nat, acks: nat -> seq<Outcome>)
    requires Inv(v) && Countable(v) && HasRoom(v.a, v.b) && Replayed(v.a, lo)
    ensures CaughtUp(v, Run(v, Arrivals(lo, |v.a.ch.pending|, acks)))
  {
    ReplayedAt(v.a, lo);
    ReplayCompletes(v, lo, InOrder(v.a.ch.pending), acks);
  }

  // The two endpoints play the same part, so what holds of a holds of b.

  /** The system with this endpoint in the place of a. */
  function Seen(s: System, atA: bool): System { if atA then s else System(s.b, s.a) }

  function SeenAll(steps: seq<Step>, atA: bool): seq<Step> {
    if steps == [] then []
    else
      var last := steps[|steps| - 1];
      SeenAll(steps[..|steps| - 1], atA) + [if atA then last else last.(atA := !last.atA)]
  }

  lemma {:induction false} SeenRun(s: System, steps: seq<Step>, atA: bool)
    ensures Run(Seen(s, atA), steps) == Seen(Run(s, SeenAll(steps, atA)), atA)
    decreases |steps|
  {
    if steps != [] {
      SeenRun(s, steps[..|steps| - 1], atA);
      var all := SeenAll(steps, atA);
      assert all[..|all| - 1] == SeenAll(steps[..|steps| - 1], atA);
    }
  }

  /** From any reachable state and for either endpoint, one replay over a live
      link whose frames arrive in order, with room in the queue, completes the
      peer's stream. */
  lemma ReplayRecovers(s: System, steps: seq<Step>, atA: bool, ev: Event, acks: nat -> seq<Outcome>)
    requires Initial(s) && Countable(Next(Run(s, steps), Step(atA, ev)))
    requires var t, v := Seen(Run(s, steps), atA), Seen(Next(Run(s, steps), Step(atA, ev)), atA);
             Replays(t.a, t.b, ev) && HasRoom(v.a, v.b)
    ensures var t, after := Seen(Run(s, steps), atA), Next(Run(s, steps), Step(atA, ev));
            var v := Seen(after, atA);
            var arrivals := SeenAll(Arrivals(ReplayFrom(t.a, t.b, ev), |v.a.ch.pending|, acks), atA);
            CaughtUp(v, Seen(Run(after, arrivals), atA))
  {
    var now, after := Run(s, steps), Next(Run(s, steps), Step(atA, ev));
    var t, v := Seen(now, atA), Seen(after, atA);
    ActBasics(t.a, t.b, ev);
    RunInv(s, steps);
    assert v == Next(t, Step(true, ev));
    RecoversFrom(t, ev, acks);
    SeenRun(after, Arrivals(ReplayFrom(t.a, t.b, ev), |v.a.ch.pending|, acks), atA);
  }

  // ------------------------------------------------- where the numbers end

  /** A second arrival is never queued exactly while the 64-bit counter has not
      wrapped: the message numbered after 2^64 - 1 others gets number zero,
      which the receiver queues every time it arrives. */
  lemma DuplicateSuppressedIff(sender: Chan, msg: DataMessage, me: Endpoint)
    requires sender.migration && me.ch.id == sender.id && (msg.channelID == 0 || msg.channelID == sender.id)
    requires me.inbox.present && |me.inbox.queue| + 2 <= QUEUE_CAPACITY
    ensures var m := Stamp(sender, Data(msg)).1;
            var once := Receive(me, m);
            var twice := Receive(once, m);
            |twice.enqueued| <= |me.enqueued| + 1 <==> sender.sequence != U64 - 1
  {
    var d := Stamp(sender, Data(msg)).1.data;
    var (c, isNext) := Accept(me.ch, d);
    AcknowledgeEmits(me.ch, me.net, d.sequence);
  }

  /** A receiver that is level with its sender is level again after the next
      message exactly while the counter has not wrapped. */
  lemma StaysLevelIff(sender: Chan, msg: DataMessage, me: Endpoint)
    requires sender.migration && me.ch.id == sender.id && (msg.channelID == 0 || msg.channelID == sender.id)
    requires me.inbox.present && |me.inbox.queue| < QUEUE_CAPACITY && me.ch.received == sender.sequence
    ensures var (after, m) := Stamp(sender, Data(msg));
            Receive(me, m).ch.received == after.sequence <==> sender.sequence != U64 - 1
  {
    var d := Stamp(sender, Data(msg)).1.data;
    assert Accept(me.ch, d).1;
    assert Receive(me, Data(d)) == Queued(me, d);
  }

  /** After the wrap the message with number zero is queued, and the one with
      number one is taken for a duplicate and dropped at its first arrival. */
  lemma LostAfterWrap(sender: Chan, first: DataMessage, second: DataMessage, me: Endpoint)
    requires sender.migration && sender.sequence == U64 - 1 && me.ch.received == U64 - 1 && me.ch.id == sender.id
    requires first.channelID == 0 && second.channelID == 0
    requires me.inbox.present && |me.inbox.queue| < QUEUE_CAPACITY
    ensures var (after, m) := Stamp(sender, Data(first));
            var n := Stamp(after, Data(second)).1;
            m.data.sequence == 0 && n.data.sequence == 1 && Receive(Receive(me, m), n).enqueued == me.enqueued + [m.data]
  {
    var (after, m) := Stamp(sender, Data(first));
    var n, e := Stamp(after, Data(second)).1, Receive(me, m);
    assert e.enqueued == me.enqueued + [m.data] && e.ch == me.ch;
    AcknowledgeEmits(e.ch, e.net, n.data.sequence);
    assert e.enqueued + [] == e.enqueued;
  }
}
